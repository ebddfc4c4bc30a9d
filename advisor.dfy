/**
 * The recommendation step: choose the allocation table by the assessed risk
 * score, then derive the fund list, rationale, risk mitigation and expected
 * returns from it.
 */
module Advisor {
  import opened Wrappers
  import opened Behaviour
  import opened Allocation
  import opened Funds
  import opened Advice

  datatype Recommendation = Recommendation(
    portfolioAllocation: Allocation,
    mutualFunds: seq<MutualFund>,
    rationale: seq<RationaleLine>,
    riskMitigation: seq<Strategy>,
    expectedReturns: ReturnBand)

  /**
   * The recommendation for a profile and its stored assessment. Whatever the
   * score, the funds are non-empty, their percentages add up to 100 and the
   * expected return starts between 7% and 12%.
   */
  method GenerateInvestmentRecommendations(u: UserData, a: Assessment) returns (r: Recommendation)
    ensures r.portfolioAllocation == AllocationFor(a.riskScore)
    ensures r.mutualFunds == FundList(r.portfolioAllocation)
    ensures r.rationale == Rationale(u, a, r.portfolioAllocation)
    ensures r.riskMitigation == RiskMitigation(a.biases)
    ensures r.expectedReturns == ExpectedReturns(r.portfolioAllocation)
    ensures |r.mutualFunds| > 0 && PercentSum(r.mutualFunds) == 100
    ensures Total(r.portfolioAllocation) == 100
    ensures 700 <= r.expectedReturns.low <= 1200
  {
    var allocation := AllocationFor(a.riskScore);
    var funds := GetMutualFundRecommendations(allocation);
    var rationale := GenerateRationale(u, a, allocation);
    var mitigation := GenerateRiskMitigation(a.biases);
    var expected := ExpectedReturns(allocation);
    TableFundList(a.riskScore);
    ReturnWithinRates(allocation);
    r := Recommendation(allocation, funds, rationale, mitigation, expected);
  }

  /**
   * The label and the table agree: a conservative label gets the conservative
   * table, a moderate one the moderate table, and both higher labels the growth table.
   */
  lemma LabelMatchesTable(riskScore: int)
    ensures ProfileFor(riskScore) == Conservative <==> TierFor(riskScore) == ConservativeTier
    ensures ProfileFor(riskScore) == Moderate <==> TierFor(riskScore) == ModerateTier
    ensures ProfileFor(riskScore) in {Balanced, Growth} <==> TierFor(riskScore) == GrowthTier
  {
  }

  /**
   * The repository's own test user end to end: the moderate table, five funds,
   * six mitigation lines and a band of 10.40% to 12.40%.
   */
  lemma TestUserRecommendation()
    ensures var u := UserData(Some(30), Some("Actor"), Some(75000.0), Some("beginner"), Some("low"));
      var a := Assessment(RiskScore(u), Biases(u), ProfileFor(RiskScore(u)), ConfidenceFor(u));
      var alloc := AllocationFor(a.riskScore);
      && alloc == Table(ModerateTier)
      && |FundList(alloc)| == 5
      && |RiskMitigation(a.biases)| == 6
      && ExpectedReturns(alloc) == ReturnBand(1040, 1240)
  {
    TestUserAssessment();
    TestUserMitigation();
    ModerateFundList();
    TableReturns(6);
  }

  /** The test user's two biases give two lines each, then the two closing lines. */
  lemma TestUserMitigation()
    ensures |RiskMitigation([OverconfidenceBias, LossAversion])| == 6
  {
    var biases := [OverconfidenceBias, LossAversion];
    assert (set t | t in biases) == {OverconfidenceBias, LossAversion};
  }
}
