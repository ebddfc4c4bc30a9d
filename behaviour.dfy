/**
 * Behavioural analysis of a stored user profile: bias tags, confidence level,
 * the 1-10 risk score and the four-step profile label.
 */
module Behaviour {
  import opened Wrappers
  import opened Seqs
  import opened Text

  /**
   * The profile fields the analysis reads. Each may be absent from the stored
   * record; the analysis then falls back to a default where it asks for one.
   */
  datatype UserData = UserData(
    age: Option<int>,
    occupation: Option<string>,
    income: Option<real>,
    experience: Option<string>,
    riskTolerance: Option<string>)

  /** The bias tags the analysis can report. */
  datatype Bias = OverconfidenceBias | LossAversion | SectorBias {
    function Tag(): string {
      match this
      case OverconfidenceBias => "overconfidence_bias"
      case LossAversion => "loss_aversion"
      case SectorBias => "sector_bias"
    }

    /** The position at which the analysis appends this tag. */
    function Rank(): int {
      match this
      case OverconfidenceBias => 0
      case LossAversion => 1
      case SectorBias => 2
    }
  }

  datatype Confidence = Low | Medium {
    function Name(): string {
      match this
      case Low => "low"
      case Medium => "medium"
    }
  }

  /** The profile ladder, from least to most risk. */
  datatype ProfileLabel = Conservative | Moderate | Balanced | Growth {
    function Name(): string {
      match this
      case Conservative => "Conservative Investor"
      case Moderate => "Moderate Investor"
      case Balanced => "Balanced Investor"
      case Growth => "Growth Investor"
    }

    function Step(): int {
      match this
      case Conservative => 0
      case Moderate => 1
      case Balanced => 2
      case Growth => 3
    }
  }

  datatype Assessment = Assessment(
    riskScore: int,
    biases: seq<Bias>,
    profile: ProfileLabel,
    confidence: Confidence)

  /** The order in which the bias rules are checked. */
  const AnalysisOrder: seq<Bias> := [OverconfidenceBias, LossAversion, SectorBias]

  const DefaultAge := 30
  const DefaultIncome := 50000.0
  const DefaultExperience := "beginner"
  const Baseline := 5

  /**
   * The rule that raises tag `t`. The bias rules read the raw fields: an absent
   * experience or tolerance matches nothing, an absent occupation is empty.
   */
  predicate Triggers(u: UserData, t: Bias) {
    match t
    case OverconfidenceBias => u.experience == Some("beginner")
    case LossAversion => u.riskTolerance == Some("low")
    case SectorBias => Contains(Lower(u.occupation.GetOr("")), "technology")
  }

  function TriggerTest(u: UserData): Bias -> bool {
    t => Triggers(u, t)
  }

  function BiasRank(t: Bias): int {
    t.Rank()
  }

  /** Every bias tag is in the analysis order. */
  lemma AnalysisOrderComplete()
    ensures forall t :: t in AnalysisOrder
  {
    forall t ensures t in AnalysisOrder {
      assert AnalysisOrder[t.Rank()] == t;
    }
  }

  /** The reported tags: those whose rule fires, each once, in rule order. */
  function Biases(u: UserData): (r: seq<Bias>)
    ensures forall t :: t in r <==> Triggers(u, t)
    ensures forall i, j :: 0 <= i < j < |r| ==> r[i].Rank() < r[j].Rank()
  {
    SelectAscending(AnalysisOrder, TriggerTest(u), BiasRank);
    SelectMembers(AnalysisOrder, TriggerTest(u));
    AnalysisOrderComplete();
    Select(AnalysisOrder, TriggerTest(u))
  }

  /** The selection written out rule by rule, in the order the rules are checked. */
  lemma BiasesInRuleOrder(u: UserData)
    ensures Biases(u) ==
      (if Triggers(u, OverconfidenceBias) then [OverconfidenceBias] else [])
      + (if Triggers(u, LossAversion) then [LossAversion] else [])
      + (if Triggers(u, SectorBias) then [SectorBias] else [])
  {
    var keep := TriggerTest(u);
    var order := AnalysisOrder;
    assert order[1..] == [LossAversion, SectorBias];
    assert order[1..][1..] == [SectorBias];
    assert order[1..][1..][1..] == [];
    calc {
      Select(order, keep);
      (if keep(OverconfidenceBias) then [OverconfidenceBias] else []) + Select(order[1..], keep);
      (if keep(OverconfidenceBias) then [OverconfidenceBias] else [])
        + ((if keep(LossAversion) then [LossAversion] else []) + Select(order[1..][1..], keep));
    }
  }

  /** Confidence is low exactly when the overconfidence tag is reported. */
  function ConfidenceFor(u: UserData): (c: Confidence)
    ensures c == Low <==> OverconfidenceBias in Biases(u)
  {
    if Triggers(u, OverconfidenceBias) then Low else Medium
  }

  function AgeAdjustment(age: int): int {
    if age < 35 then 2 else if age > 50 then -1 else 0
  }

  function ExperienceAdjustment(experience: string): int {
    if experience == "experienced" then 2
    else if experience == "beginner" then -1
    else 0
  }

  function IncomeAdjustment(income: real): int {
    if income > 100000.0 then 1 else 0
  }

  /** The score before clamping: the baseline plus the three adjustments, with the score's defaults. */
  function RawRiskScore(u: UserData): int {
    Baseline
      + AgeAdjustment(u.age.GetOr(DefaultAge))
      + ExperienceAdjustment(u.experience.GetOr(DefaultExperience))
      + IncomeAdjustment(u.income.GetOr(DefaultIncome))
  }

  function Clamp(x: int): int {
    if x < 1 then 1 else if x > 10 then 10 else x
  }

  /** The reported risk score, always on the 1-10 scale. */
  function RiskScore(u: UserData): (r: int)
    ensures 1 <= r <= 10
  {
    Clamp(RawRiskScore(u))
  }

  /** The label for a score; the tag list handed in beside it is never consulted. */
  function ProfileFor(riskScore: int): ProfileLabel {
    if riskScore <= 3 then Conservative
    else if riskScore <= 6 then Moderate
    else if riskScore <= 8 then Balanced
    else Growth
  }

  /**
   * The analysis as `analyze_behavioral_profile` performs it: append tags and update the score
   * one rule at a time, then clamp and label.
   */
  method AnalyzeBehavioralProfile(u: UserData) returns (a: Assessment)
    ensures a.biases == Biases(u)
    ensures a.confidence == ConfidenceFor(u)
    ensures a.riskScore == RiskScore(u)
    ensures a.profile == ProfileFor(a.riskScore)
  {
    var biases: seq<Bias> := [];
    var confidence := Medium;
    if u.experience == Some("beginner") {
      biases := biases + [OverconfidenceBias];
      confidence := Low;
    }
    if u.riskTolerance == Some("low") {
      biases := biases + [LossAversion];
    }
    if Contains(Lower(u.occupation.GetOr("")), "technology") {
      biases := biases + [SectorBias];
    }

    BiasesInRuleOrder(u);
    assert biases == Biases(u);

    var age := u.age.GetOr(DefaultAge);
    var income := u.income.GetOr(DefaultIncome);
    var experience := u.experience.GetOr(DefaultExperience);
    var score := Baseline;
    if age < 35 {
      score := score + 2;
    } else if age > 50 {
      score := score - 1;
    }
    if experience == "experienced" {
      score := score + 2;
    } else if experience == "beginner" {
      score := score - 1;
    }
    if income > 100000.0 {
      score := score + 1;
    }
    assert score == RawRiskScore(u);
    score := if score < 1 then 1 else if score > 10 then 10 else score;

    a := Assessment(score, biases, ProfileFor(score), confidence);
  }

  /** The additive rules alone keep the score in [3, 10], so the clamp never changes it. */
  lemma ClampNeverBinds(u: UserData)
    ensures 3 <= RawRiskScore(u) <= 10
    ensures RiskScore(u) == RawRiskScore(u)
  {
  }

  /** With everything else fixed, a higher income never lowers the score. */
  lemma ScoreMonotoneInIncome(u: UserData, low: real, high: real)
    requires low <= high
    ensures RiskScore(u.(income := Some(low))) <= RiskScore(u.(income := Some(high)))
  {
  }

  /** With everything else fixed, a higher age never raises the score. */
  lemma ScoreAntitoneInAge(u: UserData, younger: int, older: int)
    requires younger <= older
    ensures RiskScore(u.(age := Some(older))) <= RiskScore(u.(age := Some(younger)))
  {
  }

  /**
   * An absent experience field is no beginner to the bias rule, yet costs the
   * score a point as the default "beginner" does.
   */
  lemma MissingExperience(u: UserData)
    requires u.experience.None?
    ensures OverconfidenceBias !in Biases(u) && ConfidenceFor(u) == Medium
    ensures RawRiskScore(u) == RawRiskScore(u.(experience := Some("beginner")))
  {
  }

  /** The label ladder: four disjoint score ranges with boundaries 3, 6 and 8. */
  lemma ProfileTiers(riskScore: int)
    ensures ProfileFor(riskScore) == Conservative <==> riskScore <= 3
    ensures ProfileFor(riskScore) == Moderate <==> 3 < riskScore <= 6
    ensures ProfileFor(riskScore) == Balanced <==> 6 < riskScore <= 8
    ensures ProfileFor(riskScore) == Growth <==> 8 < riskScore
  {
  }

  /** A higher score never gives a lower step on the ladder. */
  lemma ProfileMonotone(lower: int, higher: int)
    requires lower <= higher
    ensures ProfileFor(lower).Step() <= ProfileFor(higher).Step()
  {
  }

  /** The profile of the repository's own test user: a 30-year-old beginner actor with low tolerance. */
  lemma TestUserAssessment()
    ensures var u := UserData(Some(30), Some("Actor"), Some(75000.0), Some("beginner"), Some("low"));
      && Biases(u) == [OverconfidenceBias, LossAversion]
      && ConfidenceFor(u) == Low
      && RiskScore(u) == 6
      && ProfileFor(RiskScore(u)) == Moderate
  {
    var u := UserData(Some(30), Some("Actor"), Some(75000.0), Some("beginner"), Some("low"));
    assert |Lower("Actor")| < |"technology"|;
    BiasesInRuleOrder(u);
  }
}
