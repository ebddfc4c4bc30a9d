/** The fund list: one fixed fund for each category that the allocation funds. */
module Funds {
  import opened Seqs
  import opened Allocation

  /** One recommended fund; everything but the percentage is fixed by the category. */
  datatype MutualFund = MutualFund(kind: Category, allocationPercentage: int) {
    function CategoryName(): string {
      match kind
      case LargeCap => "Large Cap Equity"
      case MidCap => "Mid Cap Equity"
      case SmallCap => "Small Cap Equity"
      case Debt => "Debt Fund"
      case Hybrid => "Hybrid Fund"
      case International => "International Fund"
    }

    function FundName(): string {
      match kind
      case LargeCap => "Axis Bluechip Fund"
      case MidCap => "Kotak Emerging Equity Fund"
      case SmallCap => "SBI Small Cap Fund"
      case Debt => "HDFC Corporate Bond Fund"
      case Hybrid => "ICICI Prudential Balanced Advantage Fund"
      case International => "Motilal Oswal Nasdaq 100 Fund"
    }

    function RiskLevel(): string {
      match kind
      case LargeCap => "Moderate"
      case MidCap => "High"
      case SmallCap => "Very High"
      case Debt => "Low"
      case Hybrid => "Moderate"
      case International => "High"
    }

    function Rationale(): string {
      match kind
      case LargeCap => "Stable large-cap companies with consistent performance"
      case MidCap => "Growth potential in emerging mid-cap companies"
      case SmallCap => "High growth potential with higher volatility"
      case Debt => "Stable returns with capital preservation"
      case Hybrid => "Balanced approach with dynamic asset allocation"
      case International => "Global diversification with technology exposure"
    }
  }

  function FundedTest(a: Allocation): Category -> bool {
    c => Get(a, c) > 0
  }

  function CategoryIndex(c: Category): int {
    c.Index()
  }

  /** The fund of each category in `cs`, carrying that category's percentage. */
  function FundsFor(cs: seq<Category>, a: Allocation): (r: seq<MutualFund>)
    ensures |r| == |cs|
    ensures forall i :: 0 <= i < |cs| ==> r[i] == MutualFund(cs[i], Get(a, cs[i]))
  {
    if cs == [] then [] else [MutualFund(cs[0], Get(a, cs[0]))] + FundsFor(cs[1..], a)
  }

  /** The sum of the funds' percentages. */
  function PercentSum(funds: seq<MutualFund>): int {
    if funds == [] then 0 else funds[0].allocationPercentage + PercentSum(funds[1..])
  }

  /** Some fund in `funds` is of category `c`. */
  predicate Lists(funds: seq<MutualFund>, c: Category) {
    exists f :: f in funds && f.kind == c
  }

  /** Each fund's category comes strictly after the previous one's in `CategoryOrder`. */
  predicate InCategoryOrder(funds: seq<MutualFund>) {
    forall i, j :: 0 <= i < j < |funds| ==> funds[i].kind.Index() < funds[j].kind.Index()
  }

  /**
   * The fund list: exactly the funded categories, once each, in category order,
   * each carrying its category's percentage.
   */
  function FundList(a: Allocation): (r: seq<MutualFund>)
    ensures forall c :: Lists(r, c) <==> Get(a, c) > 0
    ensures forall f :: f in r ==> f.allocationPercentage == Get(a, f.kind)
    ensures InCategoryOrder(r)
  {
    CategoryOrderComplete();
    FundsOfFunded(CategoryOrder, a);
    FundsFor(Select(CategoryOrder, FundedTest(a)), a)
  }

  /** Every category is in `CategoryOrder`, which lists them by index. */
  lemma CategoryOrderComplete()
    ensures forall c :: c in CategoryOrder
    ensures Ascending(CategoryOrder, CategoryIndex)
  {
    forall c ensures c in CategoryOrder {
      assert CategoryOrder[c.Index()] == c;
    }
  }

  lemma FundsOfFunded(cs: seq<Category>, a: Allocation)
    requires forall c :: c in cs
    requires Ascending(cs, CategoryIndex)
    ensures forall c :: Lists(FundsFor(Select(cs, FundedTest(a)), a), c) <==> Get(a, c) > 0
    ensures forall f :: f in FundsFor(Select(cs, FundedTest(a)), a) ==>
      f.allocationPercentage == Get(a, f.kind)
    ensures InCategoryOrder(FundsFor(Select(cs, FundedTest(a)), a))
  {
    var sel := Select(cs, FundedTest(a));
    SelectAscending(cs, FundedTest(a), CategoryIndex);
    SelectMembers(cs, FundedTest(a));
    FundsForShape(sel, a, FundsFor(sel, a));
  }

  /** The funds for a list of categories name exactly those categories, in the same order. */
  lemma FundsForShape(cs: seq<Category>, a: Allocation, r: seq<MutualFund>)
    requires r == FundsFor(cs, a)
    ensures forall c :: Lists(r, c) <==> c in cs
    ensures forall f :: f in r ==> f.allocationPercentage == Get(a, f.kind)
    ensures Ascending(cs, CategoryIndex) ==> InCategoryOrder(r)
  {
    forall c | c in cs
      ensures Lists(r, c)
    {
      var i :| 0 <= i < |cs| && cs[i] == c;
      assert r[i] in r && r[i].kind == c;
    }
    forall c | Lists(r, c)
      ensures c in cs
    {
      var f :| f in r && f.kind == c;
      var i :| 0 <= i < |r| && r[i] == f;
      assert cs[i] == c;
    }
    forall f | f in r
      ensures f.allocationPercentage == Get(a, f.kind)
    {
      var i :| 0 <= i < |r| && r[i] == f;
    }
    if Ascending(cs, CategoryIndex) {
      forall i, j | 0 <= i < j < |r|
        ensures r[i].kind.Index() < r[j].kind.Index()
      {
        assert r[i].kind == cs[i] && r[j].kind == cs[j];
        assert CategoryIndex(cs[i]) < CategoryIndex(cs[j]);
      }
    }
  }

  /** The funds of the first `k` categories of `CategoryOrder` that are funded. */
  function FundsUpTo(a: Allocation, k: nat): seq<MutualFund>
    requires k <= |CategoryOrder|
  {
    FundsFor(Select(CategoryOrder[..k], FundedTest(a)), a)
  }

  /** Visiting one more category appends its fund when the category is funded. */
  lemma FundListStep(a: Allocation, k: nat, c: Category)
    requires k < |CategoryOrder| && c == CategoryOrder[k]
    ensures FundsUpTo(a, k + 1)
      == FundsUpTo(a, k) + (if Get(a, c) > 0 then [MutualFund(c, Get(a, c))] else [])
  {
    var keep := FundedTest(a);
    assert CategoryOrder[..k + 1] == CategoryOrder[..k] + [c];
    SelectAppend(CategoryOrder[..k], [c], keep);
    assert Select([c], keep) == (if keep(c) then [c] else []) + Select([], keep);
    FundsForAppend(Select(CategoryOrder[..k], keep), Select([c], keep), a);
  }

  lemma FundsForAppend(xs: seq<Category>, ys: seq<Category>, a: Allocation)
    ensures FundsFor(xs + ys, a) == FundsFor(xs, a) + FundsFor(ys, a)
  {
    var l, r := FundsFor(xs + ys, a), FundsFor(xs, a) + FundsFor(ys, a);
    assert forall i :: 0 <= i < |l| ==> l[i] == r[i];
  }

  /** The fund percentages add up to the sum of the categories listed. */
  lemma {:induction false} PercentSumOfFundsFor(cs: seq<Category>, a: Allocation)
    ensures PercentSum(FundsFor(cs, a)) == SumOver(cs, a)
  {
    if cs != [] {
      PercentSumOfFundsFor(cs[1..], a);
      assert FundsFor(cs, a)[1..] == FundsFor(cs[1..], a);
    }
  }

  /** Leaving out the categories at 0 does not change a sum of non-negative percentages. */
  lemma {:induction false} SumOverFunded(cs: seq<Category>, a: Allocation)
    requires forall c :: Get(a, c) >= 0
    ensures SumOver(Select(cs, FundedTest(a)), a) == SumOver(cs, a)
  {
    if cs != [] {
      SumOverFunded(cs[1..], a);
      var rest := Select(cs[1..], FundedTest(a));
      if Get(a, cs[0]) > 0 {
        assert Select(cs, FundedTest(a)) == [cs[0]] + rest;
        assert ([cs[0]] + rest)[1..] == rest;
      } else {
        assert Select(cs, FundedTest(a)) == rest;
      }
    }
  }

  /** With no negative percentage, the fund percentages add up to the allocation's total. */
  lemma FundPercentagesAddUp(a: Allocation)
    requires forall c :: Get(a, c) >= 0
    ensures PercentSum(FundList(a)) == Total(a)
  {
    PercentSumOfFundsFor(Select(CategoryOrder, FundedTest(a)), a);
    SumOverFunded(CategoryOrder, a);
  }

  /** For every score, the fund list is non-empty and its percentages add up to 100. */
  lemma TableFundList(riskScore: int)
    ensures |FundList(AllocationFor(riskScore))| > 0
    ensures PercentSum(FundList(AllocationFor(riskScore))) == 100
  {
    var a := AllocationFor(riskScore);
    FundPercentagesAddUp(a);
  }

  /** The fund list as `_get_mutual_fund_recommendations` builds it: one append per funded category. */
  method GetMutualFundRecommendations(a: Allocation) returns (funds: seq<MutualFund>)
    ensures funds == FundList(a)
  {
    funds := [];
    assert funds == FundsUpTo(a, 0);
    if Get(a, LargeCap) > 0 {
      funds := funds + [MutualFund(LargeCap, a[LargeCap])];
    }
    FundListStep(a, 0, LargeCap);
    assert funds == FundsUpTo(a, 1);
    if Get(a, MidCap) > 0 {
      funds := funds + [MutualFund(MidCap, a[MidCap])];
    }
    FundListStep(a, 1, MidCap);
    assert funds == FundsUpTo(a, 2);
    if Get(a, SmallCap) > 0 {
      funds := funds + [MutualFund(SmallCap, a[SmallCap])];
    }
    FundListStep(a, 2, SmallCap);
    assert funds == FundsUpTo(a, 3);
    if Get(a, Debt) > 0 {
      funds := funds + [MutualFund(Debt, a[Debt])];
    }
    FundListStep(a, 3, Debt);
    assert funds == FundsUpTo(a, 4);
    if Get(a, Hybrid) > 0 {
      funds := funds + [MutualFund(Hybrid, a[Hybrid])];
    }
    FundListStep(a, 4, Hybrid);
    assert funds == FundsUpTo(a, 5);
    if Get(a, International) > 0 {
      funds := funds + [MutualFund(International, a[International])];
    }
    FundListStep(a, 5, International);
    assert funds == FundsUpTo(a, 6);
    assert CategoryOrder[..6] == CategoryOrder;
    assert FundsUpTo(a, 6) == FundList(a);
  }

  /** The fund a category contributes: one when it is funded, none otherwise. */
  function FundOf(a: Allocation, c: Category): seq<MutualFund> {
    if Get(a, c) > 0 then [MutualFund(c, Get(a, c))] else []
  }

  /** The fund list written out category by category. */
  lemma FundListExpanded(a: Allocation)
    ensures FundList(a) == FundOf(a, LargeCap) + FundOf(a, MidCap) + FundOf(a, SmallCap)
      + FundOf(a, Debt) + FundOf(a, Hybrid) + FundOf(a, International)
  {
    var f0 := FundOf(a, LargeCap);
    var f1 := FundOf(a, MidCap);
    var f2 := FundOf(a, SmallCap);
    var f3 := FundOf(a, Debt);
    var f4 := FundOf(a, Hybrid);
    var f5 := FundOf(a, International);
    assert FundsUpTo(a, 0) == [];
    FundListStep(a, 0, LargeCap);
    assert FundsUpTo(a, 1) == f0;
    FundListStep(a, 1, MidCap);
    assert FundsUpTo(a, 2) == f0 + f1;
    FundListStep(a, 2, SmallCap);
    assert FundsUpTo(a, 3) == f0 + f1 + f2;
    FundListStep(a, 3, Debt);
    assert FundsUpTo(a, 4) == f0 + f1 + f2 + f3;
    FundListStep(a, 4, Hybrid);
    assert FundsUpTo(a, 5) == f0 + f1 + f2 + f3 + f4;
    FundListStep(a, 5, International);
    assert FundsUpTo(a, 6) == f0 + f1 + f2 + f3 + f4 + f5;
    assert CategoryOrder[..6] == CategoryOrder;
  }

  /** The moderate table yields five funds, small cap being the one left out. */
  lemma ModerateFundList()
    ensures FundList(Table(ModerateTier)) == [
      MutualFund(LargeCap, 30), MutualFund(MidCap, 25), MutualFund(Debt, 25),
      MutualFund(Hybrid, 15), MutualFund(International, 5)]
  {
    var a := Table(ModerateTier);
    assert Get(a, LargeCap) == 30 && Get(a, MidCap) == 25 && Get(a, SmallCap) == 0;
    assert Get(a, Debt) == 25 && Get(a, Hybrid) == 15 && Get(a, International) == 5;
    FundListOfFiveFunds(a);
  }

  lemma FundListOfFiveFunds(a: Allocation)
    requires Get(a, LargeCap) == 30 && Get(a, MidCap) == 25 && Get(a, SmallCap) == 0
    requires Get(a, Debt) == 25 && Get(a, Hybrid) == 15 && Get(a, International) == 5
    ensures FundList(a) == [
      MutualFund(LargeCap, 30), MutualFund(MidCap, 25), MutualFund(Debt, 25),
      MutualFund(Hybrid, 15), MutualFund(International, 5)]
  {
    FundListExpanded(a);
    var r := FundList(a);
    assert r == [MutualFund(LargeCap, 30)] + [MutualFund(MidCap, 25)] + [] + [MutualFund(Debt, 25)]
      + [MutualFund(Hybrid, 15)] + [MutualFund(International, 5)];
    assert |r| == 5;
    assert r[0] == MutualFund(LargeCap, 30) && r[1] == MutualFund(MidCap, 25);
    assert r[2] == MutualFund(Debt, 25) && r[3] == MutualFund(Hybrid, 15);
  }
}
