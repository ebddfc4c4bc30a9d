/** The three fixed allocation tables and the choice between them by risk score. */
module Allocation {

  /** The fund categories an allocation may name, in the order the fund list visits them. */
  datatype Category = LargeCap | MidCap | SmallCap | Debt | Hybrid | International {
    /** The key of this category in the allocation dictionary. */
    function Key(): string {
      match this
      case LargeCap => "large_cap_funds"
      case MidCap => "mid_cap_funds"
      case SmallCap => "small_cap_funds"
      case Debt => "debt_funds"
      case Hybrid => "hybrid_funds"
      case International => "international_funds"
    }

    /** The position of this category in `CategoryOrder`. */
    function Index(): int {
      match this
      case LargeCap => 0
      case MidCap => 1
      case SmallCap => 2
      case Debt => 3
      case Hybrid => 4
      case International => 5
    }
  }

  const CategoryOrder: seq<Category> := [LargeCap, MidCap, SmallCap, Debt, Hybrid, International]

  /** Percentage per category; a category the table leaves out is absent. */
  type Allocation = map<Category, int>

  /** A category's percentage, 0 when absent (`allocation.get(key, 0)`). */
  function Get(a: Allocation, c: Category): int {
    if c in a then a[c] else 0
  }

  /** The sum of the percentages of the categories in `cs`. */
  function SumOver(cs: seq<Category>, a: Allocation): int {
    if cs == [] then 0 else Get(a, cs[0]) + SumOver(cs[1..], a)
  }

  /** The sum of all the allocation's values. */
  function Total(a: Allocation): int {
    SumOver(CategoryOrder, a)
  }

  /** The total written out category by category. */
  lemma TotalExpanded(a: Allocation)
    ensures Total(a) == Get(a, LargeCap) + Get(a, MidCap) + Get(a, SmallCap)
      + Get(a, Debt) + Get(a, Hybrid) + Get(a, International)
  {
    assert SumOver([], a) == 0;
    assert SumOver([International], a) == Get(a, International);
    assert SumOver([Hybrid, International], a) == Get(a, Hybrid) + Get(a, International);
    assert SumOver([Debt, Hybrid, International], a)
      == Get(a, Debt) + Get(a, Hybrid) + Get(a, International);
    assert SumOver([SmallCap, Debt, Hybrid, International], a)
      == Get(a, SmallCap) + Get(a, Debt) + Get(a, Hybrid) + Get(a, International);
    assert SumOver([MidCap, SmallCap, Debt, Hybrid, International], a)
      == Get(a, MidCap) + Get(a, SmallCap) + Get(a, Debt) + Get(a, Hybrid) + Get(a, International);
  }

  /** The three tables, by increasing risk. */
  datatype Tier = ConservativeTier | ModerateTier | GrowthTier

  function TierFor(riskScore: int): Tier {
    if riskScore <= 3 then ConservativeTier
    else if riskScore <= 6 then ModerateTier
    else GrowthTier
  }

  /** The table for a tier: positive percentages that add up to 100. */
  function Table(t: Tier): (a: Allocation)
    ensures forall c :: c in a ==> a[c] > 0
    ensures Total(a) == 100
  {
    var a := match t
      case ConservativeTier =>
        map[LargeCap := 40, Debt := 35, Hybrid := 20, International := 5]
      case ModerateTier =>
        map[LargeCap := 30, MidCap := 25, Debt := 25, Hybrid := 15, International := 5]
      case GrowthTier =>
        map[LargeCap := 25, MidCap := 30, SmallCap := 20, Debt := 15, International := 10];
    TotalExpanded(a);
    a
  }

  /** The allocation for a risk score: a table chosen by the score alone. */
  function AllocationFor(riskScore: int): (a: Allocation)
    ensures forall c :: c in a ==> a[c] > 0
    ensures Total(a) == 100
  {
    Table(TierFor(riskScore))
  }

  /** The equity categories' combined share. */
  function EquityShare(a: Allocation): int {
    Get(a, LargeCap) + Get(a, MidCap) + Get(a, SmallCap)
  }

  /** The tier boundaries: 3 and 6. */
  lemma TierBoundaries(riskScore: int)
    ensures TierFor(riskScore) == ConservativeTier <==> riskScore <= 3
    ensures TierFor(riskScore) == ModerateTier <==> 3 < riskScore <= 6
    ensures TierFor(riskScore) == GrowthTier <==> 6 < riskScore
  {
  }

  /** A higher score never lowers the equity share and never raises the debt share. */
  lemma RiskShiftsTowardsEquity(lower: int, higher: int)
    requires lower <= higher
    ensures EquityShare(AllocationFor(lower)) <= EquityShare(AllocationFor(higher))
    ensures Get(AllocationFor(higher), Debt) <= Get(AllocationFor(lower), Debt)
  {
  }
}
