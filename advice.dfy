/**
 * The advice built from an assessment and an allocation: the risk-mitigation
 * strategy lines, the rationale lines and the expected-return band.
 */
module Advice {
  import opened Wrappers
  import opened Seqs
  import opened Behaviour
  import opened Allocation

  // ---------------------------------------------------------------------------
  // Risk mitigation
  // ---------------------------------------------------------------------------

  /** One line of the risk-mitigation output. */
  datatype Strategy =
    | StartWithSip | FocusOnLongTermGoals
    | RegularRebalancing | AvoidFrequentTrading
    | DiversifyAcrossSectors | AvoidFamiliarSectors
    | AnnualReview | EmergencyFund
  {
    function Text(): string {
      match this
      case StartWithSip => "• Start with SIP (Systematic Investment Plan) to average out market volatility"
      case FocusOnLongTermGoals => "• Focus on long-term goals rather than short-term market movements"
      case RegularRebalancing => "• Regular portfolio review and rebalancing"
      case AvoidFrequentTrading => "• Avoid frequent trading and stick to the plan"
      case DiversifyAcrossSectors => "• Diversify across sectors and asset classes"
      case AvoidFamiliarSectors => "• Avoid concentration in familiar sectors"
      case AnnualReview => "• Regular monitoring and annual review"
      case EmergencyFund => "• Emergency fund equivalent to 6-8 months of expenses"
    }

    /** The bias this line answers; the two closing lines answer none. */
    function Addresses(): Option<Bias> {
      match this
      case StartWithSip | FocusOnLongTermGoals => Some(LossAversion)
      case RegularRebalancing | AvoidFrequentTrading => Some(OverconfidenceBias)
      case DiversifyAcrossSectors | AvoidFamiliarSectors => Some(SectorBias)
      case AnnualReview | EmergencyFund => None
    }
  }

  /** The order in which the risk-mitigation rules are checked. */
  const MitigationOrder: seq<Bias> := [LossAversion, OverconfidenceBias, SectorBias]

  /** The two lines every risk-mitigation output ends with. */
  const ClosingStrategies: seq<Strategy> := [AnnualReview, EmergencyFund]

  /** The two lines for one bias, in output order. */
  function StrategiesFor(t: Bias): (r: seq<Strategy>)
    ensures |r| == 2
    ensures forall s :: s in r <==> s.Addresses() == Some(t)
  {
    match t
    case LossAversion => [StartWithSip, FocusOnLongTermGoals]
    case OverconfidenceBias => [RegularRebalancing, AvoidFrequentTrading]
    case SectorBias => [DiversifyAcrossSectors, AvoidFamiliarSectors]
  }

  /** The lines for each bias of `ts` in turn. */
  function StrategiesForAll(ts: seq<Bias>): (r: seq<Strategy>)
    ensures |r| == 2 * |ts|
  {
    if ts == [] then [] else StrategiesFor(ts[0]) + StrategiesForAll(ts[1..])
  }

  /** A line is among the lines for `ts` exactly when it answers a bias of `ts`. */
  lemma {:induction false} StrategiesForAllMembers(ts: seq<Bias>)
    ensures forall s :: s in StrategiesForAll(ts) <==> s.Addresses().Some? && s.Addresses().value in ts
  {
    if ts != [] {
      StrategiesForAllMembers(ts[1..]);
      assert ts == [ts[0]] + ts[1..];
    }
  }

  function PresentIn(biases: seq<Bias>): Bias -> bool {
    t => t in biases
  }

  /** Every bias tag is in the mitigation order, and that order repeats none. */
  lemma MitigationOrderComplete()
    ensures forall t :: t in MitigationOrder
    ensures Distinct(MitigationOrder)
  {
    forall t ensures t in MitigationOrder {
      match t
      case LossAversion => assert MitigationOrder[0] == t;
      case OverconfidenceBias => assert MitigationOrder[1] == t;
      case SectorBias => assert MitigationOrder[2] == t;
    }
  }

  /** The tags of `biases`, each once, in mitigation order. */
  function MitigatedBiases(biases: seq<Bias>): (r: seq<Bias>)
    ensures forall t :: t in r <==> t in biases
    ensures |r| == |set t | t in biases|
  {
    var r := Select(MitigationOrder, PresentIn(biases));
    MitigationOrderComplete();
    SelectMembers(MitigationOrder, PresentIn(biases));
    SelectDistinct(MitigationOrder, PresentIn(biases));
    DistinctCardinality(r);
    assert (set t | t in r) == (set t | t in biases);
    r
  }

  /**
   * The risk-mitigation lines: two for each bias present, in mitigation order,
   * then the two closing lines.
   */
  function RiskMitigation(biases: seq<Bias>): (r: seq<Strategy>)
    ensures |r| == 2 + 2 * |set t | t in biases|
    ensures r[|r| - 2..] == ClosingStrategies
    ensures forall s :: s in r <==> s.Addresses().None? || s.Addresses().value in biases
  {
    var present := MitigatedBiases(biases);
    var r := StrategiesForAll(present) + ClosingStrategies;
    MitigationMembers(present, biases, r);
    assert r[|r| - 2..] == ClosingStrategies;
    r
  }

  lemma MitigationMembers(present: seq<Bias>, biases: seq<Bias>, r: seq<Strategy>)
    requires forall t :: t in present <==> t in biases
    requires r == StrategiesForAll(present) + ClosingStrategies
    ensures forall s :: s in r <==> s.Addresses().None? || s.Addresses().value in biases
  {
    StrategiesForAllMembers(present);
    forall s ensures s in r <==> s.Addresses().None? || s.Addresses().value in biases {
      assert s in ClosingStrategies <==> s.Addresses().None?;
      assert s in r <==> s in StrategiesForAll(present) || s in ClosingStrategies;
    }
  }

  /** The risk-mitigation lines as `_generate_risk_mitigation` builds them: one rule at a time. */
  method GenerateRiskMitigation(biases: seq<Bias>) returns (strategies: seq<Strategy>)
    ensures strategies == RiskMitigation(biases)
  {
    strategies := [];
    if LossAversion in biases {
      strategies := strategies + [StartWithSip, FocusOnLongTermGoals];
    }
    if OverconfidenceBias in biases {
      strategies := strategies + [RegularRebalancing, AvoidFrequentTrading];
    }
    if SectorBias in biases {
      strategies := strategies + [DiversifyAcrossSectors, AvoidFamiliarSectors];
    }
    strategies := strategies + [AnnualReview, EmergencyFund];
    MitigationInRuleOrder(biases);
  }

  /** The mitigation selection written out rule by rule. */
  lemma MitigationInRuleOrder(biases: seq<Bias>)
    ensures RiskMitigation(biases) ==
      (if LossAversion in biases then [StartWithSip, FocusOnLongTermGoals] else [])
      + (if OverconfidenceBias in biases then [RegularRebalancing, AvoidFrequentTrading] else [])
      + (if SectorBias in biases then [DiversifyAcrossSectors, AvoidFamiliarSectors] else [])
      + [AnnualReview, EmergencyFund]
  {
    var keep := PresentIn(biases);
    SelectCons(SectorBias, [], keep);
    SelectCons(OverconfidenceBias, [SectorBias], keep);
    SelectCons(LossAversion, [OverconfidenceBias, SectorBias], keep);
    assert MitigationOrder == [LossAversion] + ([OverconfidenceBias] + ([SectorBias] + []));
    var present := Select(MitigationOrder, keep);
    var one := if keep(LossAversion) then [LossAversion] else [];
    var two := if keep(OverconfidenceBias) then [OverconfidenceBias] else [];
    var three := if keep(SectorBias) then [SectorBias] else [];
    assert present == one + (two + (three + []));
    StrategiesForAllAppend(one, two + three);
    StrategiesForAllAppend(two, three);
    assert StrategiesForAll(three + []) == StrategiesForAll(three);
  }

  lemma {:induction false} StrategiesForAllAppend(xs: seq<Bias>, ys: seq<Bias>)
    ensures StrategiesForAll(xs + ys) == StrategiesForAll(xs) + StrategiesForAll(ys)
  {
    if xs == [] {
      assert xs + ys == ys;
    } else {
      var t := xs + ys;
      assert t[0] == xs[0] && t[1..] == xs[1..] + ys;
      calc {
        StrategiesForAll(t);
        StrategiesFor(xs[0]) + StrategiesForAll(xs[1..] + ys);
        { StrategiesForAllAppend(xs[1..], ys); }
        StrategiesFor(xs[0]) + (StrategiesForAll(xs[1..]) + StrategiesForAll(ys));
        { AppendAssociative(StrategiesFor(xs[0]), StrategiesForAll(xs[1..]), StrategiesForAll(ys)); }
        StrategiesForAll(xs) + StrategiesForAll(ys);
      }
    }
  }

  // ---------------------------------------------------------------------------
  // Rationale
  // ---------------------------------------------------------------------------

  /** One line of the rationale text; the numbers it quotes are its parameters. */
  datatype RationaleLine =
    | Opening(age: int, profile: ProfileLabel)
    | Horizon(age: int, long: bool)
    | BehaviouralHeading
    | BiasNote(bias: Bias)
    | RiskManagement(debtPercent: int)
    | GrowthPotential(equityPercent: int)
    | Diversification

  /** The order in which the rationale's bias notes are checked; not the mitigation order. */
  const RationaleOrder: seq<Bias> := [LossAversion, SectorBias, OverconfidenceBias]

  /** One note per tag of `ts`, in the same order. */
  function BiasNotes(ts: seq<Bias>): (r: seq<RationaleLine>)
    ensures |r| == |ts|
    ensures forall i :: 0 <= i < |ts| ==> r[i] == BiasNote(ts[i])
  {
    if ts == [] then [] else [BiasNote(ts[0])] + BiasNotes(ts[1..])
  }

  /** Every bias tag is in the rationale order, and that order repeats none. */
  lemma RationaleOrderComplete()
    ensures forall t :: t in RationaleOrder
    ensures Distinct(RationaleOrder)
  {
    forall t ensures t in RationaleOrder {
      match t
      case LossAversion => assert RationaleOrder[0] == t;
      case SectorBias => assert RationaleOrder[1] == t;
      case OverconfidenceBias => assert RationaleOrder[2] == t;
    }
  }

  /** The notes for `ts` are those of exactly the tags of `ts`. */
  lemma BiasNotesMembers(ts: seq<Bias>)
    ensures forall t :: BiasNote(t) in BiasNotes(ts) <==> t in ts
  {
    forall t ensures BiasNote(t) in BiasNotes(ts) <==> t in ts {
      if t in ts {
        var i :| 0 <= i < |ts| && ts[i] == t;
        assert BiasNotes(ts)[i] == BiasNote(t);
      }
    }
  }

  /** The tags of `biases`, each once, in rationale order. */
  function NotedBiases(biases: seq<Bias>): (r: seq<Bias>)
    ensures forall t :: t in r <==> t in biases
    ensures |r| == |set t | t in biases|
  {
    var r := Select(RationaleOrder, PresentIn(biases));
    RationaleOrderComplete();
    SelectMembers(RationaleOrder, PresentIn(biases));
    SelectDistinct(RationaleOrder, PresentIn(biases));
    DistinctCardinality(r);
    assert (set t | t in r) == (set t | t in biases);
    r
  }

  /**
   * The rationale: opening, horizon and heading; a note for each bias present;
   * then the debt figure, the growth figure and the diversification line.
   */
  function Rationale(u: UserData, a: Assessment, alloc: Allocation): (r: seq<RationaleLine>)
    ensures |r| == 6 + |set t | t in a.biases|
    ensures forall t :: BiasNote(t) in r <==> t in a.biases
    ensures r[|r| - 3] == RiskManagement(Get(alloc, Debt))
    ensures r[|r| - 2] == GrowthPotential(EquityShare(alloc) - Get(alloc, SmallCap))
  {
    var age := u.age.GetOr(DefaultAge);
    var r := [Opening(age, a.profile), Horizon(age, age < 40), BehaviouralHeading]
      + BiasNotes(NotedBiases(a.biases))
      + [RiskManagement(Get(alloc, Debt)),
         GrowthPotential(Get(alloc, LargeCap) + Get(alloc, MidCap)),
         Diversification];
    RationaleFacts(u, a, alloc, r);
    r
  }

  lemma RationaleFacts(u: UserData, a: Assessment, alloc: Allocation, r: seq<RationaleLine>)
    requires var age := u.age.GetOr(DefaultAge);
      r == [Opening(age, a.profile), Horizon(age, age < 40), BehaviouralHeading]
        + BiasNotes(NotedBiases(a.biases))
        + [RiskManagement(Get(alloc, Debt)),
           GrowthPotential(Get(alloc, LargeCap) + Get(alloc, MidCap)),
           Diversification]
    ensures |r| == 6 + |set t | t in a.biases|
    ensures forall t :: BiasNote(t) in r <==> t in a.biases
    ensures r[|r| - 3] == RiskManagement(Get(alloc, Debt))
    ensures r[|r| - 2] == GrowthPotential(EquityShare(alloc) - Get(alloc, SmallCap))
  {
    var age := u.age.GetOr(DefaultAge);
    var notes := NotedBiases(a.biases);
    var head := [Opening(age, a.profile), Horizon(age, age < 40), BehaviouralHeading];
    var tail := [RiskManagement(Get(alloc, Debt)),
      GrowthPotential(Get(alloc, LargeCap) + Get(alloc, MidCap)),
      Diversification];
    BiasNotesMembers(notes);
    RationaleShape(head, BiasNotes(notes), tail, r);
  }

  /** Lines framed by three fixed lines on each side: the length, the last lines and the notes. */
  lemma RationaleShape(head: seq<RationaleLine>, notes: seq<RationaleLine>, tail: seq<RationaleLine>,
      r: seq<RationaleLine>)
    requires |head| == 3 && |tail| == 3 && r == head + notes + tail
    requires forall l :: l in head ==> !l.BiasNote?
    requires forall l :: l in tail ==> !l.BiasNote?
    ensures |r| == 6 + |notes|
    ensures r[|r| - 3] == tail[0] && r[|r| - 2] == tail[1]
    ensures forall t :: BiasNote(t) in r <==> BiasNote(t) in notes
  {
    forall t ensures BiasNote(t) in r <==> BiasNote(t) in notes {
      assert BiasNote(t) !in head && BiasNote(t) !in tail;
      assert BiasNote(t) in r <==> BiasNote(t) in head || BiasNote(t) in notes || BiasNote(t) in tail;
    }
  }

  /** The rationale as `_generate_rationale` builds it: fixed lines, then one note per rule, then the figures. */
  method GenerateRationale(u: UserData, a: Assessment, alloc: Allocation) returns (lines: seq<RationaleLine>)
    ensures lines == Rationale(u, a, alloc)
  {
    var age := u.age.GetOr(DefaultAge);
    lines := [Opening(age, a.profile), Horizon(age, age < 40), BehaviouralHeading];
    ghost var head := lines;
    if LossAversion in a.biases {
      lines := lines + [BiasNote(LossAversion)];
    }
    ghost var n1 := lines[|head|..];
    assert lines == head + n1;
    if SectorBias in a.biases {
      lines := lines + [BiasNote(SectorBias)];
    }
    ghost var n2 := lines[|head + n1|..];
    assert lines == (head + n1) + n2;
    if OverconfidenceBias in a.biases {
      lines := lines + [BiasNote(OverconfidenceBias)];
    }
    ghost var n3 := lines[|head + n1 + n2|..];
    assert lines == (head + n1 + n2) + n3;
    RationaleInRuleOrder(a.biases);
    assert BiasNotes(NotedBiases(a.biases)) == n1 + n2 + n3;
    AppendAssociative(head, n1, n2);
    AppendAssociative(head, n1 + n2, n3);
    assert lines == head + BiasNotes(NotedBiases(a.biases));
    lines := lines + [
      RiskManagement(Get(alloc, Debt)),
      GrowthPotential(Get(alloc, LargeCap) + Get(alloc, MidCap)),
      Diversification];
    RationaleUnfolded(u, a, alloc);
  }

  lemma RationaleUnfolded(u: UserData, a: Assessment, alloc: Allocation)
    ensures var age := u.age.GetOr(DefaultAge);
      Rationale(u, a, alloc)
      == [Opening(age, a.profile), Horizon(age, age < 40), BehaviouralHeading]
         + BiasNotes(NotedBiases(a.biases))
         + [RiskManagement(Get(alloc, Debt)),
            GrowthPotential(Get(alloc, LargeCap) + Get(alloc, MidCap)),
            Diversification]
  {
  }

  /**
   * The rationale line by line: the opening with the age and label, the horizon
   * (long exactly when the age is under 40) and the heading; then the notes for
   * loss aversion, sector bias and overconfidence, each only when that bias is
   * reported; then the debt and growth figures and the diversification line.
   */
  lemma RationaleLayout(u: UserData, a: Assessment, alloc: Allocation)
    ensures var r := Rationale(u, a, alloc);
      var age := u.age.GetOr(DefaultAge);
      && r[..3] == [Opening(age, a.profile), Horizon(age, age < 40), BehaviouralHeading]
      && r[3..|r| - 3] ==
        (if LossAversion in a.biases then [BiasNote(LossAversion)] else [])
        + (if SectorBias in a.biases then [BiasNote(SectorBias)] else [])
        + (if OverconfidenceBias in a.biases then [BiasNote(OverconfidenceBias)] else [])
      && r[|r| - 1] == Diversification
  {
    var age := u.age.GetOr(DefaultAge);
    var head := [Opening(age, a.profile), Horizon(age, age < 40), BehaviouralHeading];
    var notes := BiasNotes(NotedBiases(a.biases));
    var tail := [RiskManagement(Get(alloc, Debt)),
      GrowthPotential(Get(alloc, LargeCap) + Get(alloc, MidCap)),
      Diversification];
    RationaleUnfolded(u, a, alloc);
    FramedSlices(head, notes, tail, Rationale(u, a, alloc));
    RationaleInRuleOrder(a.biases);
  }

  /** The three parts of a sequence framed by three lines on each side. */
  lemma FramedSlices(head: seq<RationaleLine>, notes: seq<RationaleLine>, tail: seq<RationaleLine>,
      r: seq<RationaleLine>)
    requires |head| == 3 && |tail| == 3 && r == head + notes + tail
    ensures r[..3] == head && r[3..|r| - 3] == notes && r[|r| - 1] == tail[2]
  {
    assert r[..3] == head;
    assert r[3..|r| - 3] == notes;
  }

  /** The rationale's note selection written out rule by rule. */
  lemma RationaleInRuleOrder(biases: seq<Bias>)
    ensures BiasNotes(NotedBiases(biases)) ==
      (if LossAversion in biases then [BiasNote(LossAversion)] else [])
      + (if SectorBias in biases then [BiasNote(SectorBias)] else [])
      + (if OverconfidenceBias in biases then [BiasNote(OverconfidenceBias)] else [])
  {
    var keep := PresentIn(biases);
    SelectCons(OverconfidenceBias, [], keep);
    SelectCons(SectorBias, [OverconfidenceBias], keep);
    SelectCons(LossAversion, [SectorBias, OverconfidenceBias], keep);
    assert RationaleOrder == [LossAversion] + ([SectorBias] + ([OverconfidenceBias] + []));
    var notes := NotedBiases(biases);
    assert notes == Select(RationaleOrder, keep);
    var one := if keep(LossAversion) then [LossAversion] else [];
    var two := if keep(SectorBias) then [SectorBias] else [];
    var three := if keep(OverconfidenceBias) then [OverconfidenceBias] else [];
    assert notes == one + (two + (three + []));
    BiasNotesAppend(one, two + three);
    BiasNotesAppend(two, three);
    assert three + [] == three;
    var n1 := if LossAversion in biases then [BiasNote(LossAversion)] else [];
    var n2 := if SectorBias in biases then [BiasNote(SectorBias)] else [];
    var n3 := if OverconfidenceBias in biases then [BiasNote(OverconfidenceBias)] else [];
    assert BiasNotes(one) == n1 && BiasNotes(two) == n2 && BiasNotes(three) == n3;
    AppendAssociative(n1, n2, n3);
  }

  lemma BiasNotesAppend(xs: seq<Bias>, ys: seq<Bias>)
    ensures BiasNotes(xs + ys) == BiasNotes(xs) + BiasNotes(ys)
  {
    var l, r := BiasNotes(xs + ys), BiasNotes(xs) + BiasNotes(ys);
    assert forall i :: 0 <= i < |l| ==> l[i] == r[i];
  }

  // ---------------------------------------------------------------------------
  // Expected returns
  // ---------------------------------------------------------------------------

  /** The nominal annual return the calculation assumes for a category, in percent. */
  function AnnualReturn(c: Category): int {
    match c
    case LargeCap | MidCap | SmallCap => 12
    case Debt => 7
    case Hybrid => 10
    case International => 11
  }

  /** The sum over `cs` of each category's percentage times its annual return. */
  function WeightedOver(cs: seq<Category>, alloc: Allocation): int {
    if cs == [] then 0 else AnnualReturn(cs[0]) * Get(alloc, cs[0]) + WeightedOver(cs[1..], alloc)
  }

  /** A return band in hundredths of a percent: 980 stands for 9.80%. */
  datatype ReturnBand = ReturnBand(low: int, high: int)

  /**
   * The expected-return band: the allocation-weighted return, grouping the
   * three equity categories at 12%, and the same plus two points.
   */
  function ExpectedReturns(alloc: Allocation): (band: ReturnBand)
    ensures band.low == WeightedOver(CategoryOrder, alloc)
    ensures band.high == band.low + 200
  {
    var equity := EquityShare(alloc);
    var low := equity * 12 + Get(alloc, Debt) * 7 + Get(alloc, Hybrid) * 10
      + Get(alloc, International) * 11;
    WeightedExpanded(alloc);
    ReturnBand(low, low + 200)
  }

  lemma WeightedExpanded(alloc: Allocation)
    ensures WeightedOver(CategoryOrder, alloc)
      == 12 * Get(alloc, LargeCap) + 12 * Get(alloc, MidCap) + 12 * Get(alloc, SmallCap)
       + 7 * Get(alloc, Debt) + 10 * Get(alloc, Hybrid) + 11 * Get(alloc, International)
  {
    var a := alloc;
    assert WeightedOver([], a) == 0;
    assert WeightedOver([International], a) == 11 * Get(a, International);
    assert WeightedOver([Hybrid, International], a) == 10 * Get(a, Hybrid) + 11 * Get(a, International);
    assert WeightedOver([Debt, Hybrid, International], a)
      == 7 * Get(a, Debt) + 10 * Get(a, Hybrid) + 11 * Get(a, International);
    assert WeightedOver([SmallCap, Debt, Hybrid, International], a)
      == 12 * Get(a, SmallCap) + 7 * Get(a, Debt) + 10 * Get(a, Hybrid) + 11 * Get(a, International);
    assert WeightedOver([MidCap, SmallCap, Debt, Hybrid, International], a)
      == 12 * Get(a, MidCap) + 12 * Get(a, SmallCap) + 7 * Get(a, Debt) + 10 * Get(a, Hybrid)
       + 11 * Get(a, International);
  }

  /** With non-negative weights, the weighted sum lies between 7 and 12 times the total weight. */
  lemma {:induction false} WeightedBounds(cs: seq<Category>, alloc: Allocation)
    requires forall c :: Get(alloc, c) >= 0
    ensures 7 * SumOver(cs, alloc) <= WeightedOver(cs, alloc) <= 12 * SumOver(cs, alloc)
  {
    if cs != [] {
      WeightedBounds(cs[1..], alloc);
      var w := Get(alloc, cs[0]);
      assert 7 * w <= AnnualReturn(cs[0]) * w <= 12 * w;
    }
  }

  /** For an allocation of non-negative percentages summing to 100, the lower bound is 7% to 12%. */
  lemma ReturnWithinRates(alloc: Allocation)
    requires forall c :: Get(alloc, c) >= 0
    requires Total(alloc) == 100
    ensures 700 <= ExpectedReturns(alloc).low <= 1200
  {
    WeightedBounds(CategoryOrder, alloc);
  }

  /** The lower bounds of the three tables: 9.80%, 10.40% and 11.15%. */
  lemma TableReturns(riskScore: int)
    ensures ExpectedReturns(AllocationFor(riskScore)).low ==
      if riskScore <= 3 then 980 else if riskScore <= 6 then 1040 else 1115
    ensures 700 <= ExpectedReturns(AllocationFor(riskScore)).low <= 1200
  {
  }

  /**
   * The rationale's growth figure counts large and mid cap only: it falls short
   * of the equity share the expected returns use by the small-cap percentage,
   * which for the growth table is 20 points (55% quoted against 75%).
   */
  lemma RationaleEquityOmitsSmallCap(u: UserData, a: Assessment, riskScore: int)
    requires riskScore > 6
    ensures var alloc := AllocationFor(riskScore);
      var r := Rationale(u, a, alloc);
      r[|r| - 2] == GrowthPotential(55) && EquityShare(alloc) == 75
  {
  }
}
