/**
  The walk down the ladder that answers a call: which rung it gets, or none, given a
  reading of the ledger.  What a rung costs is a parameter, so the results hold for every
  price table and every estimate.
*/
module Policy {
  import opened Wrappers
  import opened Tiers
  import opened Budget

  datatype Thresholds = Thresholds(
    downgradeAt: real, refuseAt: real, headroomFraction: real, maxCallsPerRun: int, maxCallsPerNode: int,
    charsPerToken: real, inputSafety: real)

  datatype Action = Proceed | Downgraded | Branch | Refuse

  datatype Decision = Decision(
    action: Action, node: string, requested: string, tier: Option<Tier>, projected: real, allowance: real,
    remaining: real, pressure: real, steps: int)

  /** A decision, or the error a negative projection raises on the way to one. */
  datatype Verdict = NegativeProjection | Decided(decision: Decision)

  function Headroom(th: Thresholds, b: Ledger): real {
    b.total * th.headroomFraction
  }

  predicate RunCeiling(th: Thresholds, b: Ledger) {
    th.maxCallsPerRun != 0 && |b.charges| >= th.maxCallsPerRun
  }

  predicate NodeCeiling(th: Thresholds, b: Ledger, node: string) {
    th.maxCallsPerNode != 0 && NodeCalls(b, node) >= th.maxCallsPerNode
  }

  /** Everything a decision reads off the budget. */
  datatype Gauge = Gauge(
    closed: bool, squeezed: bool, remaining: real, allowance: real, headroom: real, pressure: real)

  function Read(th: Thresholds, b: Ledger, node: string): Gauge {
    Gauge(RunCeiling(th, b) || NodeCeiling(th, b, node) || Pressure(b) >= th.refuseAt,
      Pressure(b) >= th.downgradeAt, Remaining(b), Allowance(b, node), Headroom(th, b), Pressure(b))
  }

  /** Both bounds at once; `None` is the error a negative projection raises. */
  function Admits(g: Gauge, projected: real): Option<bool> {
    if projected < 0.0 then None
    else if projected > g.remaining - g.headroom then Some(false)
    else Some(projected <= g.allowance)
  }

  /** The gauge's admission check is the budget's own. */
  lemma AdmitsIsCanAdmit(th: Thresholds, b: Ledger, node: string, projected: real)
    ensures Admits(Read(th, b, node), projected) == CanAdmit(b, node, projected, Headroom(th, b))
  {
  }

  /** Where the ladder walk begins: a rung down under pressure, if there is one. */
  function Start(l: TierLadder, g: Gauge, requested: Tier): (t: Tier)
    requires Ladder(l) && On(l, requested)
    ensures On(l, t) && t.rank <= requested.rank
  {
    if g.squeezed then
      if requested.rank > 0 then Rung(l, requested.rank - 1) else Rung(l, 0)
    else requested
  }

  function Candidates(l: TierLadder, start: Tier): (ts: seq<Tier>)
    requires Ladder(l) && On(l, start)
    ensures |ts| == start.rank + 1
    ensures forall i :: 0 <= i < |ts| ==> ts[i] == Rung(l, start.rank - i)
  {
    [start] + CheaperThan(l, start)
  }

  datatype Walk = Raises | NoFit | Fits(index: nat)

  /** The first candidate the budget admits. */
  function FirstFit(ts: seq<Tier>, cost: Tier -> real, g: Gauge): (w: Walk)
    ensures w.Fits? ==> w.index < |ts|
  {
    if ts == [] then NoFit
    else
      match FirstFit(ts[..|ts| - 1], cost, g)
      case NoFit =>
        var fits := Admits(g, cost(ts[|ts| - 1]));
        if fits.None? then Raises else if fits.value then Fits(|ts| - 1) else NoFit
      case w => w
  }

  function Refusal(g: Gauge, node: string, requested: Tier, projected: real): Verdict {
    Decided(Decision(Refuse, node, requested.name, None, projected, g.allowance, g.remaining, g.pressure, 0))
  }

  function Admission(g: Gauge, action: Action, node: string, requested: Tier, tier: Tier, projected: real): Verdict {
    Decided(Decision(action, node, requested.name, Some(tier), projected, g.allowance, g.remaining, g.pressure,
      if action.Proceed? then 0 else requested.rank - tier.rank))
  }

  function Judged(l: TierLadder, cost: Tier -> real, g: Gauge, node: string, requested: Tier): Verdict
    requires Ladder(l) && On(l, requested)
  {
    if g.closed then Refusal(g, node, requested, cost(requested))
    else
      var candidates := Candidates(l, Start(l, g, requested));
      match FirstFit(candidates, cost, g)
      case Raises => NegativeProjection
      case Fits(i) =>
        var tier := candidates[i];
        var action := if requested.rank <= tier.rank then Proceed else Downgraded;
        Admission(g, action, node, requested, tier, cost(tier))
      case NoFit =>
        var cheapest := Rung(l, 0);
        if cost(cheapest) <= g.remaining - g.headroom then
          Admission(g, Branch, node, requested, cheapest, cost(cheapest))
        else Refusal(g, node, requested, cost(cheapest))
  }

  function Decide(l: TierLadder, th: Thresholds, cost: Tier -> real, b: Ledger, node: string, requested: Tier): Verdict
    requires Ladder(l) && On(l, requested)
  {
    Judged(l, cost, Read(th, b, node), node, requested)
  }

  /** The decision as it is computed: ceilings and pressure, then a walk that stops at the first fit. */
  method Judge(l: TierLadder, cost: Tier -> real, g: Gauge, node: string, requested: Tier) returns (v: Verdict)
    requires Ladder(l) && On(l, requested)
    ensures v == Judged(l, cost, g, node, requested)
  {
    if g.closed {
      return Refusal(g, node, requested, cost(requested));
    }
    var start := requested;
    if g.squeezed {
      var lower := Downgrade(l, requested);
      start := if lower.Some? then lower.value else Rung(l, 0);
    }
    var candidates := [start] + CheaperThan(l, start);
    var walk := Walks(candidates, cost, g);
    match walk {
      case Raises =>
        return NegativeProjection;
      case Fits(i) =>
        var tier := candidates[i];
        var action := if requested.rank - tier.rank <= 0 then Proceed else Downgraded;
        return Admission(g, action, node, requested, tier, cost(tier));
      case NoFit =>
        var cheapest := Rung(l, 0);
        if cost(cheapest) <= g.remaining - g.headroom {
          return Admission(g, Branch, node, requested, cheapest, cost(cheapest));
        }
        return Refusal(g, node, requested, cost(cheapest));
    }
  }

  /** Down the candidates, stopping at the first that fits. */
  method Walks(candidates: seq<Tier>, cost: Tier -> real, g: Gauge) returns (walk: Walk)
    ensures walk == FirstFit(candidates, cost, g)
  {
    var i := 0;
    while i < |candidates|
      invariant i <= |candidates|
      invariant FirstFit(candidates[..i], cost, g) == NoFit
    {
      FirstFitStops(candidates, cost, g, i + 1);
      assert candidates[..i + 1][..i] == candidates[..i];
      var fits := Admits(g, cost(candidates[i]));
      if fits.None? {
        return Raises;
      }
      if fits.value {
        return Fits(i);
      }
      i := i + 1;
    }
    assert candidates[..i] == candidates;
    return NoFit;
  }

  lemma {:induction false} FirstFitStops(ts: seq<Tier>, cost: Tier -> real, g: Gauge, k: nat)
    requires k <= |ts|
    ensures FirstFit(ts[..k], cost, g) != NoFit ==> FirstFit(ts, cost, g) == FirstFit(ts[..k], cost, g)
    decreases |ts|
  {
    if k == |ts| {
      assert ts[..k] == ts;
    } else {
      assert ts[..|ts| - 1][..k] == ts[..k];
      FirstFitStops(ts[..|ts| - 1], cost, g, k);
    }
  }

  // ---------------------------------------------------------- what it decides on

  predicate Affordable(g: Gauge, projected: real) {
    projected <= g.remaining - g.headroom && projected <= g.allowance
  }

  ghost predicate CostsNonNegative(l: TierLadder, cost: Tier -> real)
    requires Ladder(l)
  {
    forall i :: 0 <= i < |l.order| ==> cost(Rung(l, i)) >= 0.0
  }

  ghost predicate RungFits(l: TierLadder, cost: Tier -> real, g: Gauge, i: int)
    requires Ladder(l)
  {
    0 <= i < |l.order| && Affordable(g, cost(Rung(l, i)))
  }

  lemma {:induction false} FirstFitIsFirst(ts: seq<Tier>, cost: Tier -> real, g: Gauge)
    requires forall i :: 0 <= i < |ts| ==> cost(ts[i]) >= 0.0
    ensures
      match FirstFit(ts, cost, g)
      case Raises => false
      case NoFit => forall i :: 0 <= i < |ts| ==> !Affordable(g, cost(ts[i]))
      case Fits(k) => Affordable(g, cost(ts[k])) && forall i :: 0 <= i < k ==> !Affordable(g, cost(ts[i]))
    decreases |ts|
  {
    if ts != [] {
      FirstFitIsFirst(ts[..|ts| - 1], cost, g);
    }
  }

  /** The best rung a walk from `start` can take, or none. */
  ghost predicate BestFit(l: TierLadder, cost: Tier -> real, g: Gauge, start: nat, best: int)
    requires Ladder(l)
  {
    && -1 <= best <= start
    && (best >= 0 ==> RungFits(l, cost, g, best))
    && (forall i :: best < i <= start ==> !RungFits(l, cost, g, i))
  }

  lemma WalkFindsBest(l: TierLadder, cost: Tier -> real, g: Gauge, start: Tier)
    requires Ladder(l) && On(l, start) && CostsNonNegative(l, cost)
    ensures
      match FirstFit(Candidates(l, start), cost, g)
      case Raises => false
      case NoFit => BestFit(l, cost, g, start.rank, -1)
      case Fits(k) => BestFit(l, cost, g, start.rank, start.rank - k)
  {
    var ts := Candidates(l, start);
    FirstFitIsFirst(ts, cost, g);
    forall i | 0 <= i <= start.rank
      ensures Rung(l, i) == ts[start.rank - i]
    {
    }
  }

  /**
    A decision, given the most capable rung that fits at or below the starting one
    (-1 for none): admitted at that rung, as asked or downgraded; failing any, a branch
    to the cheapest rung when that fits the run, and otherwise a refusal.
  */
  ghost predicate Says(l: TierLadder, cost: Tier -> real, g: Gauge, requested: Tier, best: int, d: Decision)
    requires Ladder(l) && On(l, requested) && best < |l.order|
  {
    && d.requested == requested.name
    && (d.action.Refuse? <==> g.closed || (best < 0 && cost(Rung(l, 0)) > g.remaining - g.headroom))
    && (d.action.Branch? <==> !g.closed && best < 0 && cost(Rung(l, 0)) <= g.remaining - g.headroom)
    && (d.action.Proceed? <==> !g.closed && best >= requested.rank)
    && (d.action.Downgraded? <==> !g.closed && 0 <= best < requested.rank)
    && d.tier == (if d.action.Refuse? then None else if d.action.Branch? then Some(Rung(l, 0)) else Some(Rung(l, best)))
    && (d.tier.Some? ==> d.projected == cost(d.tier.value) && d.steps == requested.rank - d.tier.value.rank)
  }

  /** What the decision says when the walk stopped at the rung `best`, or at none (-1). */
  lemma JudgedAt(l: TierLadder, cost: Tier -> real, g: Gauge, node: string, requested: Tier, best: int)
    requires Ladder(l) && On(l, requested) && -1 <= best <= Start(l, g, requested).rank
    requires
      FirstFit(Candidates(l, Start(l, g, requested)), cost, g) ==
      if best < 0 then NoFit else Fits(Start(l, g, requested).rank - best)
    ensures Judged(l, cost, g, node, requested).Decided?
    ensures Says(l, cost, g, requested, best, Judged(l, cost, g, node, requested).decision)
    ensures Judged(l, cost, g, node, requested).decision.node == node
  {
  }

  /**
    Short of the ceilings, the decision is the most capable rung at or below the
    starting one that fits both bounds; failing any, a branch exactly when the cheapest
    rung fits the run, and otherwise a refusal.
  */
  lemma MostCapableThatFits(l: TierLadder, cost: Tier -> real, g: Gauge, node: string, requested: Tier) returns (best: int)
    requires Ladder(l) && On(l, requested) && CostsNonNegative(l, cost)
    ensures BestFit(l, cost, g, Start(l, g, requested).rank, best)
    ensures Judged(l, cost, g, node, requested).Decided?
    ensures Says(l, cost, g, requested, best, Judged(l, cost, g, node, requested).decision)
    ensures Judged(l, cost, g, node, requested).decision.node == node
  {
    var start := Start(l, g, requested);
    WalkFindsBest(l, cost, g, start);
    match FirstFit(Candidates(l, start), cost, g)
    case NoFit => best := -1;
    case Fits(k) => best := start.rank - k;
    JudgedAt(l, cost, g, node, requested, best);
  }

  // -------------------------------------------------------------- monotonicity

  /** The same budget with no more spent. */
  ghost predicate Richer(b: Ledger, b': Ledger) {
    && b'.total == b.total && b'.spent <= b.spent
    && b'.reservations == b.reservations && |b'.charges| == |b.charges| && b'.callsByNode == b.callsByNode
  }

  /** A gauge that closes and squeezes no sooner and admits no less. */
  ghost predicate Looser(g: Gauge, g': Gauge) {
    && (g'.closed ==> g.closed) && (g'.squeezed ==> g.squeezed)
    && g'.headroom == g.headroom && g.remaining <= g'.remaining && g.allowance <= g'.allowance
  }

  lemma RicherIsLooser(th: Thresholds, b: Ledger, b': Ledger, node: string)
    requires Richer(b, b')
    ensures Looser(Read(th, b, node), Read(th, b', node))
  {
    if b.total > 0.0 {
      QuotientGrows(b'.spent, b.spent, b.total);
    }
  }

  lemma QuotientGrows(a: real, b: real, k: real)
    requires a <= b && k > 0.0
    ensures a / k <= b / k
  {
  }

  /** How capable a verdict's tier is; below every rung when it refuses. */
  function Capability(v: Verdict): int {
    if v.Decided? && v.decision.tier.Some? then v.decision.tier.value.rank else -1
  }

  lemma JudgedIsMonotone(l: TierLadder, cost: Tier -> real, g: Gauge, g': Gauge, node: string, requested: Tier)
    requires Ladder(l) && On(l, requested) && CostsNonNegative(l, cost) && Looser(g, g')
    ensures Capability(Judged(l, cost, g, node, requested)) <= Capability(Judged(l, cost, g', node, requested))
  {
    var best := MostCapableThatFits(l, cost, g, node, requested);
    var best' := MostCapableThatFits(l, cost, g', node, requested);
    assert best >= 0 ==> RungFits(l, cost, g', best);
    assert Start(l, g, requested).rank <= Start(l, g', requested).rank;
  }

  /** Spending less never costs a node capability, and never turns its admission into a refusal. */
  lemma DecideIsMonotone(
    l: TierLadder, th: Thresholds, cost: Tier -> real, b: Ledger, b': Ledger, node: string, requested: Tier)
    requires Ladder(l) && On(l, requested) && CostsNonNegative(l, cost) && Richer(b, b')
    ensures Capability(Decide(l, th, cost, b, node, requested)) <= Capability(Decide(l, th, cost, b', node, requested))
  {
    RicherIsLooser(th, b, b', node);
    JudgedIsMonotone(l, cost, Read(th, b, node), Read(th, b', node), node, requested);
  }

  // ------------------------------------------------------------------- branching

  predicate Branches(v: Verdict) {
    v.Decided? && v.decision.action.Branch?
  }

  /** What the gateway does with a branch: drop the node's slice and decide again. */
  function Rebased(l: TierLadder, th: Thresholds, cost: Tier -> real, b: Ledger, node: string, requested: Tier): Verdict
    requires Ladder(l) && On(l, requested)
  {
    var v := Decide(l, th, cost, b, node, requested);
    if !Branches(v) then v
    else
      var again := Decide(l, th, cost, Released(b, node), node, requested);
      if again.NegativeProjection? || again.decision.action.Refuse? then again
      else Decided(again.decision.(action := Branch))
  }

  /** Dropping a slice frees the whole remainder and changes nothing else that is read. */
  lemma ReleaseFrees(th: Thresholds, b: Ledger, node: string)
    ensures Read(th, Released(b, node), node) == Read(th, b, node).(allowance := Remaining(b))
  {
  }

  /** A gauge read after the node's slice has been dropped. */
  ghost predicate Frees(g: Gauge, free: Gauge) {
    free == g.(allowance := g.remaining) && g.headroom >= 0.0
  }

  lemma FreedAdmits(l: TierLadder, cost: Tier -> real, g: Gauge, free: Gauge, node: string, requested: Tier)
    requires Ladder(l) && On(l, requested) && CostsNonNegative(l, cost) && Frees(g, free)
    requires Branches(Judged(l, cost, g, node, requested))
    ensures
      var again := Judged(l, cost, free, node, requested);
      again.Decided? && (again.decision.action.Proceed? || again.decision.action.Downgraded?)
    ensures Capability(Judged(l, cost, free, node, requested)) >= 0
  {
    var best := MostCapableThatFits(l, cost, g, node, requested);
    var best' := MostCapableThatFits(l, cost, free, node, requested);
    assert RungFits(l, cost, free, 0);
  }

  /** A branch that drops its slice is always admitted, and never branches or refuses a second time. */
  lemma BranchAlwaysAdmits(l: TierLadder, th: Thresholds, cost: Tier -> real, b: Ledger, node: string, requested: Tier)
    requires Ladder(l) && On(l, requested) && CostsNonNegative(l, cost) && Headroom(th, b) >= 0.0
    requires Branches(Decide(l, th, cost, b, node, requested))
    ensures
      var again := Decide(l, th, cost, Released(b, node), node, requested);
      again.Decided? && (again.decision.action.Proceed? || again.decision.action.Downgraded?)
  {
    ReleaseFrees(th, b, node);
    FreedAdmits(l, cost, Read(th, b, node), Read(th, Released(b, node), node), node, requested);
  }

  /** How capable the decision is that stands: the first, or on a branch the second. */
  ghost function Standing(l: TierLadder, cost: Tier -> real, g: Gauge, free: Gauge, node: string, requested: Tier): int
    requires Ladder(l) && On(l, requested)
  {
    var v := Judged(l, cost, g, node, requested);
    if Branches(v) then Capability(Judged(l, cost, free, node, requested)) else Capability(v)
  }

  lemma RebasedStands(l: TierLadder, th: Thresholds, cost: Tier -> real, b: Ledger, node: string, requested: Tier)
    requires Ladder(l) && On(l, requested) && CostsNonNegative(l, cost) && Headroom(th, b) >= 0.0
    ensures Capability(Rebased(l, th, cost, b, node, requested)) ==
            Standing(l, cost, Read(th, b, node), Read(th, Released(b, node), node), node, requested)
  {
    if Branches(Decide(l, th, cost, b, node, requested)) {
      BranchAlwaysAdmits(l, th, cost, b, node, requested);
    }
  }

  /** The slice of a node is its own, however much others have spent, where it cannot hold the cheapest rung. */
  ghost predicate SameSlice(g: Gauge, g': Gauge, cheapest: real) {
    g.allowance < cheapest <= g.remaining - g.headroom ==> g'.allowance == g.allowance
  }

  /** A branch can only come from a slice too small for the cheapest rung, so less spending leaves it as it is. */
  lemma SliceTooSmall(th: Thresholds, b: Ledger, b': Ledger, node: string, cheapest: real)
    requires Richer(b, b') && Headroom(th, b) >= 0.0 && cheapest >= 0.0
    ensures SameSlice(Read(th, b, node), Read(th, b', node), cheapest)
  {
  }

  lemma SliceFitWasThere(l: TierLadder, cost: Tier -> real, g: Gauge, g': Gauge, start: nat, best': int)
    requires Ladder(l) && start < |l.order|
    requires BestFit(l, cost, g, start, -1) && RungFits(l, cost, g', best')
    requires g'.allowance == g.allowance < cost(Rung(l, 0)) <= g.remaining - g.headroom
    ensures best' > start
  {
    if best' <= start {
      assert RungFits(l, cost, g, best');
    }
  }

  /** The hard case: the poorer budget branches, the richer one fits a rung into the slice. */
  lemma BranchBelowFit(
    l: TierLadder, cost: Tier -> real, g: Gauge, free: Gauge, g': Gauge, node: string, requested: Tier)
    requires Ladder(l) && On(l, requested) && CostsNonNegative(l, cost) && Looser(g, g') && Frees(g, free)
    requires SameSlice(g, g', cost(Rung(l, 0)))
    requires Branches(Judged(l, cost, g, node, requested)) && !Branches(Judged(l, cost, g', node, requested))
    ensures Capability(Judged(l, cost, free, node, requested)) <= Capability(Judged(l, cost, g', node, requested))
  {
    var best := MostCapableThatFits(l, cost, g, node, requested);
    var best' := MostCapableThatFits(l, cost, g', node, requested);
    var freeBest := MostCapableThatFits(l, cost, free, node, requested);
    assert !RungFits(l, cost, g, 0);
    SliceFitWasThere(l, cost, g, g', Start(l, g, requested).rank, best');
  }

  /** Where the richer budget branches, the poorer one does too, or it refuses. */
  lemma BranchOrRefusal(l: TierLadder, cost: Tier -> real, g: Gauge, g': Gauge, node: string, requested: Tier)
    requires Ladder(l) && On(l, requested) && CostsNonNegative(l, cost) && Looser(g, g')
    requires Branches(Judged(l, cost, g', node, requested))
    ensures Branches(Judged(l, cost, g, node, requested)) || Capability(Judged(l, cost, g, node, requested)) == -1
  {
    var best := MostCapableThatFits(l, cost, g, node, requested);
    var best' := MostCapableThatFits(l, cost, g', node, requested);
    assert best >= 0 ==> RungFits(l, cost, g', best);
  }

  lemma BothFreed(
    l: TierLadder, cost: Tier -> real, g: Gauge, free: Gauge, g': Gauge, free': Gauge, node: string, requested: Tier)
    requires Ladder(l) && On(l, requested) && CostsNonNegative(l, cost)
    requires Looser(g, g') && Frees(g, free) && Frees(g', free')
    requires Branches(Judged(l, cost, g', node, requested))
    ensures Standing(l, cost, g, free, node, requested) <= Capability(Judged(l, cost, free', node, requested))
  {
    BranchOrRefusal(l, cost, g, g', node, requested);
    FreedAdmits(l, cost, g', free', node, requested);
    JudgedIsMonotone(l, cost, free, free', node, requested);
  }

  lemma StandingIsMonotone(
    l: TierLadder, cost: Tier -> real, g: Gauge, free: Gauge, g': Gauge, free': Gauge, node: string, requested: Tier)
    requires Ladder(l) && On(l, requested) && CostsNonNegative(l, cost)
    requires Looser(g, g') && Frees(g, free) && Frees(g', free') && SameSlice(g, g', cost(Rung(l, 0)))
    ensures Standing(l, cost, g, free, node, requested) <= Standing(l, cost, g', free', node, requested)
  {
    if Branches(Judged(l, cost, g', node, requested)) {
      BothFreed(l, cost, g, free, g', free', node, requested);
    } else if Branches(Judged(l, cost, g, node, requested)) {
      BranchBelowFit(l, cost, g, free, g', node, requested);
    } else {
      JudgedIsMonotone(l, cost, g, g', node, requested);
    }
  }

  /**
    Rebasing keeps the decision monotone: where only the poorer budget branches, the
    richer one fits its rung into the same slice only because it may start higher.
  */
  lemma RebasedIsMonotone(
    l: TierLadder, th: Thresholds, cost: Tier -> real, b: Ledger, b': Ledger, node: string, requested: Tier)
    requires Ladder(l) && On(l, requested) && CostsNonNegative(l, cost) && Richer(b, b') && Headroom(th, b) >= 0.0
    ensures Capability(Rebased(l, th, cost, b, node, requested)) <= Capability(Rebased(l, th, cost, b', node, requested))
  {
    HeadroomStays(th, b, b');
    RebasedStands(l, th, cost, b, node, requested);
    RebasedStands(l, th, cost, b', node, requested);
    GaugesStand(l, th, cost, b, b', node, requested);
  }

  lemma HeadroomStays(th: Thresholds, b: Ledger, b': Ledger)
    requires Richer(b, b')
    ensures Headroom(th, b') == Headroom(th, b)
  {
  }

  lemma GaugesStand(
    l: TierLadder, th: Thresholds, cost: Tier -> real, b: Ledger, b': Ledger, node: string, requested: Tier)
    requires Ladder(l) && On(l, requested) && CostsNonNegative(l, cost) && Richer(b, b') && Headroom(th, b) >= 0.0
    ensures
      Standing(l, cost, Read(th, b, node), Read(th, Released(b, node), node), node, requested) <=
      Standing(l, cost, Read(th, b', node), Read(th, Released(b', node), node), node, requested)
  {
    var g, free, g', free' := GaugesOf(th, b, b', node, cost(Rung(l, 0)));
    StandingIsMonotone(l, cost, g, free, g', free', node, requested);
  }

  lemma GaugesOf(th: Thresholds, b: Ledger, b': Ledger, node: string, cheapest: real)
    returns (g: Gauge, free: Gauge, g': Gauge, free': Gauge)
    requires Richer(b, b') && Headroom(th, b) >= 0.0 && cheapest >= 0.0
    ensures g == Read(th, b, node) && free == Read(th, Released(b, node), node)
    ensures g' == Read(th, b', node) && free' == Read(th, Released(b', node), node)
    ensures Looser(g, g') && Frees(g, free) && Frees(g', free') && SameSlice(g, g', cheapest)
  {
    g, free := Read(th, b, node), Read(th, Released(b, node), node);
    g', free' := Read(th, b', node), Read(th, Released(b', node), node);
    RicherIsLooser(th, b, b', node);
    ReleaseFrees(th, b, node);
    ReleaseFrees(th, b', node);
    SliceTooSmall(th, b, b', node, cheapest);
  }
}
