/**
  The planner wrapped in a budget: every patch is stamped with tiers, and the run's
  remainder re-divided over the frontier the patch produces.
*/
module BudgetPlanner {
  import opened Wrappers
  import opened LiveGraph
  import opened RunOps
  import opened GraphStore
  import opened Planner
  import opened Tiers
  import opened Budget

  /** Tasks that may still spend: active ones the patch spares, then the ones it adds. */
  function FrontierOf(g: Snapshot, p: GraphPatch): seq<Id> {
    if p.finish then [] else Spared(g, p.cancel, g.ids) + Unlisted(AddIds(p), g)
  }

  function Spared(g: Snapshot, cancel: seq<Id>, ids: seq<Id>): seq<Id> {
    if ids == [] then []
    else
      var rest := Spared(g, cancel, ids[1..]);
      if ids[0] in g.nodes && Active(g.nodes[ids[0]].state) && ids[0] !in cancel then [ids[0]] + rest else rest
  }

  function Unlisted(added: seq<Id>, g: Snapshot): seq<Id> {
    if added == [] then []
    else if added[0] in g.nodes && Active(g.nodes[added[0]].state) then Unlisted(added[1..], g)
    else [added[0]] + Unlisted(added[1..], g)
  }

  lemma {:induction false} SparedMembers(g: Snapshot, cancel: seq<Id>, ids: seq<Id>)
    ensures forall n :: n in Spared(g, cancel, ids) <==>
              n in ids && n in g.nodes && Active(g.nodes[n].state) && n !in cancel
  {
    if ids != [] {
      SparedMembers(g, cancel, ids[1..]);
      assert ids == [ids[0]] + ids[1..];
    }
  }

  lemma {:induction false} UnlistedMembers(added: seq<Id>, g: Snapshot)
    requires forall n :: n in added ==> n !in g.nodes
    ensures forall n :: n in Unlisted(added, g) <==> n in added
  {
    if added != [] {
      assert added[0] in added && added == [added[0]] + added[1..];
      UnlistedMembers(added[1..], g);
    }
  }

  /** Money is set aside for exactly the tasks that are active once the patch has been applied. */
  lemma FrontierIsWhatMaySpend(lim: Limits, g: Snapshot, st: RunState, p: GraphPatch, trigger: int)
    requires SnapshotOf(g, st) && Acceptable(st.view, p) && Frontiered(lim, g, p)
    ensures
      var v := PatchedView(st.view, p, trigger);
      forall n :: n in FrontierOf(g, p) <==> n in v.nodes && Active(v.nodes[n].state)
  {
    SparedMembers(g, p.cancel, g.ids);
    UnlistedMembers(AddIds(p), g);
    forall n
      ensures
        var v := PatchedView(st.view, p, trigger);
        n in FrontierOf(g, p) <==> n in v.nodes && Active(v.nodes[n].state)
    {
      ActiveInPatched(st.view, p, trigger, n);
    }
  }

  lemma ActiveInPatched(v: View, p: GraphPatch, trigger: int, n: Id)
    requires p.wait == [] && p.resume == []
    ensures
      var v' := PatchedView(v, p, trigger);
      n in v'.nodes && Active(v'.nodes[n].state) <==>
      n in GrownIds(v, p) && !p.finish && Active(Before(v, p, n).state) && n !in p.cancel
  {
    if n in GrownIds(v, p) {
      ActiveAfter(p, n, Before(v, p, n).state);
    }
  }

  lemma ActiveAfter(p: GraphPatch, n: Id, s: NodeState)
    requires p.wait == [] && p.resume == []
    ensures Active(After(p, n, s)) <==> !p.finish && Active(s) && n !in p.cancel
  {
  }

  datatype Allocation = Allocation(trigger: int, frontier: seq<Id>, perNode: map<string, real>, remaining: real)

  class BudgetAwarePlanner {
    const inner: GeneralAgentPlanner
    const ladder: TierLadder
    const budget: RunBudget
    const reserveFraction: real
    var allocations: seq<Allocation>

    constructor (inner: GeneralAgentPlanner, ladder: TierLadder, budget: RunBudget, reserveFraction: real)
      ensures this.inner == inner && this.ladder == ladder && this.budget == budget
      ensures this.reserveFraction == reserveFraction && allocations == []
    {
      this.inner, this.ladder, this.budget, this.reserveFraction := inner, ladder, budget, reserveFraction;
      allocations := [];
    }

    /** The inner planner's patch, stamped, with the budget divided over exactly its frontier. */
    method Plan(g: Snapshot, node: Option<Id>, sequence: int) returns (r: Result<GraphPatch, ()>)
      requires Ladder(ladder) && budget.Valid()
      modifies this, inner, budget
      ensures budget.Valid() && budget.spent == old(budget.spent) && budget.charges == old(budget.charges)
      ensures r.Success? ==> Frontiered(inner.lim, g, r.value)
      ensures r.Success? ==>
                && budget.Now() == Allocated(old(budget.Now()), Elements(FrontierOf(g, r.value)), reserveFraction)
                && allocations == old(allocations) +
                   [Allocation(sequence, FrontierOf(g, r.value), budget.reservations, Remaining(budget.Now()))]
      ensures r.Failure? ==> budget.Now() == old(budget.Now()) && allocations == old(allocations)
    {
      var planned := inner.Plan(g, node, sequence);
      if planned.Failure? {
        return planned;
      }
      DeclaringKeepsTheGraph(ladder, planned.value);
      var patch := DeclareTiers(planned.value, ladder);
      var frontier := FrontierOf(g, patch);
      var allocation := budget.Allocate(frontier, Some(reserveFraction));
      allocations := allocations + [Allocation(sequence, frontier, allocation, Remaining(budget.Now()))];
      return Success(patch);
    }
  }
}
