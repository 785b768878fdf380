/**
  What it means for a run to have stopped, and why it must: a measure that every launch
  and outcome lowers and no planning patch raises.
*/
module Quiescence {
  import opened LiveGraph
  import opened RunOps
  import opened RunInvariants
  import opened Planner
  import Dag

  // -------------------------------------------------------- why pending work waits

  /** A task nothing local will move: it waits for the outside, or will never succeed. */
  predicate Blocks(s: NodeState) {
    s.Waiting? || s.Failed? || s.Cancelled?
  }

  /**
    A chain of dependencies down to `n`, pending all the way, from a task that blocks or
    is one of the strays: tasks left running with no one to run them.
  */
  ghost predicate BlockedBy(v: View, strays: set<Id>, w: seq<Id>, n: Id) {
    && Dag.Walk(v.nodes.Keys, v.edges, w) && |w| > 1 && w[|w| - 1] == n
    && (Blocks(v.nodes[w[0]].state) || w[0] in strays)
    && (forall i :: 0 < i < |w| ==> v.nodes[w[i]].state.Pending?)
  }

  /** With nothing ready and nobody at work, every pending task is blocked, reached through pending ones. */
  lemma {:induction false} PendingIsBlocked(v: View, strays: set<Id>, n: Id) returns (w: seq<Id>)
    requires Dag.IsDag(v.nodes.Keys, v.edges)
    requires forall m :: m in v.nodes ==> !IsReady(v, m)
    requires forall m :: m in v.nodes && v.nodes[m].state.Running? ==> m in strays
    requires n in v.nodes && v.nodes[n].state.Pending?
    ensures BlockedBy(v, strays, w, n)
    decreases Dag.Layer(v.nodes.Keys, v.edges, n)
  {
    var p :| p in v.nodes && (p, n) in v.edges && !v.nodes[p].state.Succeeded?;
    Dag.ParentsComeFirst(v.nodes.Keys, v.edges, p, n);
    if v.nodes[p].state.Pending? {
      var front := PendingIsBlocked(v, strays, p);
      w := front + [n];
      forall i {:trigger w[i]} | 0 <= i < |w| - 1
        ensures (w[i], w[i + 1]) in v.edges
      {
        if i + 1 < |front| {
          assert (front[i], front[i + 1]) in v.edges;
        }
      }
    } else {
      w := [p, n];
    }
  }

  /**
    A run at rest: no outcome is unplanned, the tasks still running are exactly the
    strays, and every pending task is blocked.  With no strays nothing runs, and only
    waiting, failed and cancelled tasks block.
  */
  ghost predicate Quiescent(st: RunState, strays: set<Id>) {
    && Unplanned(st.events, st.view.applied) == []
    && (forall n :: n in st.view.nodes ==> (st.view.nodes[n].state.Running? <==> n in strays))
    && (forall n :: n in st.view.nodes && st.view.nodes[n].state.Pending? ==>
          exists w :: BlockedBy(st.view, strays, w, n))
  }

  // ------------------------------------------------------------------ termination

  function Weight(s: NodeState): nat {
    match s
    case Pending => 3
    case Running => 1
    case _ => 0
  }

  ghost function Work(order: seq<Id>, nodes: map<Id, Status>): nat
    requires forall n :: n in order ==> n in nodes
  {
    if order == [] then 0
    else
      var last := order[|order| - 1];
      Work(order[..|order| - 1], nodes) + Weight(nodes[last].state)
  }

  lemma {:induction false} WorkFalls(order: seq<Id>, nodes: map<Id, Status>, nodes': map<Id, Status>)
    requires forall n :: n in order ==> n in nodes && n in nodes'
    requires forall n :: n in order ==> Weight(nodes'[n].state) <= Weight(nodes[n].state)
    ensures Work(order, nodes') <= Work(order, nodes)
  {
    if order != [] {
      WorkFalls(order[..|order| - 1], nodes, nodes');
      assert order[|order| - 1] in order;
    }
  }

  lemma {:induction false} WorkUpdate(order: seq<Id>, nodes: map<Id, Status>, n: Id, s: Status)
    requires Distinct(order) && forall m :: m in order ==> m in nodes
    ensures
      Work(order, nodes[n := s]) ==
      if n in order then Work(order, nodes) - Weight(nodes[n].state) + Weight(s.state) else Work(order, nodes)
    ensures n in order ==> Work(order, nodes) >= Weight(nodes[n].state)
  {
    if order != [] {
      var front, last := order[..|order| - 1], order[|order| - 1];
      assert order == front + [last];
      WorkUpdate(front, nodes, n, s);
      if last == n {
        assert n !in front;
      }
    }
  }

  lemma {:induction false} WorkAppend(order: seq<Id>, added: seq<Id>, nodes: map<Id, Status>)
    requires forall n :: n in order + added ==> n in nodes
    requires forall n :: n in added ==> Weight(nodes[n].state) <= 3
    ensures Work(order + added, nodes) <= Work(order, nodes) + 3 * |added|
  {
    if added == [] {
      assert order + added == order;
    } else {
      var front, last := added[..|added| - 1], added[|added| - 1];
      assert (order + added)[..|order + added| - 1] == order + front;
      assert last in added;
      WorkAppend(order, front, nodes);
    }
  }

  ghost function Cap(lim: Limits): nat {
    if lim.maxNodes < 0 then 0 else lim.maxNodes
  }

  /** How many tasks a run can come to hold: the limit, or what it holds if that is more already. */
  ghost function Roof(lim: Limits, st: RunState): nat {
    if |st.order| <= Cap(lim) then Cap(lim) else |st.order|
  }

  /** Tasks not yet born weigh more than pending ones, and those more than running ones with their coroutine. */
  ghost function Measure(lim: Limits, st: RunState, inFlight: set<Id>): int
    requires Shaped(st)
  {
    4 * (Roof(lim, st) - |st.order|) + Work(st.order, st.view.nodes) + |inFlight|
  }

  lemma ParkedLowers(st: RunState, n: Id, w: Wait)
    requires Shaped(st) && IsRunning(st, n)
    ensures Work(st.order, Parked(st, n, w).view.nodes) == Work(st.order, st.view.nodes) - 1
  {
    WorkUpdate(st.order, st.view.nodes, n, Parked(st, n, w).view.nodes[n]);
  }

  lemma ConcludedLowers(st: RunState, n: Id, success: bool, payload: Json)
    requires Shaped(st) && IsRunning(st, n)
    ensures Work(st.order, Concluded(st, n, success, payload).view.nodes) == Work(st.order, st.view.nodes) - 1
  {
    WorkUpdate(st.order, st.view.nodes, n, Concluded(st, n, success, payload).view.nodes[n]);
  }

  ghost predicate NoneTwice(ts: seq<TaskSpec>) {
    forall i, j :: 0 <= i < j < |ts| ==> ts[i].id != ts[j].id
  }

  ghost predicate AllPending(st: RunState, ts: seq<TaskSpec>) {
    && (forall t :: t in ts ==> t.id in st.view.nodes && st.view.nodes[t.id].state.Pending?)
    && NoneTwice(ts)
  }

  lemma LastIsNew(ts: seq<TaskSpec>)
    requires ts != [] && NoneTwice(ts)
    ensures
      var front, t := ts[..|ts| - 1], ts[|ts| - 1];
      t.id !in TaskIds(front) && TaskIds(ts) == TaskIds(front) + {t.id} && NoneTwice(front)
  {
    var front, t := ts[..|ts| - 1], ts[|ts| - 1];
    assert ts == front + [t];
    forall x | x in front
      ensures x.id != t.id
    {
      var i :| 0 <= i < |front| && front[i] == x;
      assert ts[i] == x;
    }
  }

  /** Launching distinct pending tasks marks each of them, and only them, running. */
  lemma {:induction false} MarkedLowers(st: RunState, ts: seq<TaskSpec>)
    requires Shaped(st) && AllPending(st, ts)
    ensures Work(st.order, Marked(st, ts).view.nodes) == Work(st.order, st.view.nodes) - 2 * |ts|
    ensures forall n :: n in st.view.nodes ==>
              Marked(st, ts).view.nodes[n] ==
              if n in TaskIds(ts) then st.view.nodes[n].(state := Running) else st.view.nodes[n]
  {
    if ts != [] {
      var front, t := ts[..|ts| - 1], ts[|ts| - 1];
      assert ts == front + [t] && t in ts;
      LastIsNew(ts);
      MarkedLowers(st, front);
      MarkedNodes(st, front);
      OneMarkedLowers(st.order, Marked(st, front), t);
    }
    MarkedNodes(st, ts);
  }

  lemma {:induction false} MarkedNodes(st: RunState, ts: seq<TaskSpec>)
    requires AllPending(st, ts)
    ensures forall n :: n in st.view.nodes ==>
              Marked(st, ts).view.nodes[n] ==
              if n in TaskIds(ts) then st.view.nodes[n].(state := Running) else st.view.nodes[n]
  {
    if ts != [] {
      var front, t := ts[..|ts| - 1], ts[|ts| - 1];
      assert ts == front + [t] && t in ts;
      LastIsNew(ts);
      MarkedNodes(st, front);
    }
  }

  lemma OneMarkedLowers(order: seq<Id>, mid: RunState, t: TaskSpec)
    requires Distinct(order) && (forall n :: n in order <==> n in mid.view.nodes)
    requires t.id in mid.view.nodes && mid.view.nodes[t.id].state.Pending?
    ensures Work(order, MarkedOne(mid, t).view.nodes) == Work(order, mid.view.nodes) - 2
    ensures MarkedOne(mid, t).view.nodes == mid.view.nodes[t.id := mid.view.nodes[t.id].(state := Running)]
  {
    WorkUpdate(order, mid.view.nodes, t.id, mid.view.nodes[t.id].(state := Running));
  }

  lemma PatchedWeights(v: View, p: GraphPatch, trigger: int, n: Id)
    requires p.wait == [] && p.resume == [] && n in GrownIds(v, p)
    ensures
      var after := PatchedView(v, p, trigger).nodes;
      && n in after
      && Weight(after[n].state) <= (if n in v.nodes then Weight(v.nodes[n].state) else 3)
  {
  }

  /** A patch pays for each task it adds with an unborn one, worth one more; the planner's resumes none. */
  lemma PatchedPays(st: RunState, p: GraphPatch, trigger: int)
    requires Shaped(st) && Acceptable(st.view, p) && p.wait == [] && p.resume == []
    ensures
      var st' := Patched(st, p, trigger);
      && Shaped(st') && |st'.order| == |st.order| + |p.add|
      && Work(st'.order, st'.view.nodes) <= Work(st.order, st.view.nodes) + 3 * |p.add|
  {
    PatchedShaped(st, p, trigger);
    WorkPatched(st.order, st.view, p, trigger);
  }

  lemma WorkPatched(order: seq<Id>, v: View, p: GraphPatch, trigger: int)
    requires forall n :: n in order ==> n in v.nodes
    requires p.wait == [] && p.resume == []
    ensures forall n :: n in order + AddIds(p) ==> n in PatchedView(v, p, trigger).nodes
    ensures Work(order + AddIds(p), PatchedView(v, p, trigger).nodes) <= Work(order, v.nodes) + 3 * |AddIds(p)|
  {
    var nodes' := PatchedView(v, p, trigger).nodes;
    assert nodes'.Keys == GrownIds(v, p);
    forall n | n in order
      ensures Weight(nodes'[n].state) <= Weight(v.nodes[n].state)
    {
      PatchedWeights(v, p, trigger, n);
    }
    WorkFalls(order, v.nodes, nodes');
    WorkAppend(order, AddIds(p), nodes');
  }

  // ------------------------------------------------------ outcomes awaiting a plan

  function Without(s: seq<int>, x: int): seq<int> {
    if s == [] then []
    else
      var rest := Without(s[..|s| - 1], x);
      if s[|s| - 1] == x then rest else rest + [s[|s| - 1]]
  }

  lemma {:induction false} UnplannedQuiet(es: seq<Event>, more: seq<Event>, applied: map<int, PatchRecord>)
    requires forall e :: e in more ==> !PlannerEvent(e)
    ensures Unplanned(es + more, applied) == Unplanned(es, applied)
    decreases |more|
  {
    if more == [] {
      assert es + more == es;
    } else {
      var front, last := more[..|more| - 1], more[|more| - 1];
      assert (es + more)[..|es + more| - 1] == es + front;
      assert (es + more)[|es + more| - 1] == last && last in more;
      UnplannedQuiet(es, front, applied);
    }
  }

  lemma UnplannedOutcome(es: seq<Event>, e: Event, applied: map<int, PatchRecord>)
    requires PlannerEvent(e) && |es| + 1 !in applied
    ensures Unplanned(es + [e], applied) == Unplanned(es, applied) + [|es| + 1]
  {
    assert (es + [e])[..|es|] == es;
  }

  lemma {:induction false} UnplannedApplied(es: seq<Event>, applied: map<int, PatchRecord>, t: int, r: PatchRecord)
    ensures Unplanned(es, applied[t := r]) == Without(Unplanned(es, applied), t)
    decreases |es|
  {
    if es != [] {
      var front := es[..|es| - 1];
      UnplannedApplied(front, applied, t, r);
      var rest := Unplanned(front, applied);
      if PlannerEvent(es[|es| - 1]) && |es| !in applied {
        assert (rest + [|es|])[..|rest|] == rest;
      }
    }
  }

  /** The planner's patch for a trigger answers that trigger and raises no other. */
  lemma UnplannedPatched(st: RunState, p: GraphPatch, trigger: int)
    requires Shaped(st) && Acceptable(st.view, p)
    ensures
      var st' := Patched(st, p, trigger);
      Unplanned(st'.events, st'.view.applied) == Without(Unplanned(st.events, st.view.applied), trigger)
  {
    PatchedQuiet(st, p);
    var more := Cancellations(st, p) + [GraphPatched(RecordOf(p, trigger))];
    assert forall e :: e in more ==> !PlannerEvent(e);
    var applied' := st.view.applied[trigger := RecordOf(p, trigger)];
    UnplannedQuiet(st.events, more, applied');
    UnplannedApplied(st.events, st.view.applied, trigger, RecordOf(p, trigger));
  }

  lemma {:induction false} UnplannedBounds(es: seq<Event>, applied: map<int, PatchRecord>)
    ensures forall t :: t in Unplanned(es, applied) ==> 1 <= t <= |es| && PlannerEvent(es[t - 1]) && t !in applied
    ensures forall i, j :: 0 <= i < j < |Unplanned(es, applied)| ==> Unplanned(es, applied)[i] < Unplanned(es, applied)[j]
    decreases |es|
  {
    if es != [] {
      UnplannedBounds(es[..|es| - 1], applied);
      var rest := Unplanned(es[..|es| - 1], applied);
      assert forall i :: 0 <= i < |rest| ==> rest[i] in rest;
    }
  }

  lemma {:induction false} WithoutFirst(s: seq<int>)
    requires s != [] && forall i, j :: 0 <= i < j < |s| ==> s[i] < s[j]
    ensures Without(s, s[0]) == s[1..]
    decreases |s|
  {
    if |s| > 1 {
      var front := s[..|s| - 1];
      WithoutFirst(front);
      assert s[1..] == front[1..] + [s[|s| - 1]];
    }
  }
}
