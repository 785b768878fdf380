/**
  The executor: it launches ready tasks up to a worker bound, journals whatever ends
  first, and has every outcome planned before it launches more.

  Which workers end, how, and in what company is left open, as is every reply of the
  model; the process may die between any two store operations.
*/
module Executor {
  import opened Wrappers
  import opened LiveGraph
  import opened RunOps
  import opened RunInvariants
  import opened RunHistory
  import opened GraphStore
  import opened Planner
  import opened Quiescence
  import opened Flight
  import opened StringOrder
  import opened Tiers
  import Dag

  // ------------------------------------------------------------- what a run keeps

  /** The durable side of a run's life, whatever limits it has been planned under. */
  ghost predicate Managed(st: RunState) {
    DependencySafe(st) && Answering(st)
  }

  /** What no later step takes back, nor outgrows. */
  ghost predicate Grows(lim: Limits, st: RunState, st': RunState) {
    Preserves(st, st') && Roof(lim, st') == Roof(lim, st)
  }

  lemma GrowsItself(lim: Limits, st: RunState)
    ensures Grows(lim, st, st)
  {
    PreservesItself(st);
  }

  lemma GrowsTransitive(lim: Limits, a: RunState, b: RunState, c: RunState)
    requires Grows(lim, a, b) && Grows(lim, b, c)
    ensures Grows(lim, a, c)
  {
    PreservesTransitive(a, b, c);
  }

  ghost predicate AllPlanned(st: RunState) {
    st.view.finished || Unplanned(st.events, st.view.applied) == []
  }

  // -------------------------------------------------------------------- the steps

  lemma ReadyArePending(st: RunState, limit: int, ts: seq<TaskSpec>)
    requires Shaped(st) && ReadyTasks(st, limit, ts)
    ensures AllPending(st, ts) && Launchable(st, ts)
    ensures limit > 0 && ts == [] ==> forall n :: n in st.view.nodes ==> !IsReady(st.view, n)
    ensures |TaskIds(ts)| == |ts|
  {
    forall i, j | 0 <= i < j < |ts|
      ensures ts[i].id != ts[j].id
    {
      LessStrict(ts[i].id, ts[j].id);
    }
    TaskIdsSize(ts);
  }

  lemma {:induction false} TaskIdsSize(ts: seq<TaskSpec>)
    requires NoneTwice(ts)
    ensures |TaskIds(ts)| == |ts|
  {
    if ts != [] {
      LastIsNew(ts);
      TaskIdsSize(ts[..|ts| - 1]);
    }
  }

  lemma LaunchLowers(lim: Limits, st: RunState, ts: seq<TaskSpec>, inFlight: set<Id>)
    requires Shaped(st) && AllPending(st, ts) && |TaskIds(ts)| == |ts| && TaskIds(ts) !! inFlight && ts != []
    ensures Shaped(Marked(st, ts)) && inFlight + TaskIds(ts) != {}
    ensures |inFlight + TaskIds(ts)| == |inFlight| + |ts|
    ensures Measure(lim, Marked(st, ts), inFlight + TaskIds(ts)) < Measure(lim, st, inFlight)
  {
    MarkedLowers(st, ts);
    MarkedLaunched(st, ts);
    assert ts[0] in ts && ts[0].id in TaskIds(ts);
  }

  lemma LaunchManages(lim: Limits, st: RunState, ts: seq<TaskSpec>)
    requires Sound(st) && Managed(st) && Launchable(st, ts) && AllPlanned(st)
    ensures Managed(Marked(st, ts)) && Grows(lim, st, Marked(st, ts)) && AllPlanned(Marked(st, ts))
  {
    MarkedKeeps(st, ts);
    MarkedLaunched(st, ts);
    assert Step(st, Launch(ts)) == Marked(st, ts);
    StepPreserves(st, Launch(ts));
    MarkedAppends(st, ts);
  }

  lemma {:induction false} MarkedAppends(st: RunState, ts: seq<TaskSpec>)
    requires forall t :: t in ts ==> t.id in st.view.nodes
    ensures Unplanned(Marked(st, ts).events, st.view.applied) == Unplanned(st.events, st.view.applied)
    ensures Marked(st, ts).view.applied == st.view.applied && Marked(st, ts).view.finished == st.view.finished
  {
    if ts != [] {
      var front, t := ts[..|ts| - 1], ts[|ts| - 1];
      MarkedAppends(st, front);
      UnplannedQuiet(Marked(st, front).events, [TaskStarted(t.id, t.skill, AgentOf(t))], st.view.applied);
    }
  }

  lemma ParkManages(lim: Limits, st: RunState, n: Id, w: Wait)
    requires Sound(st) && Managed(st) && IsRunning(st, n) && AllPlanned(st)
    ensures Managed(Parked(st, n, w)) && Grows(lim, st, Parked(st, n, w)) && AllPlanned(Parked(st, n, w))
  {
    ParkedKeeps(st, n, w);
    ParkPreserves(st, n, w);
    UnplannedQuiet(st.events, [TaskWaiting(n, w)], st.view.applied);
  }

  /** An outcome leaves exactly one event to plan, its own. */
  lemma ConcludeManages(lim: Limits, st: RunState, n: Id, success: bool, payload: Json)
    requires Sound(st) && Managed(st) && IsRunning(st, n) && AllPlanned(st)
    ensures
      var st' := Concluded(st, n, success, payload);
      && Managed(st') && Grows(lim, st, st')
      && Answers(st'.events, |st'.events|) && |st'.events| !in st'.view.applied
      && (st'.view.finished || Unplanned(st'.events, st'.view.applied) == [|st'.events|])
  {
    var st' := Concluded(st, n, success, payload);
    ConcludedKeeps(st, n, success, payload);
    ConcludePreserves(st, n, success, payload);
    assert forall t :: t in st.view.applied ==> Answers(st.events, t);
    UnplannedOutcome(st.events, st'.events[|st.events|], st.view.applied);
  }

  lemma PatchManages(lim: Limits, g: Snapshot, st: RunState, p: GraphPatch, trigger: int)
    requires Sound(st) && Managed(st) && !st.view.finished
    requires SnapshotOf(g, st) && Frontiered(lim, g, p)
    requires Answers(st.events, trigger) && trigger !in st.view.applied
    ensures Acceptable(st.view, p)
    ensures
      var st' := Patched(st, p, trigger);
      && Managed(st') && Grows(lim, st, st') && SparesRunning(st.view, p)
      && Unplanned(st'.events, st'.view.applied) == Without(Unplanned(st.events, st.view.applied), trigger)
  {
    FrontieredIsAcceptable(lim, g, st, p);
    PatchedKeepsSafe(st, p, trigger);
    UnplannedPatched(st, p, trigger);
    AnsweringPatched(st, p, trigger);
    PatchGrows(lim, g, st, p, trigger);
  }

  /** The planner adds nothing to a graph at its limit or over it. */
  lemma PatchGrows(lim: Limits, g: Snapshot, st: RunState, p: GraphPatch, trigger: int)
    requires Sound(st) && SnapshotOf(g, st) && Frontiered(lim, g, p) && Acceptable(st.view, p)
    requires trigger !in st.view.applied
    ensures Grows(lim, st, Patched(st, p, trigger))
  {
    PatchPreserves(st, p, trigger);
    OrderIsTheGraph(st);
  }

  lemma AnsweringPatched(st: RunState, p: GraphPatch, trigger: int)
    requires Shaped(st) && Acceptable(st.view, p) && Answering(st) && Answers(st.events, trigger)
    ensures Answering(Patched(st, p, trigger))
  {
    forall t | t in Patched(st, p, trigger).view.applied
      ensures Answers(Patched(st, p, trigger).events, t)
    {
      assert Answers(st.events, t);
    }
  }

  lemma DeclaredIsFrontiered(lim: Limits, g: Snapshot, p: GraphPatch, l: TierLadder)
    requires Frontiered(lim, g, p) && Ladder(l)
    ensures Frontiered(lim, g, p.(add := DeclaredAll(l, p.add)))
  {
    DeclaringKeepsTheGraph(l, p);
  }

  // ------------------------------------------------------------------ the process

  datatype Report =
    | Done(finished: bool, executed: seq<Id>, waiting: set<Id>)
    | Crashed
    | Raised(error: StoreError)

  class LiveGraphExecutor {
    const store: GraphStore
    const planner: GeneralAgentPlanner
    const ladder: Option<TierLadder>
    const maxWorkers: nat
    const worker: Workers
    /** Whether the process may die between two steps. */
    const mortal: bool

    constructor (
      store: GraphStore, planner: GeneralAgentPlanner, ladder: Option<TierLadder>, maxWorkers: nat, worker: Workers,
      mortal: bool)
      requires maxWorkers >= 1 && (ladder.Some? ==> Ladder(ladder.value))
      ensures this.store == store && this.planner == planner && this.ladder == ladder
      ensures this.maxWorkers == maxWorkers && this.worker == worker && this.mortal == mortal
    {
      this.store, this.planner, this.ladder := store, planner, ladder;
      this.maxWorkers, this.worker, this.mortal := maxWorkers, worker, mortal;
    }

    /** In a process that does not die, and whose planner makes no review call, nothing stops a run before its end. */
    predicate Sturdy()
      reads planner
    {
      !mortal && !planner.reviewTerminal
    }

    ghost predicate Ready()
      reads this, store
    {
      store.Valid() && maxWorkers >= 1 && (ladder.Some? ==> Ladder(ladder.value))
    }

    /** The run as this process holds it: launches since `from`, and what `left` left running. */
    ghost predicate Holds(run: RunId, from: nat, left: set<Id>, inFlight: set<Id>, stranded: set<Id>)
      reads this, store
      requires run in store.runs
    {
      |inFlight| <= maxWorkers && Held(worker, run, store.runs[run], from, left, inFlight, stranded, maxWorkers)
    }

    /** What holds of the run even when the process dies on the spot. */
    ghost predicate Sane(run: RunId, from: nat)
      reads this, store
      requires run in store.runs
    {
      && Managed(store.runs[run])
      && Throttled(worker, run, store.runs[run].events, from, maxWorkers)
    }

    /** The planner's patch for the graph as it stands, tiers declared; none when its review call raised. */
    method Propose(run: RunId, trigger: int, node: Option<Id>) returns (r: Option<GraphPatch>, ghost g: Snapshot)
      requires Ready() && run in store.runs
      modifies planner
      ensures SnapshotOf(g, store.runs[run])
      ensures r.Some? ==> Frontiered(planner.lim, g, r.value)
      ensures !planner.reviewTerminal ==> r.Some?
    {
      var snapshot := store.TakeSnapshot(run);
      g := snapshot.value;
      var planned := planner.Plan(snapshot.value, node, trigger);
      if planned.Failure? {
        return None, g;
      }
      if ladder.None? {
        return Some(planned.value), g;
      }
      DeclaredIsFrontiered(planner.lim, g, planned.value, ladder.value);
      var patch := DeclareTiers(planned.value, ladder.value);
      return Some(patch), g;
    }

    /** Has one trigger planned; false when the process died or the planner's review call raised. */
    method PlanFor(run: RunId, trigger: int, node: Option<Id>) returns (ok: bool, ghost p: GraphPatch)
      requires Ready() && run in store.runs
      requires Managed(store.runs[run]) && !store.runs[run].view.finished
      requires Answers(store.runs[run].events, trigger) && trigger !in store.runs[run].view.applied
      modifies store, planner
      ensures Sturdy() ==> ok
      ensures Ready()
      ensures !ok ==> store.runs == old(store.runs)
      ensures ok ==>
                && Acceptable(old(store.runs)[run].view, p) && SparesRunning(old(store.runs)[run].view, p)
                && store.runs == old(store.runs)[run := Patched(old(store.runs)[run], p, trigger)]
                && Managed(store.runs[run]) && Grows(planner.lim, old(store.runs)[run], store.runs[run])
                && Unplanned(store.runs[run].events, store.runs[run].view.applied) ==
                   Without(Unplanned(old(store.runs)[run].events, old(store.runs)[run].view.applied), trigger)
    {
      var proposed, g := Propose(run, trigger, node);
      var crash: bool := *;
      if proposed.None? || (mortal && crash) {
        return false, GraphPatch([], [], [], [], [], false, "", "");
      }
      p := proposed.value;
      PatchManages(planner.lim, g, store.runs[run], p, trigger);
      var applied := store.ApplyPatch(run, proposed.value, trigger);
      ok := true;
    }

    /**
      Plans every outcome an earlier process left unplanned, oldest first, and nothing
      else: it applies patches for those alone, and starts and concludes no task.
    */
    method ReplayPending(run: RunId, ghost from: nat, ghost left: set<Id>) returns (ok: bool)
      requires Ready() && run in store.runs && Sane(run, from) && Holds(run, from, left, {}, left)
      modifies store, planner
      ensures Sturdy() ==> ok
      ensures Ready() && run in store.runs && store.runs - {run} == old(store.runs) - {run}
      ensures Sane(run, from) && Grows(planner.lim, old(store.runs)[run], store.runs[run])
      ensures Replanned(old(store.runs)[run], store.runs[run])
      ensures ok ==> AllPlanned(store.runs[run]) && Holds(run, from, left, {}, left)
    {
      ghost var first := store.runs[run];
      GrowsItself(planner.lim, first);
      var listed := store.PendingPlannerEvents(run);
      var pending := listed.value;
      ReplannedItself(first);
      while pending != []
        invariant Ready() && run in store.runs && store.runs - {run} == old(store.runs) - {run}
        invariant Sane(run, from) && Grows(planner.lim, first, store.runs[run]) && Replanned(first, store.runs[run])
        invariant Holds(run, from, left, {}, left)
        invariant Unplanned(store.runs[run].events, store.runs[run].view.applied) == pending
        invariant forall t :: t in pending ==> t in Unplanned(first.events, first.view.applied)
        decreases |pending|
      {
        if store.runs[run].view.finished {
          return true;
        }
        ghost var before, st := store.runs, store.runs[run];
        FirstUnplanned(st, pending);
        var event := store.runs[run].events[pending[0] - 1];
        var planned, p := PlanFor(run, pending[0], if Outcome(event) then Some(event.node) else None);
        if !planned {
          return false;
        }
        OtherRuns(before, run, store.runs[run]);
        GrowsTransitive(planner.lim, first, st, store.runs[run]);
        ReplannedOn(first, st, p, pending[0]);
        HeldPatch(worker, run, st, p, pending[0], from, left, {}, left, maxWorkers);
        pending := pending[1..];
      }
      return true;
    }

    /** Records the outcome of a running task, and tells which event it became. */
    method Record(run: RunId, n: Id, success: bool, payload: Json, ghost from: nat, ghost left: set<Id>, inFlight: set<Id>,
                  ghost stranded: set<Id>, executed: seq<Id>)
      returns (trigger: nat)
      requires Ready() && run in store.runs && Sane(run, from) && Holds(run, from, left, inFlight, stranded)
      requires AllPlanned(store.runs[run]) && RanAs(store.runs[run], from, executed)
      requires n in inFlight && IsRunning(store.runs[run], n)
      requires worker(run, n, StartOf(store.runs[run].events, n)) == Returned(success, payload)
      modifies store
      ensures Ready() && store.runs == old(store.runs)[run := Concluded(old(store.runs)[run], n, success, payload)]
      ensures Sane(run, from) && Grows(planner.lim, old(store.runs)[run], store.runs[run])
      ensures Holds(run, from, left, inFlight - {n}, stranded) && RanAs(store.runs[run], from, executed + [n])
      ensures Measure(planner.lim, store.runs[run], inFlight - {n}) < Measure(planner.lim, old(store.runs)[run], inFlight)
      ensures trigger == |store.runs[run].events| && trigger !in store.runs[run].view.applied
      ensures Answers(store.runs[run].events, trigger)
      ensures store.runs[run].view.finished ||
              Unplanned(store.runs[run].events, store.runs[run].view.applied) == [trigger]
    {
      ghost var st := store.runs[run];
      ConcludeManages(planner.lim, st, n, success, payload);
      ConcludedLowers(st, n, success, payload);
      var recorded := store.RecordOutcome(run, n, success, payload);
      trigger := recorded.value;
      ghost var after := store.runs[run];
      ghost var e := if success then TaskSucceeded(n, payload) else TaskFailed(n, payload);
      HeldEnd(worker, run, st, after, n, e, from, left, inFlight, stranded, maxWorkers);
      EndCouples(st.view, after.view, n, after.view.nodes[n], inFlight, stranded, executed);
      EndReports(st, after, e, from, executed);
      SubsetSize(inFlight - {n}, inFlight);
    }

    /** Journals the outcome of a running task and has it planned. */
    method Conclude(run: RunId, n: Id, success: bool, payload: Json, ghost from: nat, ghost left: set<Id>, inFlight: set<Id>,
                    ghost stranded: set<Id>, executed: seq<Id>)
      returns (ok: bool)
      requires Ready() && run in store.runs && Sane(run, from) && Holds(run, from, left, inFlight, stranded)
      requires AllPlanned(store.runs[run]) && RanAs(store.runs[run], from, executed)
      requires n in inFlight && IsRunning(store.runs[run], n)
      requires worker(run, n, StartOf(store.runs[run].events, n)) == Returned(success, payload)
      modifies store, planner
      ensures Sturdy() ==> ok
      ensures Ready() && run in store.runs && store.runs - {run} == old(store.runs) - {run}
      ensures Sane(run, from) && Grows(planner.lim, old(store.runs)[run], store.runs[run])
      ensures Concluded(old(store.runs)[run], n, success, payload).events <= store.runs[run].events
      ensures ok ==>
                && AllPlanned(store.runs[run])
                && Holds(run, from, left, inFlight - {n}, stranded)
                && RanAs(store.runs[run], from, executed + [n])
                && Measure(planner.lim, store.runs[run], inFlight - {n}) <
                   Measure(planner.lim, old(store.runs)[run], inFlight)
    {
      ghost var before := store.runs;
      var trigger := Record(run, n, success, payload, from, left, inFlight, stranded, executed);
      ghost var mid := store.runs;
      OtherRuns(before, run, mid[run]);
      var crash: bool := *;
      if mortal && crash {
        return false;
      }
      if store.runs[run].view.finished {
        return true;
      }
      ghost var p;
      ok, p := PlanFor(run, trigger, Some(n));
      if ok {
        OtherRuns(mid, run, store.runs[run]);
        GrowsTransitive(planner.lim, before[run], mid[run], store.runs[run]);
        OnlyPlan(trigger);
        HeldPatch(worker, run, mid[run], p, trigger, from, left, inFlight - {n}, stranded, maxWorkers);
        PatchReports(mid[run], p, trigger, from, executed + [n]);
        PatchedPays(mid[run], p, trigger);
      }
    }

    /** Journals that a task now waits for an external event; there is nothing to plan yet. */
    method Park(run: RunId, n: Id, wait: Wait, ghost from: nat, ghost left: set<Id>, inFlight: set<Id>,
                ghost stranded: set<Id>, executed: seq<Id>)
      returns (ok: bool)
      requires Ready() && run in store.runs && Sane(run, from) && Holds(run, from, left, inFlight, stranded)
      requires AllPlanned(store.runs[run]) && RanAs(store.runs[run], from, executed)
      requires n in inFlight && IsRunning(store.runs[run], n)
      requires worker(run, n, StartOf(store.runs[run].events, n)) == Deferred(wait)
      modifies store
      ensures Sturdy() ==> ok
      ensures Ready() && store.runs == old(store.runs)[run := Parked(old(store.runs)[run], n, wait)]
      ensures Sane(run, from) && Grows(planner.lim, old(store.runs)[run], store.runs[run])
      ensures AllPlanned(store.runs[run]) && Holds(run, from, left, inFlight - {n}, stranded)
      ensures RanAs(store.runs[run], from, executed + [n])
      ensures Measure(planner.lim, store.runs[run], inFlight - {n}) <
              Measure(planner.lim, old(store.runs)[run], inFlight)
    {
      ghost var before := store.runs;
      ParkManages(planner.lim, before[run], n, wait);
      ParkedLowers(before[run], n, wait);
      var parked := store.RecordWaiting(run, n, wait);
      var e := TaskWaiting(n, wait);
      HeldEnd(worker, run, before[run], store.runs[run], n, e, from, left, inFlight, stranded, maxWorkers);
      EndCouples(before[run].view, store.runs[run].view, n, store.runs[run].view.nodes[n], inFlight, stranded, executed);
      EndReports(before[run], store.runs[run], e, from, executed);
      SubsetSize(inFlight - {n}, inFlight);
      var crash: bool := *;
      return !(mortal && crash);
    }

    /**
      What the executor does with one ended coroutine.  The end of a task the graph has
      cancelled writes nothing, and neither does a cancellation of the coroutine's own,
      which leaves its task running with no one to run it.
    */
    method Collect(run: RunId, n: Id, ghost from: nat, ghost left: set<Id>, inFlight: set<Id>, ghost stranded: set<Id>,
                   executed: seq<Id>)
      returns (ok: bool, executed': seq<Id>)
      requires Ready() && run in store.runs && Sane(run, from) && Holds(run, from, left, inFlight, stranded)
      requires AllPlanned(store.runs[run]) && RanAs(store.runs[run], from, executed)
      requires n in inFlight
      modifies store, planner
      ensures Sturdy() ==> ok
      ensures Ready() && run in store.runs && store.runs - {run} == old(store.runs) - {run}
      ensures Sane(run, from) && Grows(planner.lim, old(store.runs)[run], store.runs[run])
      ensures ok ==>
                && AllPlanned(store.runs[run])
                && Holds(run, from, left, inFlight - {n}, Stranding(worker, run, old(store.runs)[run], n, stranded))
                && RanAs(store.runs[run], from, executed')
                && Measure(planner.lim, store.runs[run], inFlight - {n}) <
                   Measure(planner.lim, old(store.runs)[run], inFlight)
      ensures Written(worker, run, old(store.runs)[run], store.runs[run], n)
      ensures Speaks(worker, run, old(store.runs)[run], n) ==> executed' == executed + [n]
      ensures !Speaks(worker, run, old(store.runs)[run], n) ==> ok && executed' == executed
    {
      ghost var st := store.runs[run];
      GrowsItself(planner.lim, st);
      var ending := worker(run, n, StartOf(store.runs[run].events, n));
      ok, executed' := true, executed;
      if ending == RaisedCancelled || store.runs[run].view.nodes[n].state == Cancelled {
        LetGo(planner.lim, worker, run, st, n, from, left, inFlight, stranded, maxWorkers);
        return;
      }
      executed' := executed + [n];
      ok := Tell(run, n, ending, from, left, inFlight, stranded, executed);
    }

    /** Journals how a running task's coroutine ended, other than in a cancellation of its own. */
    method Tell(run: RunId, n: Id, ending: Ending, ghost from: nat, ghost left: set<Id>, inFlight: set<Id>,
                ghost stranded: set<Id>, executed: seq<Id>)
      returns (ok: bool)
      requires Ready() && run in store.runs && Sane(run, from) && Holds(run, from, left, inFlight, stranded)
      requires AllPlanned(store.runs[run]) && RanAs(store.runs[run], from, executed)
      requires n in inFlight && IsRunning(store.runs[run], n) && !ending.RaisedCancelled?
      requires worker(run, n, StartOf(store.runs[run].events, n)) == ending
      modifies store, planner
      ensures Sturdy() ==> ok
      ensures Ready() && run in store.runs && store.runs - {run} == old(store.runs) - {run}
      ensures Sane(run, from) && Grows(planner.lim, old(store.runs)[run], store.runs[run])
      ensures ok ==>
                && AllPlanned(store.runs[run])
                && Holds(run, from, left, inFlight - {n}, stranded)
                && RanAs(store.runs[run], from, executed + [n])
                && Measure(planner.lim, store.runs[run], inFlight - {n}) <
                   Measure(planner.lim, old(store.runs)[run], inFlight)
      ensures Written(worker, run, old(store.runs)[run], store.runs[run], n)
    {
      if ending.Deferred? {
        ok := Park(run, n, ending.wait, from, left, inFlight, stranded, executed);
        OtherRuns(old(store.runs), run, store.runs[run]);
      } else {
        ok := Conclude(run, n, ending.success, ending.payload, from, left, inFlight, stranded, executed);
      }
    }

    /** Fills the free worker slots with ready tasks: a slot stays free only when nothing is ready. */
    method LaunchReady(run: RunId, ghost from: nat, ghost left: set<Id>, inFlight: set<Id>, ghost stranded: set<Id>,
                       executed: seq<Id>)
      returns (ok: bool, inFlight': set<Id>)
      requires Ready() && run in store.runs && Sane(run, from) && Holds(run, from, left, inFlight, stranded)
      requires AllPlanned(store.runs[run]) && RanAs(store.runs[run], from, executed)
      modifies store
      ensures Sturdy() ==> ok
      ensures Ready() && run in store.runs && store.runs - {run} == old(store.runs) - {run}
      ensures Sane(run, from) && Grows(planner.lim, old(store.runs)[run], store.runs[run])
      ensures AllPlanned(store.runs[run])
      ensures ok ==>
                && inFlight <= inFlight' && Holds(run, from, left, inFlight', stranded)
                && RanAs(store.runs[run], from, executed)
                && Measure(planner.lim, store.runs[run], inFlight') <= Measure(planner.lim, old(store.runs)[run], inFlight)
                && (|inFlight'| < maxWorkers && !store.runs[run].view.finished ==>
                      forall n :: n in store.runs[run].view.nodes ==> !IsReady(store.runs[run].view, n))
    {
      ghost var before := store.runs;
      GrowsItself(planner.lim, before[run]);
      var capacity := maxWorkers - |inFlight|;
      if store.runs[run].view.finished || capacity == 0 {
        return true, inFlight;
      }
      var listed := store.Ready(run, capacity);
      var ready := listed.value;
      ReadyArePending(before[run], capacity, ready);
      if ready == [] {
        return true, inFlight;
      }
      LaunchManages(planner.lim, before[run], ready);
      LaunchCouples(before[run], ready, inFlight, stranded, executed);
      LaunchReports(before[run], ready, from, executed);
      LaunchLowers(planner.lim, before[run], ready, inFlight);
      HeldLaunch(worker, run, before[run], ready, from, left, inFlight, stranded, maxWorkers);
      NoneLeftReady(before[run], capacity, ready);
      var marked := store.MarkRunning(run, ready);
      OtherRuns(before, run, store.runs[run]);
      inFlight' := inFlight + TaskIds(ready);
      var crash: bool := *;
      return !(mortal && crash), inFlight';
    }

    /** Collects every coroutine that has ended, in identifier order. */
    method CollectAll(run: RunId, done: set<Id>, ghost from: nat, ghost left: set<Id>, inFlight: set<Id>,
                      ghost stranded: set<Id>, executed: seq<Id>)
      returns (ok: bool, executed': seq<Id>, ghost stranded': set<Id>)
      requires Ready() && run in store.runs && Sane(run, from) && Holds(run, from, left, inFlight, stranded)
      requires AllPlanned(store.runs[run]) && RanAs(store.runs[run], from, executed)
      requires done != {} && done <= inFlight
      modifies store, planner
      ensures Sturdy() ==> ok
      ensures Ready() && run in store.runs && store.runs - {run} == old(store.runs) - {run}
      ensures Sane(run, from) && Grows(planner.lim, old(store.runs)[run], store.runs[run])
      ensures ok ==>
                && AllPlanned(store.runs[run])
                && Holds(run, from, left, inFlight - done, stranded')
                && RanAs(store.runs[run], from, executed')
                && Measure(planner.lim, store.runs[run], inFlight - done) <
                   Measure(planner.lim, old(store.runs)[run], inFlight)
    {
      GrowsItself(planner.lim, store.runs[run]);
      var order := Sorted(done);
      var flying := inFlight;
      executed', stranded' := executed, stranded;
      ghost var started, first, top := false, store.runs[run], Measure(planner.lim, store.runs[run], inFlight);
      while order != []
        invariant Ready() && run in store.runs && store.runs - {run} == old(store.runs) - {run}
        invariant Sane(run, from) && Grows(planner.lim, first, store.runs[run])
        invariant AllPlanned(store.runs[run]) && RanAs(store.runs[run], from, executed')
        invariant Increasing(order) && Elements(order) <= done
        invariant flying == With(inFlight - done, order)
        invariant Holds(run, from, left, flying, stranded')
        invariant !started ==> order != []
        invariant Measure(planner.lim, store.runs[run], flying) <= if started then top - 1 else top
        decreases |order|
      {
        ghost var before, held := store.runs[run], Stranding(worker, run, store.runs[run], order[0], stranded');
        var n := order[0];
        Rest(order, inFlight - done);
        ok, executed' := Collect(run, n, from, left, flying, stranded', executed');
        GrowsTransitive(planner.lim, first, before, store.runs[run]);
        if !ok {
          return;
        }
        flying, order, started, stranded' := flying - {n}, order[1..], true, held;
      }
      ok := true;
    }

    /** Waits until some coroutines have ended, which ones is open, and collects them. */
    method CollectFirst(run: RunId, ghost from: nat, ghost left: set<Id>, inFlight: set<Id>, ghost stranded: set<Id>,
                        executed: seq<Id>)
      returns (ok: bool, inFlight': set<Id>, executed': seq<Id>, ghost stranded': set<Id>)
      requires Ready() && run in store.runs && Sane(run, from) && Holds(run, from, left, inFlight, stranded)
      requires AllPlanned(store.runs[run]) && RanAs(store.runs[run], from, executed)
      requires inFlight != {}
      modifies store, planner
      ensures Sturdy() ==> ok
      ensures Ready() && run in store.runs && store.runs - {run} == old(store.runs) - {run}
      ensures Sane(run, from) && Grows(planner.lim, old(store.runs)[run], store.runs[run])
      ensures inFlight' < inFlight
      ensures ok ==>
                && AllPlanned(store.runs[run])
                && Holds(run, from, left, inFlight', stranded')
                && RanAs(store.runs[run], from, executed')
                && Measure(planner.lim, store.runs[run], inFlight') < Measure(planner.lim, old(store.runs)[run], inFlight)
    {
      var ended: set<Id> := *;
      var done := if ended * inFlight == {} then inFlight else ended * inFlight;
      ok, executed', stranded' := CollectAll(run, done, from, left, inFlight, stranded, executed);
      inFlight' := inFlight - done;
    }

    /** One turn of the loop; it stops when nothing is in flight and nothing could be launched. */
    method Turn(run: RunId, ghost from: nat, ghost left: set<Id>, inFlight: set<Id>, ghost stranded: set<Id>,
                executed: seq<Id>)
      returns (ok: bool, stop: bool, inFlight': set<Id>, executed': seq<Id>, ghost stranded': set<Id>)
      requires Ready() && run in store.runs && Sane(run, from) && Holds(run, from, left, inFlight, stranded)
      requires AllPlanned(store.runs[run]) && RanAs(store.runs[run], from, executed)
      modifies store, planner
      ensures Sturdy() ==> ok
      ensures Ready() && run in store.runs && store.runs - {run} == old(store.runs) - {run}
      ensures Sane(run, from) && Grows(planner.lim, old(store.runs)[run], store.runs[run])
      ensures ok ==>
                && AllPlanned(store.runs[run]) && Holds(run, from, left, inFlight', stranded')
                && RanAs(store.runs[run], from, executed')
      ensures ok && stop ==> inFlight' == {}
      ensures ok && stop && !store.runs[run].view.finished ==>
                forall n :: n in store.runs[run].view.nodes ==> !IsReady(store.runs[run].view, n)
      ensures ok && !stop ==>
                Measure(planner.lim, store.runs[run], inFlight') < Measure(planner.lim, old(store.runs)[run], inFlight)
    {
      executed', stranded', stop := executed, stranded, false;
      ok, inFlight' := LaunchReady(run, from, left, inFlight, stranded, executed);
      if !ok {
        return;
      }
      if inFlight' == {} {
        stop := true;
        return;
      }
      ghost var mid := store.runs[run];
      ok, inFlight', executed', stranded' := CollectFirst(run, from, left, inFlight', stranded, executed);
      GrowsTransitive(planner.lim, old(store.runs)[run], mid, store.runs[run]);
    }

    /** Launch, wait for the first to end, collect; until nothing is in flight. */
    method Loop(run: RunId, ghost from: nat, ghost left: set<Id>)
      returns (ok: bool, executed: seq<Id>, ghost stranded: set<Id>)
      requires Ready() && run in store.runs && Sane(run, from) && Holds(run, from, left, {}, left)
      requires AllPlanned(store.runs[run]) && RanAs(store.runs[run], from, [])
      modifies store, planner
      ensures Sturdy() ==> ok
      ensures Ready() && run in store.runs && store.runs - {run} == old(store.runs) - {run}
      ensures Sane(run, from) && Grows(planner.lim, old(store.runs)[run], store.runs[run])
      ensures ok ==>
                && AllPlanned(store.runs[run]) && Holds(run, from, left, {}, stranded)
                && RanAs(store.runs[run], from, executed)
      ensures ok && !store.runs[run].view.finished ==>
                forall n :: n in store.runs[run].view.nodes ==> !IsReady(store.runs[run].view, n)
    {
      GrowsItself(planner.lim, store.runs[run]);
      executed, stranded := [], left;
      var inFlight: set<Id> := {};
      while true
        invariant Ready() && run in store.runs && store.runs - {run} == old(store.runs) - {run}
        invariant Sane(run, from) && Grows(planner.lim, old(store.runs)[run], store.runs[run])
        invariant AllPlanned(store.runs[run]) && Holds(run, from, left, inFlight, stranded)
        invariant RanAs(store.runs[run], from, executed)
        decreases Measure(planner.lim, store.runs[run], inFlight)
      {
        ghost var before := store.runs[run];
        MeasureNatural(planner.lim, before, inFlight);
        var stop;
        ok, stop, inFlight, executed, stranded := Turn(run, from, left, inFlight, stranded, executed);
        GrowsTransitive(planner.lim, old(store.runs)[run], before, store.runs[run]);
        if !ok || stop {
          break;
        }
      }
    }

    /** A fresh or resumed checkpoint; starting a run that exists changes nothing. */
    method Begin(run: RunId, resume: bool) returns (ok: bool)
      requires Ready() && (run in store.runs ==> Managed(store.runs[run]))
      modifies store
      ensures Ready() && store.runs - {run} == old(store.runs) - {run}
      ensures ok <==> !resume || run in old(store.runs)
      ensures ok ==> run in store.runs && Since(old(store.runs), run) <= |store.runs[run].events|
      ensures ok ==> Sane(run, Since(old(store.runs), run))
      ensures ok && run in old(store.runs) ==> Grows(planner.lim, old(store.runs)[run], store.runs[run])
      ensures ok ==> Roof(planner.lim, store.runs[run]) == RoofOf(planner.lim, old(store.runs), run)
      ensures ok ==> RanAs(store.runs[run], Since(old(store.runs), run), [])
      ensures ok ==> var left := if resume then {} else Leftover(old(store.runs), run);
                     Holds(run, Since(old(store.runs), run), left, {}, left)
    {
      if resume {
        var resumed := store.Resume(run);
        if resumed.Failure? {
          return false;
        }
      } else {
        var created := store.Start(run, "");
        assert !created ==> store.runs == store.runs[run := store.runs[run]];
      }
      OpeningHeld(planner.lim, worker, old(store.runs), run, resume, maxWorkers);
      OpeningReports(old(store.runs), run, resume);
      OtherRuns(old(store.runs), run, store.runs[run]);
      return true;
    }

    /**
      Runs until finished or at rest.  It terminates, whatever the model and the workers
      do, and with a report unless the process dies or a review call raises.  Launches
      are the starts journalled since the run began: each came to what its worker made of
      it, no more than the worker bound were ever busy at once, and the report names the
      tasks executed in the order in which the journal tells of them.
    */
    method Run(run: RunId, resume: bool) returns (r: Report)
      requires Ready() && (run in store.runs ==> Managed(store.runs[run]))
      modifies store, planner
      ensures Ready() && store.runs - {run} == old(store.runs) - {run}
      ensures Sturdy() ==> !r.Crashed?
      ensures r.Raised? <==> resume && run !in old(store.runs)
      ensures !r.Raised? ==> run in store.runs && Sane(run, Since(old(store.runs), run))
      ensures !r.Raised? && run in old(store.runs) ==> Grows(planner.lim, old(store.runs)[run], store.runs[run])
      ensures !r.Raised? ==> |store.runs[run].view.nodes| <= RoofOf(planner.lim, old(store.runs), run)
      ensures !r.Raised? ==> |store.runs[run].view.applied| <= 1 + RoofOf(planner.lim, old(store.runs), run)
      ensures r.Done? ==> Distinct(r.executed) && |r.executed| <= RoofOf(planner.lim, old(store.runs), run)
      ensures r.Done? ==> r.executed == Tellers(store.runs[run].events, Since(old(store.runs), run))
      ensures r.Done? ==> r.finished == store.runs[run].view.finished
      ensures r.Done? ==> r.waiting == WaitingIn(store.runs[run].view)
      ensures r.Done? ==>
                var left := if resume then {} else Leftover(old(store.runs), run);
                Rests(worker, run, store.runs[run], Since(old(store.runs), run), left)
    {
      var began := Begin(run, resume);
      if !began {
        return Raised(UnknownRun);
      }
      ghost var first, from := store.runs[run], Since(old(store.runs), run);
      ghost var left := if resume then {} else Leftover(old(store.runs), run);
      var ok, executed, stranded := Drive(run, from, left);
      GrowsFrom(planner.lim, old(store.runs), run, first, store.runs[run]);
      Bounds(planner.lim, store.runs[run]);
      if !ok {
        return Crashed;
      }
      var st := store.runs[run];
      RanBounded(st, executed);
      AtRest(worker, run, st, from, left, stranded, maxWorkers);
      r := Done(st.view.finished, executed, WaitingIn(st.view));
    }

    /** What was left unplanned, then the loop; the process may die before, between or within them. */
    method Drive(run: RunId, ghost from: nat, ghost left: set<Id>)
      returns (ok: bool, executed: seq<Id>, ghost stranded: set<Id>)
      requires Ready() && run in store.runs && Sane(run, from) && Holds(run, from, left, {}, left)
      requires RanAs(store.runs[run], from, [])
      modifies store, planner
      ensures Sturdy() ==> ok
      ensures Ready() && run in store.runs && store.runs - {run} == old(store.runs) - {run}
      ensures Sane(run, from) && Grows(planner.lim, old(store.runs)[run], store.runs[run])
      ensures ok ==>
                && AllPlanned(store.runs[run]) && Holds(run, from, left, {}, stranded)
                && RanAs(store.runs[run], from, executed)
      ensures ok && !store.runs[run].view.finished ==>
                forall n :: n in store.runs[run].view.nodes ==> !IsReady(store.runs[run].view, n)
    {
      executed, stranded := [], left;
      var crash: bool := *;
      if mortal && crash {
        GrowsItself(planner.lim, store.runs[run]);
        return false, executed, stranded;
      }
      ok := ReplayPending(run, from, left);
      if !ok {
        return;
      }
      ghost var mid := store.runs[run];
      ReplannedReports(old(store.runs)[run], mid, from);
      ok, executed, stranded := Loop(run, from, left);
      GrowsTransitive(planner.lim, old(store.runs)[run], mid, store.runs[run]);
    }
  }

  /** The most tasks a run may come to hold, with what it holds already. */
  ghost function RoofOf(lim: Limits, runs: map<RunId, RunState>, run: RunId): nat {
    if run in runs then Roof(lim, runs[run]) else Cap(lim)
  }

  function WaitingIn(v: View): set<Id> {
    set n | n in v.nodes && v.nodes[n].state == Waiting
  }

  /** Where in its journal a run stood before a process took it up. */
  function Since(runs: map<RunId, RunState>, run: RunId): nat {
    if run in runs then |runs[run].events| else 0
  }

  /**
    How a run stands when it has stopped: everything is planned, every launch since
    `from` came to what its worker made of it, and either the graph is finished and
    nothing in it is active, or it is quiescent: running are exactly the tasks whose
    worker raised a cancellation of its own, and the ones left over from before, which
    is none when no worker does so and none was left.
  */
  ghost predicate Rests(w: Workers, run: RunId, st: RunState, from: nat, left: set<Id>) {
    && AllPlanned(st)
    && (forall k :: from <= k < |st.events| && st.events[k].TaskStarted? ==> CameTo(w, run, st, k))
    && (st.view.finished ==> forall n :: n in st.view.nodes ==> !Active(st.view.nodes[n].state))
    && (!st.view.finished ==> Quiescent(st, Strays(w, run, st, from, left)))
    && (!st.view.finished && WellBehaved(w, run) && left == {} ==> Quiescent(st, {}))
  }

  lemma AtRest(w: Workers, run: RunId, st: RunState, from: nat, left: set<Id>, stranded: set<Id>, most: nat)
    requires Sound(st) && AllPlanned(st) && Held(w, run, st, from, left, {}, stranded, most)
    requires !st.view.finished ==> forall n :: n in st.view.nodes ==> !IsReady(st.view, n)
    ensures Rests(w, run, st, from, left)
  {
    Landed(w, run, st, from, left, stranded, most);
    if !st.view.finished {
      Stopped(w, run, st, from, left, stranded, most);
      if WellBehaved(w, run) && left == {} {
        NoStrays(w, run, st, from);
      }
    }
  }

  /** Whether the end of a coroutine is told: its task is running, and it did not cancel itself. */
  ghost predicate Speaks(w: Workers, run: RunId, st: RunState, n: Id) {
    IsRunning(st, n) && !Stray(w, run, st.events, n)
  }

  /**
    What the end of a coroutine writes: a deferred task is parked, a returned one
    concluded, whatever its outcome then leads to; and the late end of a task that the
    graph has cancelled, like a cancellation of the coroutine's own, writes nothing.
  */
  ghost predicate Written(w: Workers, run: RunId, st: RunState, st': RunState, n: Id) {
    if !Speaks(w, run, st, n) || StartOf(st.events, n) < 0 then st' == st
    else
      match w(run, n, StartOf(st.events, n))
      case RaisedCancelled => st' == st
      case Deferred(wait) => st' == Parked(st, n, wait)
      case Returned(success, payload) => Concluded(st, n, success, payload).events <= st'.events
  }

  /** The stranded tasks once `n` has ended: a running task joins them when its coroutine cancelled itself. */
  ghost function Stranding(w: Workers, run: RunId, st: RunState, n: Id, stranded: set<Id>): set<Id> {
    if IsRunning(st, n) && Stray(w, run, st.events, n) then stranded + {n} else stranded
  }

  /** A coroutine that ends without a word leaves flight; its task, if it runs, is stranded. */
  lemma LetGo(
    lim: Limits, w: Workers, run: RunId, st: RunState, n: Id, from: nat, left: set<Id>, inFlight: set<Id>,
    stranded: set<Id>, most: nat)
    requires Shaped(st) && Held(w, run, st, from, left, inFlight, stranded, most) && |inFlight| <= most
    requires n in inFlight && StartOf(st.events, n) >= 0
    requires w(run, n, StartOf(st.events, n)) == RaisedCancelled || st.view.nodes[n].state.Cancelled?
    ensures Held(w, run, st, from, left, inFlight - {n}, Stranding(w, run, st, n, stranded), most)
    ensures |inFlight - {n}| <= most
    ensures Measure(lim, st, inFlight - {n}) < Measure(lim, st, inFlight)
  {
    if IsRunning(st, n) {
      HeldStray(w, run, st, n, from, left, inFlight, stranded, most);
    } else {
      HeldDiscard(w, run, st, n, from, left, inFlight, stranded, most);
    }
  }

  /** Tasks a process that died without a resume left marked as running. */
  ghost function Leftover(runs: map<RunId, RunState>, run: RunId): set<Id> {
    if run in runs then set n | n in runs[run].view.nodes && runs[run].view.nodes[n].state.Running? else {}
  }

  lemma MeasureNatural(lim: Limits, st: RunState, inFlight: set<Id>)
    requires Shaped(st)
    ensures Measure(lim, st, inFlight) >= 0
  {
  }

  /** The checkpoint a process begins with. */
  function Opening(runs: map<RunId, RunState>, run: RunId, resume: bool): RunState
    requires resume ==> run in runs
  {
    if run !in runs then Fresh("") else if resume then Resumed(runs[run]) else runs[run]
  }

  lemma OpeningReports(runs: map<RunId, RunState>, run: RunId, resume: bool)
    requires resume ==> run in runs
    ensures RanAs(Opening(runs, run, resume), Since(runs, run), [])
  {
    var st, from := Opening(runs, run, resume), Since(runs, run);
    assert st.events[..from] == if run in runs then runs[run].events else [];
    assert st.events[from..] == if run !in runs then [RunStarted] else if resume then [RunResumed] else [];
    assert st.events == st.events[..from] + st.events[from..];
    QuietTellers(st.events[..from], st.events[from..], from);
  }

  lemma OpeningHeld(lim: Limits, w: Workers, runs: map<RunId, RunState>, run: RunId, resume: bool, most: nat)
    requires run in runs ==> Sound(runs[run]) && Managed(runs[run])
    requires resume ==> run in runs
    ensures
      var st, from := Opening(runs, run, resume), Since(runs, run);
      var left := if resume then {} else Leftover(runs, run);
      && Managed(st) && from <= |st.events| && Roof(lim, st) == RoofOf(lim, runs, run)
      && (run in runs ==> Grows(lim, runs[run], st))
      && Held(w, run, st, from, left, {}, left, most) && Throttled(w, run, st.events, from, most)
  {
    var st := Opening(runs, run, resume);
    var left := if resume then {} else Leftover(runs, run);
    if run !in runs {
      FreshKeeps("");
    } else if resume {
      ResumeManages(lim, runs[run]);
    } else {
      GrowsItself(lim, st);
    }
    HeldAtFirst(w, run, st, Since(runs, run), left, most);
  }

  lemma ResumeManages(lim: Limits, st: RunState)
    requires Sound(st) && Managed(st)
    ensures Sound(Resumed(st)) && Managed(Resumed(st)) && Grows(lim, st, Resumed(st))
  {
    ResumedKeeps(st);
    assert Step(st, Resume) == Resumed(st);
    StepPreserves(st, Resume);
    forall t | t in st.view.applied {
      AnswersStay(st, Resumed(st), t);
    }
  }

  lemma GrowsFrom(lim: Limits, runs: map<RunId, RunState>, run: RunId, st: RunState, st': RunState)
    requires run in runs ==> Grows(lim, runs[run], st)
    requires Grows(lim, st, st')
    ensures run in runs ==> Grows(lim, runs[run], st')
  {
    if run in runs {
      GrowsTransitive(lim, runs[run], st, st');
    }
  }

  lemma Bounds(lim: Limits, st: RunState)
    requires Sound(st) && Managed(st)
    ensures |st.view.nodes| <= Roof(lim, st)
    ensures |st.view.applied| <= 1 + Roof(lim, st)
  {
    OrderIsTheGraph(st);
    PatchesBounded(st);
  }

  lemma RanBounded(st: RunState, executed: seq<Id>)
    requires Shaped(st) && Ran(st.view, executed)
    ensures |executed| <= |st.view.nodes|
  {
    Dag.DistinctFit(st.view.nodes.Keys, executed);
  }

  function With(base: set<Id>, order: seq<Id>): (r: set<Id>)
    ensures order == [] ==> r == base
  {
    base + Elements(order)
  }

  lemma Rest(order: seq<Id>, base: set<Id>)
    requires order != [] && Increasing(order) && base !! Elements(order)
    ensures Increasing(order[1..]) && order[0] in Elements(order)
    ensures With(base, order) - {order[0]} == With(base, order[1..])
    ensures Elements(order[1..]) <= Elements(order)
  {
    IncreasingDistinct(order);
    assert order == [order[0]] + order[1..];
  }

  lemma OnlyPlan(t: int)
    ensures Without([t], t) == []
  {
    assert [t][..0] == [];
  }

  lemma OtherRuns(runs: map<RunId, RunState>, run: RunId, st: RunState)
    ensures runs[run := st] - {run} == runs - {run}
  {
  }

  lemma FirstUnplanned(st: RunState, pending: seq<int>)
    requires pending != [] && pending == Unplanned(st.events, st.view.applied)
    ensures Answers(st.events, pending[0]) && pending[0] !in st.view.applied
    ensures Without(pending, pending[0]) == pending[1..]
  {
    UnplannedBounds(st.events, st.view.applied);
    assert pending[0] in pending;
    WithoutFirst(pending);
  }

  /** Only patches for outcomes that were unplanned, and their cancellations, have been journalled. */
  ghost predicate Replanned(st: RunState, st': RunState) {
    && st.events <= st'.events
    && (forall i :: |st.events| <= i < |st'.events| ==> st'.events[i].TaskCancelled? || st'.events[i].GraphPatched?)
    && (forall t :: t in st'.view.applied ==> t in st.view.applied || t in Unplanned(st.events, st.view.applied))
  }

  lemma ReplannedReports(st: RunState, st': RunState, from: nat)
    requires Replanned(st, st') && RanAs(st, from, [])
    ensures RanAs(st', from, [])
  {
    var more := st'.events[|st.events|..];
    assert st'.events == st.events + more;
    forall e | e in more
      ensures !Tells(e)
    {
      var i :| 0 <= i < |more| && more[i] == e;
      assert st'.events[|st.events| + i] == e;
    }
    QuietTellers(st.events, more, from);
  }

  lemma ReplannedItself(st: RunState)
    ensures Replanned(st, st)
  {
  }

  lemma ReplannedOn(first: RunState, st: RunState, p: GraphPatch, trigger: int)
    requires Shaped(st) && Acceptable(st.view, p) && Replanned(first, st)
    requires trigger in Unplanned(first.events, first.view.applied)
    ensures Replanned(first, Patched(st, p, trigger))
  {
    PatchedQuiet(st, p);
    var more := Cancellations(st, p) + [GraphPatched(RecordOf(p, trigger))];
    assert forall e :: e in more ==> e.TaskCancelled? || e.GraphPatched?;
    assert forall i :: 0 <= i < |more| ==> more[i] in more;
  }

  /** With a slot to spare, every ready task has been launched, and launching makes none ready. */
  lemma NoneLeftReady(st: RunState, limit: int, ts: seq<TaskSpec>)
    requires Shaped(st) && ReadyTasks(st, limit, ts) && AllPending(st, ts)
    ensures |ts| < limit ==> forall n :: n in Marked(st, ts).view.nodes ==> !IsReady(Marked(st, ts).view, n)
  {
    if |ts| < limit {
      MarkedLaunched(st, ts);
      forall n | n in st.view.nodes
        ensures !IsReady(Marked(st, ts).view, n)
      {
        ReadyBefore(st.view, Marked(st, ts).view, n);
        if IsReady(st.view, n) {
          LaunchedIsRunning(st, limit, ts, n);
        }
      }
    }
  }

  lemma ReadyBefore(v: View, v': View, n: Id)
    requires Launched(v, v') && n in v.nodes
    ensures IsReady(v', n) ==> IsReady(v, n)
  {
  }

  lemma LaunchedIsRunning(st: RunState, limit: int, ts: seq<TaskSpec>, n: Id)
    requires Shaped(st) && ReadyTasks(st, limit, ts) && AllPending(st, ts) && |ts| < limit && IsReady(st.view, n)
    ensures Marked(st, ts).view.nodes[n].state.Running?
  {
    MarkedNodes(st, ts);
    var i :| 0 <= i < |ts| && ts[i].id == n;
    assert ts[i] in ts;
  }
}
