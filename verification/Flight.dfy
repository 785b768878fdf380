/**
  One process and the store it drives: which tasks are in flight, which were left
  running by nobody, and what each coroutine it started came to.  How a coroutine ends
  is an arbitrary function of its run, its task and its place in the journal.
*/
module Flight {
  import opened Wrappers
  import opened LiveGraph
  import opened RunOps
  import opened RunInvariants
  import opened GraphStore
  import opened Planner
  import opened Quiescence
  import Dag

  /** How a coroutine ends when the graph leaves it alone. */
  datatype Ending = RaisedCancelled | Returned(success: bool, payload: Json) | Deferred(wait: Wait)

  /** How the coroutine ends whose start is the given entry of the journal. */
  type Workers = (RunId, Id, nat) -> Ending

  // ---------------------------------------------------------------- process and store

  /**
    The coupling of process and store: a task in flight is running, unless the graph
    has cancelled it, and a running task is in flight, unless a process stranded it.
    The planner cancels a running task only by finishing.
  */
  ghost predicate Coupled(v: View, inFlight: set<Id>, stranded: set<Id>) {
    && inFlight !! stranded
    && (forall n :: n in inFlight || n in stranded ==>
          n in v.nodes && (v.nodes[n].state.Running? || (v.finished && v.nodes[n].state.Cancelled?)))
    && (forall n :: n in v.nodes && v.nodes[n].state.Running? ==> n in inFlight || n in stranded)
  }

  /** What one process has executed: each task once, and none of them to be launched again. */
  ghost predicate Ran(v: View, executed: seq<Id>) {
    && Distinct(executed)
    && (forall n :: n in executed ==> n in v.nodes && !v.nodes[n].state.Pending? && !v.nodes[n].state.Running?)
  }

  /** Launching keeps process and store coupled: each launched task was in nobody's hands. */
  lemma LaunchCouples(st: RunState, ts: seq<TaskSpec>, inFlight: set<Id>, stranded: set<Id>, executed: seq<Id>)
    requires Shaped(st) && AllPending(st, ts)
    requires Coupled(st.view, inFlight, stranded) && Ran(st.view, executed)
    ensures TaskIds(ts) !! inFlight && TaskIds(ts) !! stranded
    ensures Coupled(Marked(st, ts).view, inFlight + TaskIds(ts), stranded)
    ensures Ran(Marked(st, ts).view, executed)
  {
    MarkedLowers(st, ts);
    MarkedLaunched(st, ts);
    forall n | n in TaskIds(ts)
      ensures n in st.view.nodes && st.view.nodes[n].state.Pending?
    {
      var t :| t in ts && t.id == n;
    }
  }

  /** Whatever a running task becomes, it leaves flight and store together. */
  lemma EndCouples(v: View, v': View, n: Id, s: Status, inFlight: set<Id>, stranded: set<Id>, executed: seq<Id>)
    requires Coupled(v, inFlight, stranded) && Ran(v, executed)
    requires n in inFlight && n in v.nodes && v.nodes[n].state.Running?
    requires v'.nodes == v.nodes[n := s] && v'.finished == v.finished && !s.state.Running? && !s.state.Pending?
    ensures Coupled(v', inFlight - {n}, stranded) && Ran(v', executed + [n])
  {
    assert n !in executed;
  }

  /** The patches of the planner: they defer and resume nothing, and cancel no running task. */
  ghost predicate SparesRunning(v: View, p: GraphPatch) {
    && p.wait == [] && p.resume == []
    && (forall n :: n in p.cancel && n in v.nodes ==> !v.nodes[n].state.Running?)
  }

  /** A planner's patch reaches a running task only by finishing, so the coupling survives it. */
  lemma PatchCouples(v: View, p: GraphPatch, trigger: int, inFlight: set<Id>, stranded: set<Id>)
    requires Acceptable(v, p) && SparesRunning(v, p) && Coupled(v, inFlight, stranded)
    ensures Coupled(PatchedView(v, p, trigger), inFlight, stranded)
  {
    forall n | n in v.nodes
      ensures n in PatchedView(v, p, trigger).nodes
      ensures StaysCoupled(v.nodes[n].state, PatchedView(v, p, trigger).nodes[n].state, p.finish)
    {
      PatchedSpares(v, p, trigger, n);
    }
    forall n | n in PatchedView(v, p, trigger).nodes && n !in v.nodes
      ensures !PatchedView(v, p, trigger).nodes[n].state.Running?
    {
    }
    CouplingStays(v, PatchedView(v, p, trigger), inFlight, stranded);
  }

  predicate StaysCoupled(before: NodeState, after: NodeState, finished: bool) {
    && (after.Running? ==> before.Running?)
    && (before.Running? ==> after.Running? || (finished && after.Cancelled?))
    && (before.Cancelled? ==> after.Cancelled?)
  }

  lemma CouplingStays(v: View, v': View, inFlight: set<Id>, stranded: set<Id>)
    requires Coupled(v, inFlight, stranded) && (v.finished ==> v'.finished)
    requires forall n :: n in v.nodes ==>
               n in v'.nodes && StaysCoupled(v.nodes[n].state, v'.nodes[n].state, v'.finished)
    requires forall n :: n in v'.nodes && n !in v.nodes ==> !v'.nodes[n].state.Running?
    ensures Coupled(v', inFlight, stranded)
  {
  }

  lemma PatchRan(v: View, p: GraphPatch, trigger: int, executed: seq<Id>)
    requires Acceptable(v, p) && p.resume == [] && Ran(v, executed)
    ensures Ran(PatchedView(v, p, trigger), executed)
  {
  }

  // ------------------------------------------------------------- what a process reports

  /** The events that tell how a task's execution came out. */
  predicate Tells(e: Event) {
    Outcome(e) || e.TaskWaiting?
  }

  /** The tasks told of in the journal from a place on, in order. */
  function Tellers(es: seq<Event>, from: nat): seq<Id> {
    if |es| <= from then []
    else Tellers(es[..|es| - 1], from) + if Tells(es[|es| - 1]) then [es[|es| - 1].node] else []
  }

  /** A report names, in order, the tasks the journal tells of since the process began, each once. */
  ghost predicate RanAs(st: RunState, from: nat, executed: seq<Id>) {
    Ran(st.view, executed) && from <= |st.events| && executed == Tellers(st.events, from)
  }

  lemma {:induction false} QuietTellers(es: seq<Event>, more: seq<Event>, from: nat)
    requires from <= |es| && forall e :: e in more ==> !Tells(e)
    ensures Tellers(es + more, from) == Tellers(es, from)
    decreases |more|
  {
    if more == [] {
      assert es + more == es;
    } else {
      var front := more[..|more| - 1];
      assert (es + more)[..|es + more| - 1] == es + front;
      assert more[|more| - 1] in more && forall e :: e in front ==> e in more;
      QuietTellers(es, front, from);
    }
  }

  lemma EndReports(st: RunState, st': RunState, e: Event, from: nat, executed: seq<Id>)
    requires RanAs(st, from, executed) && Tells(e)
    requires st'.events == st.events + [e] && Ran(st'.view, executed + [e.node])
    ensures RanAs(st', from, executed + [e.node])
  {
    assert st'.events[..|st.events|] == st.events;
  }

  lemma PatchReports(st: RunState, p: GraphPatch, trigger: int, from: nat, executed: seq<Id>)
    requires Shaped(st) && Acceptable(st.view, p) && p.resume == [] && RanAs(st, from, executed)
    ensures RanAs(Patched(st, p, trigger), from, executed)
  {
    PatchedQuiet(st, p);
    QuietTellers(st.events, Cancellations(st, p) + [GraphPatched(RecordOf(p, trigger))], from);
    PatchRan(st.view, p, trigger, executed);
  }

  // ----------------------------------------------------------------- launches

  /** The latest start of a task, or -1. */
  function StartOf(es: seq<Event>, n: Id): (k: int)
    ensures -1 <= k < |es|
    ensures k >= 0 ==> es[k].TaskStarted? && es[k].node == n
  {
    if es == [] then -1
    else if es[|es| - 1].TaskStarted? && es[|es| - 1].node == n then |es| - 1
    else StartOf(es[..|es| - 1], n)
  }

  lemma {:induction false} StartOfLater(es: seq<Event>, more: seq<Event>, n: Id)
    ensures StartOf(es + more, n) == StartOf(es, n) || StartOf(es + more, n) >= |es|
    ensures (forall e :: e in more ==> !(e.TaskStarted? && e.node == n)) ==> StartOf(es + more, n) == StartOf(es, n)
    ensures (exists e :: e in more && e.TaskStarted? && e.node == n) ==> StartOf(es + more, n) >= |es|
    decreases |more|
  {
    if more == [] {
      assert es + more == es;
    } else {
      var front, last := more[..|more| - 1], more[|more| - 1];
      assert (es + more)[..|es + more| - 1] == es + front && more == front + [last];
      StartOfLater(es, front, n);
    }
  }

  /** Whether an event occurs in the journal after a place. */
  ghost predicate OccursAfter(es: seq<Event>, k: nat, e: Event) {
    exists j :: k < j < |es| && es[j] == e
  }

  lemma OccursStays(es: seq<Event>, more: seq<Event>, k: nat, e: Event)
    requires OccursAfter(es, k, e)
    ensures OccursAfter(es + more, k, e)
  {
    var j :| k < j < |es| && es[j] == e;
    assert (es + more)[j] == e;
  }

  /** What a returned or deferred coroutine writes. */
  function Told(n: Id, how: Ending): Option<Event> {
    match how
    case RaisedCancelled => None
    case Returned(success, payload) => Some(if success then TaskSucceeded(n, payload) else TaskFailed(n, payload))
    case Deferred(w) => Some(TaskWaiting(n, w))
  }

  /**
    What a launch has come to: still in flight; cut short by the end of the run; told in
    the journal just as it ended; or, ended in a cancellation of its own, stranded.
  */
  ghost predicate Accounted(w: Workers, run: RunId, es: seq<Event>, v: View, inFlight: set<Id>, stranded: set<Id>, k: nat)
    requires k < |es| && es[k].TaskStarted?
  {
    var n, told := es[k].node, Told(es[k].node, w(run, es[k].node, k));
    && n in v.nodes
    && (|| (n in inFlight && StartOf(es, n) == k)
        || (v.finished && v.nodes[n].state.Cancelled?)
        || (told.Some? && OccursAfter(es, k, told.value))
        || (told.None? && n in stranded))
  }

  ghost predicate AllAccounted(w: Workers, run: RunId, st: RunState, from: nat, inFlight: set<Id>, stranded: set<Id>) {
    forall k :: from <= k < |st.events| && st.events[k].TaskStarted? ==>
      Accounted(w, run, st.events, st.view, inFlight, stranded, k)
  }

  /** Where flight and strandedness come from: launches of this process, and what was running before it. */
  ghost predicate Explained(
    w: Workers, run: RunId, es: seq<Event>, from: nat, left: set<Id>, inFlight: set<Id>, stranded: set<Id>)
  {
    && left <= stranded
    && (forall n :: n in inFlight ==> StartOf(es, n) >= from)
    && (forall n :: n in stranded ==> if StartOf(es, n) < from then n in left else Stray(w, run, es, n))
  }

  ghost predicate Stray(w: Workers, run: RunId, es: seq<Event>, n: Id) {
    StartOf(es, n) >= 0 && w(run, n, StartOf(es, n)).RaisedCancelled?
  }

  // ------------------------------------------------------------------- the worker bound

  /** The running tasks of this process whose coroutines are alive: those that will not end in a cancellation of their own. */
  ghost function Busy(w: Workers, run: RunId, es: seq<Event>, from: nat): set<Id> {
    var v := Replay(es);
    set n | n in v.nodes && v.nodes[n].state.Running? && StartOf(es, n) >= from && !Stray(w, run, es, n)
  }

  /** At no moment of the journal did this process keep more than `most` tasks busy. */
  ghost predicate Throttled(w: Workers, run: RunId, es: seq<Event>, from: nat, most: nat) {
    forall i :: from <= i <= |es| ==> |Busy(w, run, es[..i], from)| <= most
  }

  lemma StartsOnly(v: View, e: Event, n: Id)
    requires n in Apply(v, e).nodes && Apply(v, e).nodes[n].state.Running?
    ensures (n in v.nodes && v.nodes[n].state.Running?) || (e.TaskStarted? && e.node == n)
  {
  }

  lemma BusyStep(w: Workers, run: RunId, es: seq<Event>, e: Event, from: nat)
    ensures Busy(w, run, es + [e], from) <= Busy(w, run, es, from) + if e.TaskStarted? then {e.node} else {}
  {
    assert (es + [e])[..|es|] == es;
    forall n | n in Busy(w, run, es + [e], from) && !(e.TaskStarted? && e.node == n)
      ensures n in Busy(w, run, es, from)
    {
      StartsOnly(Replay(es), e, n);
    }
  }

  lemma {:induction false} BusyWithin(w: Workers, run: RunId, es: seq<Event>, more: seq<Event>, from: nat, box: set<Id>)
    requires Busy(w, run, es, from) <= box
    requires forall e :: e in more && e.TaskStarted? ==> e.node in box
    ensures Busy(w, run, es + more, from) <= box
    decreases |more|
  {
    if more == [] {
      assert es + more == es;
    } else {
      var front, last := more[..|more| - 1], more[|more| - 1];
      assert es + more == (es + front) + [last] && more == front + [last];
      BusyWithin(w, run, es, front, from, box);
      BusyStep(w, run, es + front, last, from);
    }
  }

  lemma ThrottledOn(w: Workers, run: RunId, es: seq<Event>, more: seq<Event>, from: nat, most: nat, box: set<Id>)
    requires Throttled(w, run, es, from, most)
    requires Busy(w, run, es, from) <= box && |box| <= most
    requires forall e :: e in more && e.TaskStarted? ==> e.node in box
    ensures Throttled(w, run, es + more, from, most)
  {
    var all := es + more;
    forall i | from <= i <= |all|
      ensures |Busy(w, run, all[..i], from)| <= most
    {
      if i <= |es| {
        assert all[..i] == es[..i];
      } else {
        assert all[..i] == es + more[..i - |es|];
        BusyWithin(w, run, es, more[..i - |es|], from, box);
        SubsetSize(Busy(w, run, all[..i], from), box);
      }
    }
  }

  lemma BusyFlies(w: Workers, run: RunId, st: RunState, from: nat, left: set<Id>, inFlight: set<Id>, stranded: set<Id>)
    requires Replay(st.events) == st.view && Coupled(st.view, inFlight, stranded)
    requires Explained(w, run, st.events, from, left, inFlight, stranded)
    ensures Busy(w, run, st.events, from) <= inFlight
  {
  }

  // --------------------------------------------------------------- what a process keeps

  /** Everything one process keeps true of the run it drives. */
  ghost predicate Held(
    w: Workers, run: RunId, st: RunState, from: nat, left: set<Id>, inFlight: set<Id>, stranded: set<Id>, most: nat)
  {
    && from <= |st.events|
    && Coupled(st.view, inFlight, stranded)
    && Explained(w, run, st.events, from, left, inFlight, stranded)
    && AllAccounted(w, run, st, from, inFlight, stranded)
    && Throttled(w, run, st.events, from, most)
  }

  /** How an operation moves a run on, as far as launches go. */
  ghost predicate Moves(st: RunState, st': RunState, more: seq<Event>) {
    && st'.events == st.events + more
    && st.view.nodes.Keys <= st'.view.nodes.Keys
    && (st.view.finished ==> st'.view.finished)
    && (forall n :: n in st.view.nodes && st.view.finished && st.view.nodes[n].state.Cancelled? ==>
          st'.view.nodes[n].state.Cancelled?)
  }

  lemma AccountedStays(
    w: Workers, run: RunId, st: RunState, st': RunState, more: seq<Event>, inFlight: set<Id>, inFlight': set<Id>,
    stranded: set<Id>, stranded': set<Id>, k: nat)
    requires Moves(st, st', more) && k < |st.events| && st.events[k].TaskStarted?
    requires Accounted(w, run, st.events, st.view, inFlight, stranded, k) && stranded <= stranded'
    requires st.events[k].node in inFlight ==>
               (st.events[k].node in inFlight' && StartOf(st'.events, st.events[k].node) == StartOf(st.events, st.events[k].node))
    ensures Accounted(w, run, st'.events, st'.view, inFlight', stranded', k)
  {
    var told := Told(st.events[k].node, w(run, st.events[k].node, k));
    if told.Some? && OccursAfter(st.events, k, told.value) {
      OccursStays(st.events, more, k, told.value);
    }
  }

  /** A process begins with nothing in flight, and with what an earlier one left running if it does not resume. */
  lemma HeldAtFirst(w: Workers, run: RunId, st: RunState, from: nat, left: set<Id>, most: nat)
    requires from <= |st.events| && Sound(st)
    requires forall k :: from <= k < |st.events| ==> !st.events[k].TaskStarted?
    requires left == set n | n in st.view.nodes && st.view.nodes[n].state.Running?
    ensures Held(w, run, st, from, left, {}, left, most)
  {
    forall n
      ensures StartOf(st.events, n) < from
    {
    }
    forall i | from <= i <= |st.events|
      ensures |Busy(w, run, st.events[..i], from)| <= most
    {
      forall n
        ensures StartOf(st.events[..i], n) < from
      {
      }
      assert Busy(w, run, st.events[..i], from) == {};
    }
  }

  /** The journal of a launch: a start for each task. */
  function Starts(ts: seq<TaskSpec>): seq<Event> {
    if ts == [] then []
    else Starts(ts[..|ts| - 1]) + [TaskStarted(ts[|ts| - 1].id, ts[|ts| - 1].skill, AgentOf(ts[|ts| - 1]))]
  }

  lemma {:induction false} StartsAt(ts: seq<TaskSpec>)
    ensures |Starts(ts)| == |ts| && forall i :: 0 <= i < |ts| ==> Starts(ts)[i].TaskStarted? && Starts(ts)[i].node == ts[i].id
  {
    if ts != [] {
      StartsAt(ts[..|ts| - 1]);
    }
  }

  lemma StartsName(ts: seq<TaskSpec>)
    ensures forall e :: e in Starts(ts) ==> e.TaskStarted? && e.node in TaskIds(ts)
    ensures forall n :: n in TaskIds(ts) ==> exists e :: e in Starts(ts) && e.TaskStarted? && e.node == n
    ensures |Starts(ts)| == |ts| && forall i :: 0 <= i < |ts| ==> Starts(ts)[i].TaskStarted? && Starts(ts)[i].node == ts[i].id
  {
    StartsAt(ts);
    forall n | n in TaskIds(ts)
      ensures exists e :: e in Starts(ts) && e.TaskStarted? && e.node == n
    {
      var i :| 0 <= i < |ts| && ts[i].id == n;
      assert Starts(ts)[i] in Starts(ts);
    }
  }

  lemma StillPending(st: RunState, ts: seq<TaskSpec>, n: Id)
    requires AllPending(st, ts) && n in st.view.nodes && n !in TaskIds(ts)
    ensures Marked(st, ts).view.nodes[n] == st.view.nodes[n]
  {
    MarkedNodes(st, ts);
  }

  lemma {:induction false} MarkedStarts(st: RunState, ts: seq<TaskSpec>)
    requires AllPending(st, ts)
    ensures Marked(st, ts).events == st.events + Starts(ts)
  {
    if ts == [] {
      assert st.events + Starts(ts) == st.events;
    } else {
      var front, last := ts[..|ts| - 1], ts[|ts| - 1];
      assert ts == front + [last] && last in ts;
      LastIsNew(ts);
      MarkedStarts(st, front);
      StillPending(st, front, last.id);
      var e := TaskStarted(last.id, last.skill, AgentOf(last));
      assert Marked(st, ts).events == Marked(st, front).events + [e];
      assert st.events + Starts(ts) == st.events + Starts(front) + [e];
    }
  }

  lemma LaunchReports(st: RunState, ts: seq<TaskSpec>, from: nat, executed: seq<Id>)
    requires AllPending(st, ts) && RanAs(st, from, executed) && Ran(Marked(st, ts).view, executed)
    ensures RanAs(Marked(st, ts), from, executed)
  {
    MarkedStarts(st, ts);
    StartsName(ts);
    QuietTellers(st.events, Starts(ts), from);
  }

  lemma {:induction false} StartPlace(es: seq<Event>, ts: seq<TaskSpec>, i: nat)
    requires i < |ts| && NoneTwice(ts)
    ensures StartOf(es + Starts(ts), ts[i].id) == |es| + i
    decreases |ts|
  {
    var front, last := ts[..|ts| - 1], ts[|ts| - 1];
    LastIsNew(ts);
    StartsAt(ts);
    assert (es + Starts(ts))[..|es + Starts(ts)| - 1] == es + Starts(front);
    if i < |front| {
      StartPlace(es, front, i);
    }
  }

  lemma HeldLaunch(
    w: Workers, run: RunId, st: RunState, ts: seq<TaskSpec>, from: nat, left: set<Id>, inFlight: set<Id>,
    stranded: set<Id>, most: nat)
    requires Sound(st) && AllPending(st, ts) && Held(w, run, st, from, left, inFlight, stranded, most)
    requires |inFlight + TaskIds(ts)| <= most
    ensures Held(w, run, Marked(st, ts), from, left, inFlight + TaskIds(ts), stranded, most)
  {
    var more, box := Starts(ts), inFlight + TaskIds(ts);
    MarkedStarts(st, ts);
    StartsName(ts);
    LaunchCouples(st, ts, inFlight, stranded, []);
    BusyFlies(w, run, st, from, left, inFlight, stranded);
    ThrottledOn(w, run, st.events, more, from, most, box);
    ExplainedLaunch(w, run, st.events, ts, from, left, inFlight, stranded);
    AccountedLaunch(w, run, st, ts, from, inFlight, stranded);
  }

  lemma ExplainedLaunch(
    w: Workers, run: RunId, es: seq<Event>, ts: seq<TaskSpec>, from: nat, left: set<Id>, inFlight: set<Id>,
    stranded: set<Id>)
    requires Explained(w, run, es, from, left, inFlight, stranded) && from <= |es| && TaskIds(ts) !! stranded
    ensures Explained(w, run, es + Starts(ts), from, left, inFlight + TaskIds(ts), stranded)
  {
    StartsName(ts);
    forall n
      ensures n in TaskIds(ts) ==> StartOf(es + Starts(ts), n) >= |es|
      ensures n !in TaskIds(ts) ==> StartOf(es + Starts(ts), n) == StartOf(es, n)
    {
      StartOfLater(es, Starts(ts), n);
    }
  }

  lemma AccountedLaunch(
    w: Workers, run: RunId, st: RunState, ts: seq<TaskSpec>, from: nat, inFlight: set<Id>, stranded: set<Id>)
    requires Shaped(st) && AllPending(st, ts) && TaskIds(ts) !! inFlight
    requires AllAccounted(w, run, st, from, inFlight, stranded)
    ensures AllAccounted(w, run, Marked(st, ts), from, inFlight + TaskIds(ts), stranded)
  {
    var st', more, box := Marked(st, ts), Starts(ts), inFlight + TaskIds(ts);
    MarkedMoves(st, ts);
    assert |Starts(ts)| == |ts| by { StartsName(ts); }
    forall k | from <= k < |st'.events| && st'.events[k].TaskStarted?
      ensures Accounted(w, run, st'.events, st'.view, box, stranded, k)
    {
      if k < |st.events| {
        if st.events[k].node in inFlight {
          OldStartStays(st.events, ts, st.events[k].node);
        }
        AccountedStays(w, run, st, st', more, inFlight, box, stranded, stranded, k);
      } else {
        NewStart(st.events, ts, k);
      }
    }
  }

  lemma OldStartStays(es: seq<Event>, ts: seq<TaskSpec>, n: Id)
    requires n !in TaskIds(ts)
    ensures StartOf(es + Starts(ts), n) == StartOf(es, n)
  {
    StartsName(ts);
    StartOfLater(es, Starts(ts), n);
  }

  lemma NewStart(es: seq<Event>, ts: seq<TaskSpec>, k: nat)
    requires forall a, b :: 0 <= a < b < |ts| ==> ts[a].id != ts[b].id
    requires |es| <= k < |es + Starts(ts)| && |Starts(ts)| == |ts|
    ensures (es + Starts(ts))[k].TaskStarted? && (es + Starts(ts))[k].node in TaskIds(ts)
    ensures StartOf(es + Starts(ts), (es + Starts(ts))[k].node) == k
  {
    StartsName(ts);
    StartPlace(es, ts, k - |es|);
    assert ts[k - |es|] in ts;
  }

  lemma MarkedMoves(st: RunState, ts: seq<TaskSpec>)
    requires AllPending(st, ts)
    ensures Moves(st, Marked(st, ts), Starts(ts))
  {
    MarkedStarts(st, ts);
    MarkedLaunched(st, ts);
  }

  /** An event that starts nothing leaves every start where it is. */
  lemma QuietStartPlaces(es: seq<Event>, more: seq<Event>)
    requires forall e :: e in more ==> !e.TaskStarted?
    ensures forall n :: StartOf(es + more, n) == StartOf(es, n)
  {
    forall n
      ensures StartOf(es + more, n) == StartOf(es, n)
    {
      StartOfLater(es, more, n);
    }
  }

  /** A running task's end, told in the journal as its coroutine ended. */
  lemma HeldEnd(
    w: Workers, run: RunId, st: RunState, st': RunState, n: Id, e: Event, from: nat, left: set<Id>,
    inFlight: set<Id>, stranded: set<Id>, most: nat)
    requires Sound(st) && Held(w, run, st, from, left, inFlight, stranded, most)
    requires n in inFlight && IsRunning(st, n) && StartOf(st.events, n) >= 0 && |inFlight| <= most
    requires Told(n, w(run, n, StartOf(st.events, n))) == Some(e)
    requires st'.events == st.events + [e] && st'.view.finished == st.view.finished
    requires n in st'.view.nodes && st'.view.nodes == st.view.nodes[n := st'.view.nodes[n]]
    requires !st'.view.nodes[n].state.Running? && !st'.view.nodes[n].state.Pending?
    ensures Held(w, run, st', from, left, inFlight - {n}, stranded, most)
  {
    EndAccounts(w, run, st, st', n, e, from, inFlight, stranded);
    EndCouples(st.view, st'.view, n, st'.view.nodes[n], inFlight, stranded, []);
    EndExplained(w, run, st.events, e, n, from, left, inFlight, stranded);
    BusyFlies(w, run, st, from, left, inFlight, stranded);
    EndThrottled(w, run, st.events, e, from, most, inFlight);
  }

  lemma EndExplained(
    w: Workers, run: RunId, es: seq<Event>, e: Event, n: Id, from: nat, left: set<Id>, inFlight: set<Id>, stranded: set<Id>)
    requires Explained(w, run, es, from, left, inFlight, stranded) && !e.TaskStarted?
    ensures Explained(w, run, es + [e], from, left, inFlight - {n}, stranded)
  {
    QuietStartPlaces(es, [e]);
  }

  lemma EndThrottled(w: Workers, run: RunId, es: seq<Event>, e: Event, from: nat, most: nat, box: set<Id>)
    requires Throttled(w, run, es, from, most) && !e.TaskStarted?
    requires Busy(w, run, es, from) <= box && |box| <= most
    ensures Throttled(w, run, es + [e], from, most)
  {
    ThrottledOn(w, run, es, [e], from, most, box);
  }

  lemma EndAccounts(
    w: Workers, run: RunId, st: RunState, st': RunState, n: Id, e: Event, from: nat, inFlight: set<Id>, stranded: set<Id>)
    requires AllAccounted(w, run, st, from, inFlight, stranded)
    requires n in inFlight && n in st.view.nodes && StartOf(st.events, n) >= 0
    requires Told(n, w(run, n, StartOf(st.events, n))) == Some(e)
    requires st'.events == st.events + [e] && st'.view.finished == st.view.finished
    requires n in st'.view.nodes && st'.view.nodes == st.view.nodes[n := st'.view.nodes[n]]
    requires st.view.nodes[n].state.Running?
    ensures AllAccounted(w, run, st', from, inFlight - {n}, stranded)
  {
    QuietStartPlaces(st.events, [e]);
    forall k | from <= k < |st'.events| && st'.events[k].TaskStarted?
      ensures Accounted(w, run, st'.events, st'.view, inFlight - {n}, stranded, k)
    {
      assert k < |st.events| && Accounted(w, run, st.events, st.view, inFlight, stranded, k);
      if k == StartOf(st.events, n) {
        assert st'.events[|st.events|] == e;
      } else {
        AccountedElsewhere(w, run, st, st', [e], n, inFlight, stranded, k);
      }
    }
  }

  lemma AccountedElsewhere(
    w: Workers, run: RunId, st: RunState, st': RunState, more: seq<Event>, n: Id, inFlight: set<Id>,
    stranded: set<Id>, k: nat)
    requires Moves(st, st', more) && k < |st.events| && st.events[k].TaskStarted?
    requires Accounted(w, run, st.events, st.view, inFlight, stranded, k)
    requires n in inFlight ==> StartOf(st.events, n) != k
    requires forall m :: StartOf(st'.events, m) == StartOf(st.events, m)
    ensures Accounted(w, run, st'.events, st'.view, inFlight - {n}, stranded, k)
  {
    var told := Told(st.events[k].node, w(run, st.events[k].node, k));
    if told.Some? && OccursAfter(st.events, k, told.value) {
      OccursStays(st.events, more, k, told.value);
    }
  }

  /** The end of a task that the finished graph has cancelled is discarded. */
  lemma HeldDiscard(
    w: Workers, run: RunId, st: RunState, n: Id, from: nat, left: set<Id>, inFlight: set<Id>, stranded: set<Id>,
    most: nat)
    requires Held(w, run, st, from, left, inFlight, stranded, most)
    requires n in inFlight && st.view.nodes[n].state.Cancelled?
    ensures Held(w, run, st, from, left, inFlight - {n}, stranded, most)
  {
    forall k | from <= k < |st.events| && st.events[k].TaskStarted?
      ensures Accounted(w, run, st.events, st.view, inFlight - {n}, stranded, k)
    {
      assert Accounted(w, run, st.events, st.view, inFlight, stranded, k);
    }
  }

  /** A coroutine that ends in a cancellation of its own strands its running task. */
  lemma HeldStray(
    w: Workers, run: RunId, st: RunState, n: Id, from: nat, left: set<Id>, inFlight: set<Id>, stranded: set<Id>,
    most: nat)
    requires Held(w, run, st, from, left, inFlight, stranded, most)
    requires n in inFlight && IsRunning(st, n) && Stray(w, run, st.events, n)
    ensures Held(w, run, st, from, left, inFlight - {n}, stranded + {n}, most)
  {
    forall k | from <= k < |st.events| && st.events[k].TaskStarted?
      ensures Accounted(w, run, st.events, st.view, inFlight - {n}, stranded + {n}, k)
    {
      assert Accounted(w, run, st.events, st.view, inFlight, stranded, k);
    }
  }

  lemma HeldPatch(
    w: Workers, run: RunId, st: RunState, p: GraphPatch, trigger: int, from: nat, left: set<Id>,
    inFlight: set<Id>, stranded: set<Id>, most: nat)
    requires Sound(st) && Acceptable(st.view, p) && SparesRunning(st.view, p)
    requires Held(w, run, st, from, left, inFlight, stranded, most) && |inFlight| <= most
    ensures Held(w, run, Patched(st, p, trigger), from, left, inFlight, stranded, most)
  {
    var more := Cancellations(st, p) + [GraphPatched(RecordOf(p, trigger))];
    PatchMoves(st, p, trigger);
    QuietStartPlaces(st.events, more);
    PatchCouples(st.view, p, trigger, inFlight, stranded);
    BusyFlies(w, run, st, from, left, inFlight, stranded);
    ThrottledOn(w, run, st.events, more, from, most, inFlight);
    QuietAccounted(w, run, st, Patched(st, p, trigger), more, from, inFlight, stranded);
  }

  lemma PatchMoves(st: RunState, p: GraphPatch, trigger: int)
    requires Shaped(st) && Acceptable(st.view, p)
    ensures
      var more := Cancellations(st, p) + [GraphPatched(RecordOf(p, trigger))];
      Moves(st, Patched(st, p, trigger), more) && forall e :: e in more ==> !e.TaskStarted?
  {
    PatchedQuiet(st, p);
    forall n | n in st.view.nodes {
      PatchedSpares(st.view, p, trigger, n);
    }
  }

  lemma QuietAccounted(
    w: Workers, run: RunId, st: RunState, st': RunState, more: seq<Event>, from: nat, inFlight: set<Id>,
    stranded: set<Id>)
    requires Moves(st, st', more) && forall e :: e in more ==> !e.TaskStarted?
    requires AllAccounted(w, run, st, from, inFlight, stranded)
    ensures AllAccounted(w, run, st', from, inFlight, stranded)
  {
    QuietStartPlaces(st.events, more);
    assert forall k :: |st.events| <= k < |st'.events| ==> st'.events[k] == more[k - |st.events|];
    forall k | from <= k < |st'.events| && st'.events[k].TaskStarted?
      ensures Accounted(w, run, st'.events, st'.view, inFlight, stranded, k)
    {
      AccountedStays(w, run, st, st', more, inFlight, inFlight, stranded, stranded, k);
    }
  }

  // -------------------------------------------------------------------- when it stops

  /** A launch of this process whose coroutine ended in a cancellation of its own. */
  ghost predicate WentAstray(w: Workers, run: RunId, es: seq<Event>, from: nat, n: Id, k: nat) {
    from <= k < |es| && es[k].TaskStarted? && es[k].node == n && w(run, n, k).RaisedCancelled?
  }

  /** What was running before and not resumed, and what went astray since. */
  ghost function Strays(w: Workers, run: RunId, st: RunState, from: nat, left: set<Id>): set<Id> {
    set n | n in st.view.nodes && (n in left || exists k :: WentAstray(w, run, st.events, from, n, k))
  }

  /** What a launch has come to once nothing is in flight. */
  ghost predicate CameTo(w: Workers, run: RunId, st: RunState, k: nat)
    requires k < |st.events| && st.events[k].TaskStarted?
  {
    var n, told := st.events[k].node, Told(st.events[k].node, w(run, st.events[k].node, k));
    && n in st.view.nodes
    && (|| (st.view.finished && st.view.nodes[n].state.Cancelled?)
        || (match told
            case Some(e) => OccursAfter(st.events, k, e)
            case None => st.view.nodes[n].state.Running?))
  }

  lemma Landed(w: Workers, run: RunId, st: RunState, from: nat, left: set<Id>, stranded: set<Id>, most: nat)
    requires Sound(st) && Held(w, run, st, from, left, {}, stranded, most)
    ensures forall k :: from <= k < |st.events| && st.events[k].TaskStarted? ==> CameTo(w, run, st, k)
    ensures !st.view.finished ==>
              forall n :: n in st.view.nodes ==>
                (st.view.nodes[n].state.Running? <==> n in Strays(w, run, st, from, left))
  {
    forall k | from <= k < |st.events| && st.events[k].TaskStarted?
      ensures CameTo(w, run, st, k)
    {
      assert Accounted(w, run, st.events, st.view, {}, stranded, k);
    }
    if !st.view.finished {
      forall n | n in st.view.nodes
        ensures st.view.nodes[n].state.Running? <==> n in Strays(w, run, st, from, left)
      {
        RunsAstray(w, run, st, from, left, stranded, most, n);
      }
    }
  }

  lemma RunsAstray(w: Workers, run: RunId, st: RunState, from: nat, left: set<Id>, stranded: set<Id>, most: nat, n: Id)
    requires Held(w, run, st, from, left, {}, stranded, most) && !st.view.finished && n in st.view.nodes
    ensures st.view.nodes[n].state.Running? <==> n in Strays(w, run, st, from, left)
  {
    if st.view.nodes[n].state.Running? && n !in left {
      assert n in stranded && StartOf(st.events, n) >= from;
      assert WentAstray(w, run, st.events, from, n, StartOf(st.events, n));
    }
    if k :| WentAstray(w, run, st.events, from, n, k) {
      assert Accounted(w, run, st.events, st.view, {}, stranded, k);
    }
  }

  /** Nothing in flight, nothing ready, nothing unplanned: the run is at rest. */
  lemma Stopped(w: Workers, run: RunId, st: RunState, from: nat, left: set<Id>, stranded: set<Id>, most: nat)
    requires Sound(st) && Unplanned(st.events, st.view.applied) == [] && !st.view.finished
    requires Held(w, run, st, from, left, {}, stranded, most)
    requires forall n :: n in st.view.nodes ==> !IsReady(st.view, n)
    ensures Quiescent(st, Strays(w, run, st, from, left))
  {
    var strays := Strays(w, run, st, from, left);
    Landed(w, run, st, from, left, stranded, most);
    forall n | n in st.view.nodes && st.view.nodes[n].state.Pending?
      ensures exists chain :: BlockedBy(st.view, strays, chain, n)
    {
      var chain := PendingIsBlocked(st.view, strays, n);
    }
  }

  /** No coroutine ends in a cancellation of its own. */
  ghost predicate WellBehaved(w: Workers, run: RunId) {
    forall n, k :: !w(run, n, k).RaisedCancelled?
  }

  lemma NoStrays(w: Workers, run: RunId, st: RunState, from: nat)
    requires WellBehaved(w, run)
    ensures Strays(w, run, st, from, {}) == {}
  {
  }

  const ONE_TASK := TaskSpec("a", "skill", "{}", TaskMeta(None, false, None))

  const ONE_PATCH := GraphPatch([ONE_TASK], [], [], [], [], false, "", "")

  lemma OneAcceptable()
    ensures Acceptable(EMPTY, ONE_PATCH)
  {
    assert AddIds(ONE_PATCH) == ["a"];
    Dag.RankedIsDag(GrownIds(EMPTY, ONE_PATCH), EMPTY.edges + Elements(ONE_PATCH.connect), map["a" := 0]);
  }

  lemma OneView()
    ensures
      var v := PatchedView(EMPTY, ONE_PATCH, 1);
      v.nodes == map["a" := FRESH] && v.edges == {} && v.applied.Keys == {1} && !v.finished
  {
    assert AddIds(ONE_PATCH) == ["a"];
    assert GrownIds(EMPTY, ONE_PATCH) == {"a"};
    assert PatchedView(EMPTY, ONE_PATCH, 1).nodes["a"] == FRESH;
  }

  /** A run whose planner has added one task. */
  lemma OnePlanned() returns (st: RunState)
    ensures Sound(st) && st.events == [RunStarted, GraphPatched(RecordOf(ONE_PATCH, 1))] && !st.view.finished
    ensures st.view.nodes == map["a" := FRESH] && st.view.edges == {} && st.view.applied.Keys == {1}
  {
    FreshKeeps("");
    OneAcceptable();
    PatchedKeeps(Fresh(""), ONE_PATCH, 1);
    st := Patched(Fresh(""), ONE_PATCH, 1);
    OneView();
  }

  lemma OneStarted(w: Workers, run: RunId) returns (st: RunState)
    ensures Sound(st) && !st.view.finished && st.view.nodes == map["a" := FRESH.(state := Running)]
    ensures st.view.applied.Keys == {1} && |st.events| == 3
    ensures st.events[0] == RunStarted && st.events[1].GraphPatched? && st.events[2] == TaskStarted("a", "skill", "skill")
    ensures Held(w, run, st, 0, {}, {"a"}, {}, 1)
  {
    var planned := OnePlanned();
    var ts := [ONE_TASK];
    OneLaunchable(planned);
    HeldAtFirst(w, run, planned, 0, {}, 1);
    HeldLaunch(w, run, planned, ts, 0, {}, {}, {}, 1);
    st := Marked(planned, ts);
    OneMarked(planned);
    assert {} + TaskIds(ts) == {"a"};
  }

  lemma OneLaunchable(planned: RunState)
    requires planned.view.nodes == map["a" := FRESH]
    ensures AllPending(planned, [ONE_TASK]) && TaskIds([ONE_TASK]) == {"a"}
    ensures {} + TaskIds([ONE_TASK]) == {"a"} && |{} + TaskIds([ONE_TASK])| == 1
  {
    assert ONE_TASK in [ONE_TASK];
    assert {} + TaskIds([ONE_TASK]) == {"a"};
  }

  lemma OneMarked(planned: RunState)
    requires Sound(planned) && planned.view.nodes == map["a" := FRESH]
    ensures
      var st := Marked(planned, [ONE_TASK]);
      && Sound(st) && st.view == planned.view.(nodes := map["a" := FRESH.(state := Running)])
      && st.events == planned.events + [TaskStarted("a", "skill", "skill")]
  {
    var ts := [ONE_TASK];
    assert ts[..0] == [];
    MarkedKeeps(planned, ts);
  }

  /**
    The input that strands a task: one task, started, whose worker raises a cancellation.
    The run is at rest with that task running, and would not be called so otherwise.
  */
  lemma OneStray(w: Workers, run: RunId) returns (st: RunState)
    requires w(run, "a", 2) == RaisedCancelled
    ensures Sound(st) && !st.view.finished && st.view.nodes == map["a" := FRESH.(state := Running)]
    ensures Held(w, run, st, 0, {}, {}, {"a"}, 1)
    ensures Quiescent(st, {"a"}) && !Quiescent(st, {})
  {
    st := OneStarted(w, run);
    assert StartOf(st.events, "a") == 2;
    HeldStray(w, run, st, "a", 0, {}, {"a"}, {}, 1);
    assert {"a"} - {"a"} == {} && {} + {"a"} == {"a"};
    OneAnswered(st.events, st.view.applied);
    assert "a" in st.view.nodes;
  }

  lemma OneAnswered(es: seq<Event>, applied: map<int, PatchRecord>)
    requires |es| == 3 && es[0] == RunStarted && es[1].GraphPatched? && es[2].TaskStarted? && 1 in applied
    ensures Unplanned(es, applied) == []
  {
    assert es[..2][..1] == es[..1] && es[..1][..0] == [];
    assert Unplanned(es[..1], applied) == [];
    assert Unplanned(es[..2], applied) == [];
  }
}
