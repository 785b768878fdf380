/**
  External completion over whole histories of a store: many runs, deliveries through
  the handle index whatever it holds, and every other operation in between.
*/
module Deliveries {
  import opened LiveGraph
  import opened RunOps
  import opened RunInvariants
  import opened RunHistory
  import opened GraphStore

  datatype Store = Store(runs: map<RunId, RunState>, index: map<string, RunId>)

  /** Any operation on any run, a delivery through the index, or any change at all of the index. */
  datatype Move =
    | Open(run: RunId, context: Json)
    | Local(run: RunId, op: Op)
    | Deliver(handle: string, eventType: string, payload: Json, success: bool)
    | Index(index: map<string, RunId>)

  ghost predicate AllSound(runs: map<RunId, RunState>) {
    forall r :: r in runs ==> Sound(runs[r])
  }

  ghost function Next(s: Store, m: Move): Store
    requires AllSound(s.runs)
  {
    match m
    case Open(run, context) => if run in s.runs then s else s.(runs := s.runs[run := Fresh(context)])
    case Local(run, op) => if run in s.runs then s.(runs := s.runs[run := Step(s.runs[run], op)]) else s
    case Deliver(handle, eventType, payload, success) =>
      s.(runs := Delivered(s.runs, s.index, handle, eventType, payload, success))
    case Index(index) => s.(index := index)
  }

  /** A move changes one run at most, and by an operation of its own. */
  ghost predicate OneStep(runs: map<RunId, RunState>, runs': map<RunId, RunState>) {
    || runs' == runs
    || (exists run, context :: run !in runs && runs' == runs[run := Fresh(context)])
    || (exists run, op :: StepsBy(runs, runs', run, op))
  }

  ghost predicate StepsBy(runs: map<RunId, RunState>, runs': map<RunId, RunState>, run: RunId, op: Op) {
    run in runs && Sound(runs[run]) && runs' == runs[run := Step(runs[run], op)]
  }

  lemma NextIsOneStep(s: Store, m: Move)
    requires AllSound(s.runs)
    ensures OneStep(s.runs, Next(s, m).runs)
  {
    match m
    case Open(run, context) =>
    case Local(run, op) =>
      if run in s.runs {
        assert StepsBy(s.runs, Next(s, m).runs, run, op);
      }
    case Deliver(handle, eventType, payload, success) =>
      DeliveryIsOneStep(s.runs, s.index, handle, eventType, payload, success);
    case Index(_) =>
  }

  lemma DeliveryIsOneStep(
    runs: map<RunId, RunState>, index: map<string, RunId>, handle: string, eventType: string, payload: Json, success: bool)
    requires AllSound(runs)
    ensures OneStep(runs, Delivered(runs, index, handle, eventType, payload, success))
  {
    if |Resolved(runs, index, handle, eventType)| == 1 {
      var w := CompletedOne(runs, index, handle, eventType, payload, success);
      WaitersWait(runs, index, handle, eventType, w);
      StepsAtWaiter(runs, w.0, w.1, handle, eventType, payload, success);
    }
  }

  lemma StepsAtWaiter(
    runs: map<RunId, RunState>, run: RunId, n: Id, handle: string, eventType: string, payload: Json, success: bool)
    requires AllSound(runs) && run in runs && WaitsOn(runs[run].view, n, handle, eventType)
    ensures OneStep(runs, runs[run := Completed(runs[run], n, handle, eventType, payload, success)])
  {
    DeliveredTo(runs[run], n, handle, eventType, payload, success);
    assert StepsBy(runs, runs[run := Completed(runs[run], n, handle, eventType, payload, success)], run,
                   Complete(n, handle, eventType, payload, success));
  }

  lemma OneStepSound(runs: map<RunId, RunState>, runs': map<RunId, RunState>)
    requires AllSound(runs) && OneStep(runs, runs')
    ensures AllSound(runs')
  {
    if run, context :| run !in runs && runs' == runs[run := Fresh(context)] {
      FreshKeeps(context);
      OneMoreSound(runs, run, Fresh(context));
    } else if run, op :| StepsBy(runs, runs', run, op) {
      StepSound(runs[run], op);
      OneMoreSound(runs, run, Step(runs[run], op));
    }
  }

  lemma OneMoreSound(runs: map<RunId, RunState>, run: RunId, st: RunState)
    requires AllSound(runs) && Sound(st)
    ensures AllSound(runs[run := st])
  {
  }

  lemma NextSound(s: Store, m: Move)
    requires AllSound(s.runs)
    ensures AllSound(Next(s, m).runs)
  {
    NextIsOneStep(s, m);
    OneStepSound(s.runs, Next(s, m).runs);
  }

  /** A delivery that finds one task is that task's completion. */
  lemma DeliveredTo(st: RunState, n: Id, handle: string, eventType: string, payload: Json, success: bool)
    requires Sound(st) && WaitsOn(st.view, n, handle, eventType)
    ensures Step(st, Complete(n, handle, eventType, payload, success)) ==
            Completed(st, n, handle, eventType, payload, success)
  {
  }

  lemma CompletedOne(
    runs: map<RunId, RunState>, index: map<string, RunId>, handle: string, eventType: string, payload: Json, success: bool)
    returns (w: (RunId, Id))
    requires |Resolved(runs, index, handle, eventType)| == 1
    ensures w in Resolved(runs, index, handle, eventType)
    ensures w.0 in runs && w.1 in runs[w.0].view.nodes
    ensures Delivered(runs, index, handle, eventType, payload, success) ==
            runs[w.0 := Completed(runs[w.0], w.1, handle, eventType, payload, success)]
  {
    var found := Resolved(runs, index, handle, eventType);
    w :| w in found && Delivered(runs, index, handle, eventType, payload, success) ==
                       runs[w.0 := Completed(runs[w.0], w.1, handle, eventType, payload, success)];
  }

  lemma WaitersWait(
    runs: map<RunId, RunState>, index: map<string, RunId>, handle: string, eventType: string, w: (RunId, Id))
    requires w in Resolved(runs, index, handle, eventType)
    ensures w.0 in runs && WaitsOn(runs[w.0].view, w.1, handle, eventType)
  {
  }

  /** The store after a whole history. */
  ghost function Tale(moves: seq<Move>): (s: Store)
    ensures AllSound(s.runs)
  {
    if moves == [] then Store(map[], map[])
    else
      NextSound(Tale(moves[..|moves| - 1]), moves[|moves| - 1]);
      Next(Tale(moves[..|moves| - 1]), moves[|moves| - 1])
  }

  // ------------------------------------------------------------ parks and receipts

  predicate ParksOn(e: Event, handle: string, eventType: string) {
    e.TaskWaiting? && e.wait.handle == handle && e.wait.eventType == eventType
  }

  predicate ReceivesOn(e: Event, handle: string, eventType: string) {
    e.ExternalReceived? && e.handle == handle && e.eventType == eventType
  }

  /** How often a task of the run was parked on a handle. */
  function Parks(es: seq<Event>, handle: string, eventType: string): nat {
    if es == [] then 0
    else Parks(es[..|es| - 1], handle, eventType) + if ParksOn(es[|es| - 1], handle, eventType) then 1 else 0
  }

  /** How often a delivery on the handle reached the run. */
  function Receipts(es: seq<Event>, handle: string, eventType: string): nat {
    if es == [] then 0
    else Receipts(es[..|es| - 1], handle, eventType) + if ReceivesOn(es[|es| - 1], handle, eventType) then 1 else 0
  }

  /** The tasks that still bear a wait on the handle, waiting or not. */
  function Bearers(v: View, handle: string, eventType: string): set<Id> {
    set n | n in v.nodes && v.nodes[n].wait.Some? && v.nodes[n].wait.value.handle == handle
            && v.nodes[n].wait.value.eventType == eventType
  }

  /** Every receipt answers a park, and so does every wait still borne. */
  predicate Balanced(st: RunState, handle: string, eventType: string) {
    Receipts(st.events, handle, eventType) + |Bearers(st.view, handle, eventType)| <= Parks(st.events, handle, eventType)
  }

  lemma {:induction false} CountsSplit(es: seq<Event>, more: seq<Event>, handle: string, eventType: string)
    ensures Parks(es + more, handle, eventType) == Parks(es, handle, eventType) + Parks(more, handle, eventType)
    ensures Receipts(es + more, handle, eventType) == Receipts(es, handle, eventType) + Receipts(more, handle, eventType)
    decreases |more|
  {
    if more == [] {
      assert es + more == es;
    } else {
      var front := more[..|more| - 1];
      assert (es + more)[..|es + more| - 1] == es + front;
      CountsSplit(es, front, handle, eventType);
    }
  }

  lemma {:induction false} QuietCounts(more: seq<Event>, handle: string, eventType: string)
    requires forall e :: e in more ==> !ReceivesOn(e, handle, eventType)
    ensures Receipts(more, handle, eventType) == 0
  {
    if more != [] {
      QuietCounts(more[..|more| - 1], handle, eventType);
      assert more[|more| - 1] in more;
    }
  }

  /** An operation that receives nothing and gives no task a wait keeps the balance. */
  lemma QuietStep(st: RunState, st': RunState, more: seq<Event>, handle: string, eventType: string)
    requires Balanced(st, handle, eventType) && st'.events == st.events + more
    requires forall e :: e in more ==> !ReceivesOn(e, handle, eventType)
    requires forall n :: n in st'.view.nodes && st'.view.nodes[n].wait.Some? ==>
               n in st.view.nodes && st.view.nodes[n].wait == st'.view.nodes[n].wait
    ensures Balanced(st', handle, eventType)
  {
    CountsSplit(st.events, more, handle, eventType);
    QuietCounts(more, handle, eventType);
    SubsetSize(Bearers(st'.view, handle, eventType), Bearers(st.view, handle, eventType));
  }

  lemma ParkBalances(st: RunState, n: Id, w: Wait, handle: string, eventType: string)
    requires Balanced(st, handle, eventType) && n in st.view.nodes
    ensures Balanced(Parked(st, n, w), handle, eventType)
  {
    var e, before := TaskWaiting(n, w), Bearers(st.view, handle, eventType);
    CountsSplit(st.events, [e], handle, eventType);
    assert [e][..0] == [];
    var after := Bearers(Parked(st, n, w).view, handle, eventType);
    SubsetSize(after, if ParksOn(e, handle, eventType) then before + {n} else before);
  }

  lemma TwoCounts(a: Event, b: Event, handle: string, eventType: string)
    requires a.ExternalReceived? && Outcome(b)
    ensures Parks([a, b], handle, eventType) == 0
    ensures Receipts([a, b], handle, eventType) == if ReceivesOn(a, handle, eventType) then 1 else 0
  {
    assert [a, b][..1] == [a] && [a][..0] == [];
    assert Parks([a], handle, eventType) == 0;
    assert Receipts([a], handle, eventType) == if ReceivesOn(a, handle, eventType) then 1 else 0;
  }

  lemma CompleteBalances(
    st: RunState, n: Id, h: string, e: string, payload: Json, success: bool, handle: string, eventType: string)
    requires Balanced(st, handle, eventType) && WaitsOn(st.view, n, h, e)
    ensures Balanced(Completed(st, n, h, e, payload, success), handle, eventType)
  {
    var told := if success then TaskSucceeded(n, payload) else TaskFailed(n, payload);
    var more, before := [ExternalReceived(n, h, e), told], Bearers(st.view, handle, eventType);
    CountsSplit(st.events, more, handle, eventType);
    TwoCounts(more[0], told, handle, eventType);
    var after := Bearers(Completed(st, n, h, e, payload, success).view, handle, eventType);
    if n in before {
      assert after == before - {n};
    } else {
      assert after == before;
    }
  }

  lemma {:induction false} LaunchBalances(st: RunState, ts: seq<TaskSpec>, handle: string, eventType: string)
    requires Balanced(st, handle, eventType) && forall t :: t in ts ==> t.id in st.view.nodes
    ensures Balanced(Marked(st, ts), handle, eventType)
    decreases |ts|
  {
    if ts != [] {
      var front, t := ts[..|ts| - 1], ts[|ts| - 1];
      LaunchBalances(st, front, handle, eventType);
      var mid := Marked(st, front);
      if mid.view.nodes[t.id].state.Pending? {
        QuietStep(mid, Marked(st, ts), [TaskStarted(t.id, t.skill, AgentOf(t))], handle, eventType);
      }
    }
  }

  lemma PatchBalances(st: RunState, p: GraphPatch, trigger: int, handle: string, eventType: string)
    requires Balanced(st, handle, eventType) && Shaped(st) && Acceptable(st.view, p)
    ensures Balanced(Patched(st, p, trigger), handle, eventType)
  {
    PatchedQuiet(st, p);
    QuietStep(st, Patched(st, p, trigger), Cancellations(st, p) + [GraphPatched(RecordOf(p, trigger))], handle, eventType);
  }

  lemma StepBalances(st: RunState, op: Op, handle: string, eventType: string)
    requires Sound(st) && Balanced(st, handle, eventType)
    ensures Balanced(Step(st, op), handle, eventType)
  {
    match op
    case Resume => QuietStep(st, Resumed(st), [RunResumed], handle, eventType);
    case Launch(ts) =>
      if forall t :: t in ts ==> t.id in st.view.nodes {
        LaunchBalances(st, ts, handle, eventType);
      }
    case Patch(p, t) =>
      if t !in st.view.applied && Acceptable(st.view, p) {
        PatchBalances(st, p, t, handle, eventType);
      }
    case Note(kind, n, payload) => NoteBalances(st, kind, n, payload, handle, eventType);
    case _ => OneTaskBalances(st, op, handle, eventType);
  }

  lemma NoteBalances(st: RunState, kind: string, n: Id, payload: Json, handle: string, eventType: string)
    requires Balanced(st, handle, eventType)
    ensures Balanced(Noted(st, kind, n, payload), handle, eventType)
  {
    QuietStep(st, Noted(st, kind, n, payload), [External(kind, n, payload)], handle, eventType);
  }

  lemma OneTaskBalances(st: RunState, op: Op, handle: string, eventType: string)
    requires Sound(st) && Balanced(st, handle, eventType) && (op.Conclude? || op.Park? || op.Complete?)
    ensures Balanced(Step(st, op), handle, eventType)
  {
    match op
    case Conclude(n, ok, payload) => if IsRunning(st, n) { ConcludeBalances(st, n, ok, payload, handle, eventType); }
    case Park(n, w) => if IsRunning(st, n) { ParkBalances(st, n, w, handle, eventType); }
    case Complete(n, h, e, payload, ok) =>
      if WaitsOn(st.view, n, h, e) {
        CompleteBalances(st, n, h, e, payload, ok, handle, eventType);
      }
  }

  lemma ConcludeBalances(st: RunState, n: Id, ok: bool, payload: Json, handle: string, eventType: string)
    requires Balanced(st, handle, eventType)
    ensures Balanced(Concluded(st, n, ok, payload), handle, eventType)
  {
    var told := if ok then TaskSucceeded(n, payload) else TaskFailed(n, payload);
    QuietStep(st, Concluded(st, n, ok, payload), [told], handle, eventType);
  }

  // ------------------------------------------------------------------- over all runs

  ghost predicate AllBalanced(runs: map<RunId, RunState>, handle: string, eventType: string) {
    forall r :: r in runs ==> Balanced(runs[r], handle, eventType)
  }

  lemma FreshBalances(context: Json, handle: string, eventType: string)
    ensures Balanced(Fresh(context), handle, eventType)
  {
    assert Bearers(Fresh(context).view, handle, eventType) == {};
  }

  lemma OneStepBalances(runs: map<RunId, RunState>, runs': map<RunId, RunState>, handle: string, eventType: string)
    requires AllBalanced(runs, handle, eventType) && OneStep(runs, runs')
    ensures AllBalanced(runs', handle, eventType)
  {
    if run, context :| run !in runs && runs' == runs[run := Fresh(context)] {
      FreshBalances(context, handle, eventType);
      OneMoreBalanced(runs, run, Fresh(context), handle, eventType);
    } else if run, op :| StepsBy(runs, runs', run, op) {
      StepBalances(runs[run], op, handle, eventType);
      OneMoreBalanced(runs, run, Step(runs[run], op), handle, eventType);
    }
  }

  lemma OneMoreBalanced(runs: map<RunId, RunState>, run: RunId, st: RunState, handle: string, eventType: string)
    requires AllBalanced(runs, handle, eventType) && Balanced(st, handle, eventType)
    ensures AllBalanced(runs[run := st], handle, eventType)
  {
  }

  lemma {:induction false} TaleBalances(moves: seq<Move>, handle: string, eventType: string)
    ensures AllBalanced(Tale(moves).runs, handle, eventType)
    decreases |moves|
  {
    if moves != [] {
      TaleBalances(moves[..|moves| - 1], handle, eventType);
      NextIsOneStep(Tale(moves[..|moves| - 1]), moves[|moves| - 1]);
      OneStepBalances(Tale(moves[..|moves| - 1]).runs, Tale(moves).runs, handle, eventType);
    }
  }

  ghost function Total(counts: map<RunId, nat>): nat
    decreases |counts|
  {
    if counts == map[] then 0
    else
      var r :| r in counts;
      assert (counts - {r}).Keys == counts.Keys - {r};
      counts[r] + Total(counts - {r})
  }

  ghost function AllParks(runs: map<RunId, RunState>, handle: string, eventType: string): map<RunId, nat> {
    map r | r in runs :: Parks(runs[r].events, handle, eventType)
  }

  ghost function AllReceipts(runs: map<RunId, RunState>, handle: string, eventType: string): map<RunId, nat> {
    map r | r in runs :: Receipts(runs[r].events, handle, eventType)
  }

  /** Any key may be taken out of a total first. */
  lemma {:induction false} TakenOut(counts: map<RunId, nat>, k: RunId)
    requires k in counts
    ensures Total(counts) == counts[k] + Total(counts - {k})
    decreases |counts|
  {
    var r :| r in counts && Total(counts) == counts[r] + Total(counts - {r});
    assert (counts - {r}).Keys == counts.Keys - {r};
    if r != k {
      TakenOut(counts - {r}, k);
      assert counts - {r} - {k} == counts - {k} - {r};
      assert (counts - {k}).Keys == counts.Keys - {k};
      TakenOut(counts - {k}, r);
    }
  }

  lemma {:induction false} TotalsCompare(a: map<RunId, nat>, b: map<RunId, nat>)
    requires a.Keys == b.Keys && forall r :: r in a ==> a[r] <= b[r]
    ensures Total(a) <= Total(b)
    ensures Total(a) == Total(b) ==> a == b
    decreases |a|
  {
    if a != map[] {
      var r :| r in a;
      TakenOut(a, r);
      TakenOut(b, r);
      assert (a - {r}).Keys == a.Keys - {r} == b.Keys - {r} == (b - {r}).Keys;
      TotalsCompare(a - {r}, b - {r});
      if Total(a) == Total(b) {
        assert a - {r} == b - {r} && a[r] == b[r];
        assert forall x :: x in a && x != r ==> a[x] == (a - {r})[x] && b[x] == (b - {r})[x];
      }
    }
  }

  /**
    Over every history of a store, whatever its runs and its index go through, a handle
    is received no more often than tasks were parked on it: parked once, completed once.
  */
  lemma ReceivedAtMostAsParked(moves: seq<Move>, handle: string, eventType: string)
    ensures
      var runs := Tale(moves).runs;
      Total(AllReceipts(runs, handle, eventType)) <= Total(AllParks(runs, handle, eventType))
  {
    TaleBalances(moves, handle, eventType);
    var runs := Tale(moves).runs;
    assert forall r :: r in runs ==> Balanced(runs[r], handle, eventType);
    TotalsCompare(AllReceipts(runs, handle, eventType), AllParks(runs, handle, eventType));
  }

  /**
    Redelivery is a no-op: once every park on a handle has been answered, a delivery on
    it finds nothing and changes no run, whatever the index says, until the next park.
  */
  lemma AnsweredIsSilent(
    moves: seq<Move>, handle: string, eventType: string, index: map<string, RunId>, payload: Json, success: bool)
    requires
      var runs := Tale(moves).runs;
      Total(AllReceipts(runs, handle, eventType)) == Total(AllParks(runs, handle, eventType))
    ensures Resolved(Tale(moves).runs, index, handle, eventType) == {}
    ensures Next(Tale(moves).(index := index), Deliver(handle, eventType, payload, success)).runs == Tale(moves).runs
  {
    TaleBalances(moves, handle, eventType);
    NoBearersLeft(Tale(moves).runs, handle, eventType);
    NobodyWaits(Tale(moves).runs, index, handle, eventType);
  }

  lemma NoBearersLeft(runs: map<RunId, RunState>, handle: string, eventType: string)
    requires AllBalanced(runs, handle, eventType)
    requires Total(AllReceipts(runs, handle, eventType)) == Total(AllParks(runs, handle, eventType))
    ensures forall r :: r in runs ==> Bearers(runs[r].view, handle, eventType) == {}
  {
    var receipts, parks := AllReceipts(runs, handle, eventType), AllParks(runs, handle, eventType);
    assert forall r :: r in runs ==> Balanced(runs[r], handle, eventType);
    TotalsCompare(receipts, parks);
    forall r | r in runs
      ensures Bearers(runs[r].view, handle, eventType) == {}
    {
      assert receipts[r] == parks[r] && Balanced(runs[r], handle, eventType);
    }
  }

  lemma NobodyWaits(runs: map<RunId, RunState>, index: map<string, RunId>, handle: string, eventType: string)
    requires forall r :: r in runs ==> Bearers(runs[r].view, handle, eventType) == {}
    ensures Resolved(runs, index, handle, eventType) == {}
  {
    forall r, n | r in runs
      ensures !WaitsOn(runs[r].view, n, handle, eventType)
    {
      assert n !in Bearers(runs[r].view, handle, eventType);
    }
    assert AllWaiters(runs, handle, eventType) == {};
    assert Waiters(runs, Indexed(index, handle, eventType), handle, eventType) == {};
  }
}
