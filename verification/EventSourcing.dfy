/**
  The checkpoint is its own journal read back: after every store operation,
  folding the journal gives exactly the materialised graph.  Hardest is the patch,
  which journals its cancellations, those of tasks it has itself just added
  included, ahead of the event that adds them.
*/
module EventSourcing {
  import opened LiveGraph
  import opened RunOps

  ghost predicate Recorded(st: RunState) {
    Replay(st.events) == st.view
  }

  lemma FreshRecorded(context: Json)
    ensures Recorded(Fresh(context))
  {
    ReplayOne(EMPTY, RunStarted);
  }

  /** An operation may be judged by the events it appends alone. */
  lemma RecordedStep(st: RunState, st': RunState, es: seq<Event>)
    requires Recorded(st) && st'.events == st.events + es
    requires ReplayFrom(st.view, es) == st'.view
    ensures Recorded(st')
  {
    ReplaySplit(EMPTY, st.events, es);
  }

  lemma ResumedRecorded(st: RunState)
    requires Recorded(st)
    ensures Recorded(Resumed(st))
  {
    ReplayOne(st.view, RunResumed);
    RecordedStep(st, Resumed(st), [RunResumed]);
  }

  lemma {:induction false} MarkedRecorded(st: RunState, ts: seq<TaskSpec>)
    requires Recorded(st)
    requires forall t :: t in ts ==> t.id in st.view.nodes
    ensures Recorded(Marked(st, ts))
  {
    if ts != [] {
      var front, t := ts[..|ts| - 1], ts[|ts| - 1];
      MarkedRecorded(st, front);
      var mid := Marked(st, front);
      var e := TaskStarted(t.id, t.skill, AgentOf(t));
      ReplayOne(mid.view, e);
      if mid.view.nodes[t.id].state.Pending? {
        RecordedStep(mid, Marked(st, ts), [e]);
      }
    }
  }

  lemma ConcludedRecorded(st: RunState, n: Id, success: bool, payload: Json)
    requires Recorded(st)
    ensures Recorded(Concluded(st, n, success, payload))
  {
    var e := if success then TaskSucceeded(n, payload) else TaskFailed(n, payload);
    ReplayOne(st.view, e);
    RecordedStep(st, Concluded(st, n, success, payload), [e]);
  }

  lemma ParkedRecorded(st: RunState, n: Id, w: Wait)
    requires Recorded(st) && n in st.view.nodes
    ensures Recorded(Parked(st, n, w))
  {
    ReplayOne(st.view, TaskWaiting(n, w));
    RecordedStep(st, Parked(st, n, w), [TaskWaiting(n, w)]);
  }

  lemma CompletedRecorded(st: RunState, n: Id, handle: string, eventType: string, payload: Json, success: bool)
    requires Recorded(st) && n in st.view.nodes
    ensures Recorded(Completed(st, n, handle, eventType, payload, success))
  {
    var received := ExternalReceived(n, handle, eventType);
    var e := if success then TaskSucceeded(n, payload) else TaskFailed(n, payload);
    ReplayOne(st.view, received);
    ReplayOne(Apply(st.view, received), e);
    ReplaySplit(st.view, [received], [e]);
    assert [received] + [e] == [received, e];
    RecordedStep(st, Completed(st, n, handle, eventType, payload, success), [received, e]);
  }

  lemma NotedRecorded(st: RunState, kind: string, n: Id, payload: Json)
    requires Recorded(st)
    ensures Recorded(Noted(st, kind, n, payload))
  {
    ReplayOne(st.view, External(kind, n, payload));
    RecordedStep(st, Noted(st, kind, n, payload), [External(kind, n, payload)]);
  }

  // ----------------------------------------------------------------- patches

  ghost predicate CancelsOnly(es: seq<Event>) {
    forall e :: e in es ==> e.TaskCancelled?
  }

  ghost predicate Cancels(es: seq<Event>, n: Id) {
    exists e :: e in es && e.TaskCancelled? && e.node == n
  }

  ghost function Struck(nodes: map<Id, Status>, es: seq<Event>): map<Id, Status> {
    map n | n in nodes :: if Cancels(es, n) then nodes[n].(state := Cancelled) else nodes[n]
  }

  /** A run of cancellations strikes the named tasks that exist and no other. */
  lemma {:induction false} ReplayCancels(v: View, es: seq<Event>)
    requires CancelsOnly(es)
    ensures ReplayFrom(v, es) == v.(nodes := Struck(v.nodes, es))
  {
    if es == [] {
      assert Struck(v.nodes, es) == v.nodes;
    } else {
      var front, e := es[..|es| - 1], es[|es| - 1];
      assert es == front + [e];
      ReplayCancels(v, front);
      assert forall n :: Cancels(es, n) <==> Cancels(front, n) || e.node == n;
      assert Put(Struck(v.nodes, front), e.node, Cancelled) == Struck(v.nodes, es);
    }
  }

  lemma CancelEventsStrike(v: View, cancel: seq<Id>, reason: string)
    requires forall n :: n in cancel ==> n in v.nodes
    ensures CancelsOnly(CancelEvents(v, cancel, reason))
    ensures forall n :: Cancels(CancelEvents(v, cancel, reason), n) <==> n in cancel
  {
    var es := CancelEvents(v, cancel, reason);
    forall n | n in cancel
      ensures Cancels(es, n)
    {
      var i :| 0 <= i < |cancel| && cancel[i] == n;
      assert es[i] in es;
    }
  }

  lemma {:induction false} FinishEventsStrike(order: seq<Id>, nodes: map<Id, Status>)
    requires forall n :: n in order ==> n in nodes
    ensures CancelsOnly(FinishEvents(order, nodes))
    ensures forall n :: Cancels(FinishEvents(order, nodes), n) <==> n in order && Active(nodes[n].state)
  {
    if order != [] {
      var front, last := order[..|order| - 1], order[|order| - 1];
      FinishEventsStrike(front, nodes);
      assert order == front + [last];
      var rest, es := FinishEvents(front, nodes), FinishEvents(order, nodes);
      var e := TaskCancelled(last, FINISHED_REASON, nodes[last].state.Running?);
      assert Active(nodes[last].state) ==> e in es;
      assert forall x :: x in rest ==> x in es;
      assert forall x :: x in es ==> x in rest || (x == e && Active(nodes[last].state));
    }
  }

  lemma CancellationsStrike(st: RunState, p: GraphPatch)
    requires Shaped(st) && Acceptable(st.view, p)
    ensures CancelsOnly(Cancellations(st, p))
    ensures forall n :: Cancels(Cancellations(st, p), n) <==>
              n in p.cancel ||
              (p.finish && n in GrownIds(st.view, p) && Active(Unfinished(st.view, p)[n].state))
  {
    var order := st.order + AddIds(p);
    assert forall n :: n in order <==> n in GrownIds(st.view, p);
    var cs := CancelEvents(st.view, p.cancel, p.reason);
    CancelEventsStrike(st.view, p.cancel, p.reason);
    var fs := if p.finish then FinishEvents(order, Unfinished(st.view, p)) else [];
    if p.finish {
      FinishEventsStrike(order, Unfinished(st.view, p));
    }
    assert forall e :: e in cs + fs <==> e in cs || e in fs;
    assert forall n :: Cancels(cs + fs, n) <==> Cancels(cs, n) || Cancels(fs, n);
  }

  /** Task by task, the fold and the store agree, whichever of the patch's lists name it. */
  lemma SettleAgrees(p: GraphPatch, trigger: int, n: Id, s: NodeState, known: bool)
    requires !known ==> s.Pending? && n !in p.cancel
    requires known && n in p.cancel ==> Active(s)
    ensures
      var unfinished := After(p.(finish := false), n, s);
      var struck := n in p.cancel || (p.finish && Active(unfinished));
      Settled(RecordOf(p, trigger), n, if known && struck then Cancelled else s) == After(p, n, s)
  {
  }

  lemma FoldedNode(st: RunState, p: GraphPatch, trigger: int, n: Id)
    requires Shaped(st) && Acceptable(st.view, p) && n in GrownIds(st.view, p)
    ensures
      var struck := Struck(st.view.nodes, Cancellations(st, p));
      var base := if n in struck then struck[n] else FRESH;
      base.(state := Settled(RecordOf(p, trigger), n, base.state)) ==
      Before(st.view, p, n).(state := After(p, n, Before(st.view, p, n).state))
  {
    CancellationsStrike(st, p);
    SettleAgrees(p, trigger, n, Before(st.view, p, n).state, n in st.view.nodes);
  }

  lemma FoldedPatch(st: RunState, p: GraphPatch, trigger: int, es: seq<Event>)
    requires Shaped(st) && Acceptable(st.view, p)
    requires es == Cancellations(st, p)
    ensures Apply(st.view.(nodes := Struck(st.view.nodes, es)), GraphPatched(RecordOf(p, trigger))) ==
            Patched(st, p, trigger).view
  {
    FoldedNodes(st, p, trigger, Struck(st.view.nodes, es));
  }

  lemma FoldedAt(st: RunState, p: GraphPatch, trigger: int, struck: map<Id, Status>, n: Id)
    requires Shaped(st) && Acceptable(st.view, p) && n in GrownIds(st.view, p)
    requires struck == Struck(st.view.nodes, Cancellations(st, p))
    ensures
      var folded := Apply(st.view.(nodes := struck), GraphPatched(RecordOf(p, trigger)));
      n in folded.nodes && folded.nodes[n] == PatchedView(st.view, p, trigger).nodes[n]
  {
    FoldedNode(st, p, trigger, n);
  }

  lemma FoldedKeys(v: View, p: GraphPatch, trigger: int, struck: map<Id, Status>)
    requires struck.Keys == v.nodes.Keys
    ensures Apply(v.(nodes := struck), GraphPatched(RecordOf(p, trigger))).nodes.Keys == GrownIds(v, p)
  {
  }

  lemma FoldedNodes(st: RunState, p: GraphPatch, trigger: int, struck: map<Id, Status>)
    requires Shaped(st) && Acceptable(st.view, p)
    requires struck == Struck(st.view.nodes, Cancellations(st, p))
    ensures Apply(st.view.(nodes := struck), GraphPatched(RecordOf(p, trigger))).nodes == PatchedView(st.view, p, trigger).nodes
  {
    var folded := Apply(st.view.(nodes := struck), GraphPatched(RecordOf(p, trigger))).nodes;
    forall n | n in GrownIds(st.view, p)
      ensures n in folded && folded[n] == PatchedView(st.view, p, trigger).nodes[n]
    {
      FoldedAt(st, p, trigger, struck, n);
    }
    FoldedKeys(st.view, p, trigger, struck);
  }

  lemma PatchedRecorded(st: RunState, p: GraphPatch, trigger: int)
    requires Shaped(st) && Acceptable(st.view, p) && Recorded(st)
    ensures Recorded(Patched(st, p, trigger))
  {
    var es, e := Cancellations(st, p), GraphPatched(RecordOf(p, trigger));
    CancellationsStrike(st, p);
    ReplayCancels(st.view, es);
    ReplaySplit(st.view, es, [e]);
    ReplayOne(ReplayFrom(st.view, es), e);
    FoldedPatch(st, p, trigger, es);
    RecordedStep(st, Patched(st, p, trigger), es + [e]);
  }
}
