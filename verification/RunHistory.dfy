/**
  Whole lives of one run: any sequence of store operations, those the store
  rejects included, with a resume after every crash.  Each operation is one atomic
  replacement of the checkpoint, so a crash can only fall between two of them.
*/
module RunHistory {
  import opened LiveGraph
  import opened RunOps
  import opened EventSourcing
  import opened RunInvariants
  import Dag

  datatype Op =
    | Resume
    | Launch(tasks: seq<TaskSpec>)
    | Conclude(node: Id, success: bool, payload: Json)
    | Park(node: Id, wait: Wait)
    | Complete(node: Id, handle: string, eventType: string, payload: Json, success: bool)
    | Patch(patch: GraphPatch, trigger: int)
    | Note(kind: string, node: Id, payload: Json)

  /** One operation; one that the store rejects changes nothing. */
  ghost function Step(st: RunState, op: Op): RunState
    requires Shaped(st)
  {
    match op
    case Resume => Resumed(st)
    case Launch(ts) => if forall t :: t in ts ==> t.id in st.view.nodes then Marked(st, ts) else st
    case Conclude(n, success, payload) => if IsRunning(st, n) then Concluded(st, n, success, payload) else st
    case Park(n, w) => if IsRunning(st, n) then Parked(st, n, w) else st
    case Complete(n, h, e, payload, success) =>
      if WaitsOn(st.view, n, h, e) then Completed(st, n, h, e, payload, success) else st
    case Patch(p, t) =>
      if t !in st.view.applied && Acceptable(st.view, p) then Patched(st, p, t) else st
    case Note(kind, n, payload) => Noted(st, kind, n, payload)
  }

  lemma StepSound(st: RunState, op: Op)
    requires Sound(st)
    ensures Sound(Step(st, op))
  {
    match op
    case Resume => ResumedKeeps(st);
    case Launch(ts) => LaunchSound(st, ts);
    case Conclude(_, _, _) => OneTaskSound(st, op);
    case Park(_, _) => OneTaskSound(st, op);
    case Complete(_, _, _, _, _) => OneTaskSound(st, op);
    case Patch(p, t) => PatchSound(st, p, t);
    case Note(kind, n, payload) => NotedKeeps(st, kind, n, payload);
  }

  lemma LaunchSound(st: RunState, ts: seq<TaskSpec>)
    requires Sound(st)
    ensures Sound(Step(st, Launch(ts)))
  {
    if forall t :: t in ts ==> t.id in st.view.nodes {
      MarkedKeeps(st, ts);
    }
  }

  lemma PatchSound(st: RunState, p: GraphPatch, t: int)
    requires Sound(st)
    ensures Sound(Step(st, Patch(p, t)))
  {
    if t !in st.view.applied && Acceptable(st.view, p) {
      PatchedKeeps(st, p, t);
    }
  }

  lemma OneTaskSound(st: RunState, op: Op)
    requires Sound(st) && (op.Conclude? || op.Park? || op.Complete?)
    ensures Sound(Step(st, op))
  {
    match op
    case Conclude(n, success, payload) => if IsRunning(st, n) { ConcludedKeeps(st, n, success, payload); }
    case Park(n, w) => if IsRunning(st, n) { ParkedKeeps(st, n, w); }
    case Complete(n, h, e, payload, success) =>
      if WaitsOn(st.view, n, h, e) { CompletedKeeps(st, n, h, e, payload, success); }
  }

  /** The checkpoint after a whole history. */
  ghost function Life(context: Json, ops: seq<Op>): (st: RunState)
    ensures Sound(st)
  {
    if ops == [] then
      FreshKeeps(context);
      Fresh(context)
    else
      var before := Life(context, ops[..|ops| - 1]);
      StepSound(before, ops[|ops| - 1]);
      Step(before, ops[|ops| - 1])
  }

  /** Event sourcing: whatever happened to a run, its journal folds to its graph. */
  lemma JournalIsTheGraph(context: Json, ops: seq<Op>)
    ensures Replay(Life(context, ops).events) == Life(context, ops).view
  {
    assert Recorded(Life(context, ops));
  }

  /** However often a trigger is offered, before or after a crash, the journal holds one patch for it at most. */
  lemma PlannedAtMostOnce(context: Json, ops: seq<Op>, i: nat, j: nat)
    requires
      var es := Life(context, ops).events;
      i < |es| && j < |es| && es[i].GraphPatched? && es[j].GraphPatched? &&
      es[i].record.trigger == es[j].record.trigger
    ensures i == j
    ensures Life(context, ops).events[i].record.trigger in Life(context, ops).view.applied
  {
    var es := Life(context, ops).events;
    assert PatchAt(es, i, es[i].record.trigger) && PatchAt(es, j, es[i].record.trigger);
  }

  // ------------------------------------------------------------- what survives

  /** What no later operation takes back. */
  ghost predicate Preserves(st: RunState, st': RunState) {
    && st.events <= st'.events
    && (forall n :: n in st.view.nodes ==> n in st'.view.nodes)
    && (forall n :: n in st.view.nodes && Concluded?(st.view.nodes[n].state) ==>
          st'.view.nodes[n].state == st.view.nodes[n].state &&
          st'.view.nodes[n].result == st.view.nodes[n].result)
    && (forall t :: t in st.view.applied ==> t in st'.view.applied)
    && (st.view.finished ==> st'.view.nodes == st.view.nodes && st'.view.finished)
  }

  lemma FinishedIsStill(st: RunState, op: Op)
    requires Sound(st) && st.view.finished
    ensures Step(st, op).view == st.view
  {
    match op
    case Launch(ts) =>
      if forall t :: t in ts ==> t.id in st.view.nodes {
        MarkedLaunched(st, ts);
        assert Marked(st, ts).view.nodes == st.view.nodes;
      }
    case Resume => assert Resumed(st).view.nodes == st.view.nodes;
    case _ =>
  }

  lemma StepPreserves(st: RunState, op: Op)
    requires Sound(st)
    ensures Preserves(st, Step(st, op))
  {
    match op
    case Launch(ts) => LaunchPreserves(st, ts);
    case Patch(p, t) => if t !in st.view.applied && Acceptable(st.view, p) { PatchPreserves(st, p, t); }
    case Resume => ResumePreserves(st);
    case Conclude(n, success, payload) => if IsRunning(st, n) { ConcludePreserves(st, n, success, payload); }
    case Park(n, w) => if IsRunning(st, n) { ParkPreserves(st, n, w); }
    case Complete(n, h, e, payload, success) =>
      if WaitsOn(st.view, n, h, e) { CompletePreserves(st, n, h, e, payload, success); }
    case Note(_, _, _) =>
  }

  lemma ResumePreserves(st: RunState)
    requires Sound(st)
    ensures Preserves(st, Resumed(st))
  {
    if st.view.finished {
      FinishedIsStill(st, Resume);
    }
  }

  lemma ConcludePreserves(st: RunState, n: Id, success: bool, payload: Json)
    requires Sound(st) && IsRunning(st, n)
    ensures Preserves(st, Concluded(st, n, success, payload))
  {
  }

  lemma ParkPreserves(st: RunState, n: Id, w: Wait)
    requires Sound(st) && IsRunning(st, n)
    ensures Preserves(st, Parked(st, n, w))
  {
  }

  lemma CompletePreserves(st: RunState, n: Id, handle: string, eventType: string, payload: Json, success: bool)
    requires Sound(st) && WaitsOn(st.view, n, handle, eventType)
    ensures Preserves(st, Completed(st, n, handle, eventType, payload, success))
  {
  }

  lemma LaunchPreserves(st: RunState, ts: seq<TaskSpec>)
    requires Sound(st)
    ensures Preserves(st, Step(st, Launch(ts)))
  {
    if forall t :: t in ts ==> t.id in st.view.nodes {
      MarkedLaunched(st, ts);
      MarkedExtends(st, ts);
      assert st.view.finished ==> Marked(st, ts).view.nodes == st.view.nodes;
    }
  }

  lemma PatchPreserves(st: RunState, p: GraphPatch, t: int)
    requires Shaped(st) && Acceptable(st.view, p) && t !in st.view.applied
    ensures Preserves(st, Patched(st, p, t))
  {
    forall n | n in st.view.nodes {
      PatchedSpares(st.view, p, t, n);
    }
  }

  lemma {:induction false} MarkedExtends(st: RunState, ts: seq<TaskSpec>)
    requires forall t :: t in ts ==> t.id in st.view.nodes
    ensures st.events <= Marked(st, ts).events
  {
    if ts != [] {
      MarkedExtends(st, ts[..|ts| - 1]);
    }
  }

  /**
    Outcomes are for ever: a concluded task keeps its state and result, a journalled
    event its place, an applied trigger its record, and a finished run its graph.
  */
  lemma {:induction false} LifePreserves(context: Json, ops: seq<Op>, more: seq<Op>)
    ensures Preserves(Life(context, ops), Life(context, ops + more))
    decreases |more|
  {
    var first := Life(context, ops);
    if more == [] {
      assert ops + more == ops;
      PreservesItself(first);
    } else {
      var front, op := ops + more[..|more| - 1], more[|more| - 1];
      assert ops + more == front + [op];
      var mid := Life(context, front);
      LifePreserves(context, ops, more[..|more| - 1]);
      StepPreserves(mid, op);
      LifeStep(context, front, op);
      PreservesTransitive(first, mid, Step(mid, op));
    }
  }

  lemma LifeStep(context: Json, ops: seq<Op>, op: Op)
    ensures Life(context, ops + [op]) == Step(Life(context, ops), op)
  {
    assert (ops + [op])[..|ops|] == ops;
  }

  lemma PreservesItself(st: RunState)
    ensures Preserves(st, st)
  {
  }

  lemma PreservesTransitive(a: RunState, b: RunState, c: RunState)
    requires Preserves(a, b) && Preserves(b, c)
    ensures Preserves(a, c)
  {
  }

  // ----------------------------------------------------- the planner's discipline

  ghost predicate Answers(es: seq<Event>, trigger: int) {
    1 <= trigger <= |es| && PlannerEvent(es[trigger - 1])
  }

  /** How the executor and the planner use the store; the store itself does not insist. */
  ghost predicate Disciplined(st: RunState, op: Op)
    requires Shaped(st)
  {
    match op
    case Launch(ts) => Launchable(st, ts)
    case Patch(p, t) => FreshEdges(p) && Answers(st.events, t)
    case _ => true
  }

  ghost predicate DisciplinedLife(context: Json, ops: seq<Op>) {
    ops == [] ||
    (DisciplinedLife(context, ops[..|ops| - 1]) &&
     Disciplined(Life(context, ops[..|ops| - 1]), ops[|ops| - 1]))
  }

  ghost predicate Answering(st: RunState) {
    forall t :: t in st.view.applied ==> Answers(st.events, t)
  }

  lemma StepSafe(st: RunState, op: Op)
    requires Sound(st) && DependencySafe(st) && Disciplined(st, op)
    ensures DependencySafe(Step(st, op))
  {
    match op
    case Resume => ResumedKeeps(st);
    case Launch(ts) => if forall t :: t in ts ==> t.id in st.view.nodes { MarkedKeeps(st, ts); }
    case Conclude(n, success, payload) => if IsRunning(st, n) { ConcludedKeeps(st, n, success, payload); }
    case Park(n, w) => if IsRunning(st, n) { ParkedKeeps(st, n, w); }
    case Complete(n, h, e, payload, success) =>
      if WaitsOn(st.view, n, h, e) { CompletedKeeps(st, n, h, e, payload, success); }
    case Patch(p, t) =>
      if t !in st.view.applied && Acceptable(st.view, p) { PatchedKeepsSafe(st, p, t); }
    case Note(kind, n, payload) => NotedKeeps(st, kind, n, payload);
  }

  lemma AnswersStay(st: RunState, st': RunState, t: int)
    requires st.events <= st'.events && Answers(st.events, t)
    ensures Answers(st'.events, t)
  {
  }

  /**
    Dependency safety of whole lives: the graph is acyclic, whatever has begun has
    only succeeded parents, and every start in the journal comes after the success
    of each parent, across any number of crashes and resumes.
  */
  lemma {:induction false} LifeSafe(context: Json, ops: seq<Op>)
    requires DisciplinedLife(context, ops)
    ensures DependencySafe(Life(context, ops))
    ensures Dag.IsDag(Life(context, ops).view.nodes.Keys, Life(context, ops).view.edges)
    ensures Answering(Life(context, ops))
    decreases |ops|
  {
    if ops == [] {
      FreshKeeps(context);
    } else {
      var front, op := ops[..|ops| - 1], ops[|ops| - 1];
      var before := Life(context, front);
      LifeSafe(context, front);
      StepSafe(before, op);
      StepPreserves(before, op);
      AppliedBy(before, op);
    }
  }

  lemma AppliedBy(st: RunState, op: Op)
    requires Sound(st)
    ensures forall t :: t in Step(st, op).view.applied ==>
              t in st.view.applied || (op.Patch? && op.trigger == t)
  {
    match op
    case Launch(ts) =>
      if forall t :: t in ts ==> t.id in st.view.nodes {
        MarkedLaunched(st, ts);
      }
    case _ =>
  }

  /**
    A run is planned at most once for its start and once for each of its tasks,
    however many processes it takes: no trigger is answered twice, and a task has
    one outcome at most.
  */
  lemma PatchesBounded(st: RunState)
    requires Sound(st) && Answering(st)
    ensures |st.view.applied| <= 1 + |st.order|
  {
    OrderIsTheGraph(st);
    TriggersBounded(st.events, st.view.nodes, st.view.applied.Keys);
  }

  lemma OrderIsTheGraph(st: RunState)
    requires Shaped(st)
    ensures Elements(st.order) == st.view.nodes.Keys && |st.order| == |st.view.nodes|
  {
    ElementsOfDistinct(st.order);
    assert Elements(st.order) == st.view.nodes.Keys;
  }

  lemma TriggersBounded(es: seq<Event>, nodes: map<Id, Status>, ts: set<int>)
    requires OneOutcomeEach(es, nodes) && StartsOnce(es)
    requires forall t :: t in ts ==> Answers(es, t)
    ensures |ts| <= 1 + |nodes.Keys|
  {
    var later := ts - {1};
    LaterTriggers(es, nodes, later);
    InjectionBound(later, nodes.Keys, t => Teller(es, t));
    assert ts <= later + {1};
    SubsetSize(ts, later + {1});
  }

  ghost function Teller(es: seq<Event>, t: int): Id {
    if 1 <= t <= |es| && Outcome(es[t - 1]) then es[t - 1].node else ""
  }

  lemma LaterTriggers(es: seq<Event>, nodes: map<Id, Status>, later: set<int>)
    requires OneOutcomeEach(es, nodes) && StartsOnce(es)
    requires forall t :: t in later ==> t != 1 && Answers(es, t)
    ensures forall t :: t in later ==> Teller(es, t) in nodes
    ensures forall s, t :: s in later && t in later && Teller(es, s) == Teller(es, t) ==> s == t
  {
    forall t | t in later
      ensures OutcomeAt(es, t - 1, Teller(es, t))
    {
      assert !es[t - 1].RunStarted?;
    }
    forall s, t | s in later && t in later && Teller(es, s) == Teller(es, t)
      ensures s == t
    {
      assert OutcomeAt(es, s - 1, Teller(es, s)) && OutcomeAt(es, t - 1, Teller(es, s));
    }
  }

  lemma {:induction false} InjectionBound<A(!new), B>(xs: set<A>, ys: set<B>, f: A -> B)
    requires forall x :: x in xs ==> f(x) in ys
    requires forall x, y :: x in xs && y in xs && f(x) == f(y) ==> x == y
    ensures |xs| <= |ys|
    decreases xs
  {
    if xs != {} {
      var x :| x in xs;
      InjectionBound(xs - {x}, ys - {f(x)}, f);
    }
  }

  lemma {:induction false} ElementsOfDistinct<T>(s: seq<T>)
    requires Distinct(s)
    ensures |Elements(s)| == |s|
  {
    if s != [] {
      var front, last := s[..|s| - 1], s[|s| - 1];
      ElementsOfDistinct(front);
      assert s == front + [last];
      assert Elements(s) == Elements(front) + {last};
    }
  }

  // ------------------------------------------------------------ deliveries

  /** Every delivery in the journal is followed at once by the outcome it brought. */
  ghost predicate DeliveriesConclude(es: seq<Event>) {
    forall i :: 0 <= i < |es| && es[i].ExternalReceived? ==> OutcomeAt(es, i + 1, es[i].node)
  }

  lemma DeliveriesExtend(es: seq<Event>, more: seq<Event>)
    requires DeliveriesConclude(es) && DeliveriesConclude(more)
    ensures DeliveriesConclude(es + more)
  {
    var all := es + more;
    forall i | 0 <= i < |all| && all[i].ExternalReceived?
      ensures OutcomeAt(all, i + 1, all[i].node)
    {
      if i < |es| {
        assert OutcomeAt(es, i + 1, es[i].node);
      } else {
        assert OutcomeAt(more, i - |es| + 1, more[i - |es|].node);
      }
    }
  }

  lemma {:induction false} MarkedDeliveries(st: RunState, ts: seq<TaskSpec>)
    requires DeliveriesConclude(st.events) && forall t :: t in ts ==> t.id in st.view.nodes
    ensures DeliveriesConclude(Marked(st, ts).events)
  {
    if ts != [] {
      var front, t := ts[..|ts| - 1], ts[|ts| - 1];
      MarkedDeliveries(st, front);
      DeliveriesExtend(Marked(st, front).events, [TaskStarted(t.id, t.skill, AgentOf(t))]);
    }
  }

  lemma StepDeliveries(st: RunState, op: Op)
    requires Shaped(st) && DeliveriesConclude(st.events)
    ensures DeliveriesConclude(Step(st, op).events)
  {
    match op
    case Resume => DeliveriesExtend(st.events, [RunResumed]);
    case Launch(ts) => if forall t :: t in ts ==> t.id in st.view.nodes { MarkedDeliveries(st, ts); }
    case Conclude(n, ok, payload) =>
      DeliveriesExtend(st.events, [if ok then TaskSucceeded(n, payload) else TaskFailed(n, payload)]);
    case Park(n, w) => DeliveriesExtend(st.events, [TaskWaiting(n, w)]);
    case Complete(n, h, e, payload, ok) =>
      var more := [ExternalReceived(n, h, e), if ok then TaskSucceeded(n, payload) else TaskFailed(n, payload)];
      assert OutcomeAt(more, 1, n);
      DeliveriesExtend(st.events, more);
    case Patch(p, t) =>
      if t !in st.view.applied && Acceptable(st.view, p) {
        PatchedQuiet(st, p);
        var more := Cancellations(st, p) + [GraphPatched(RecordOf(p, t))];
        assert forall e :: e in more ==> e.TaskCancelled? || e.GraphPatched?;
        assert forall i :: 0 <= i < |more| ==> more[i] in more;
        DeliveriesExtend(st.events, more);
      }
    case Note(kind, n, payload) => DeliveriesExtend(st.events, [External(kind, n, payload)]);
  }

  lemma {:induction false} LifeDeliveries(context: Json, ops: seq<Op>)
    ensures DeliveriesConclude(Life(context, ops).events)
    decreases |ops|
  {
    if ops != [] {
      LifeDeliveries(context, ops[..|ops| - 1]);
      StepDeliveries(Life(context, ops[..|ops| - 1]), ops[|ops| - 1]);
    }
  }

  /** Over every history a parked task is completed by at most one delivery. */
  lemma DeliveredAtMostOnce(context: Json, ops: seq<Op>, i: nat, j: nat)
    requires
      var es := Life(context, ops).events;
      i < |es| && j < |es| && es[i].ExternalReceived? && es[j].ExternalReceived? && es[i].node == es[j].node
    ensures i == j
  {
    var es := Life(context, ops).events;
    LifeDeliveries(context, ops);
    assert OutcomeAt(es, i + 1, es[i].node) && OutcomeAt(es, j + 1, es[i].node);
  }

  // -------------------------------------------------------- what a task was asked to do

  lemma {:induction false} SpecsAdded(specs: map<Id, TaskSpec>, add: seq<TaskSpec>, n: Id)
    requires n in specs && forall t :: t in add ==> t.id != n
    ensures n in PatchedSpecs(specs, add) && PatchedSpecs(specs, add)[n] == specs[n]
    decreases |add|
  {
    if add != [] {
      assert add[|add| - 1] in add;
      SpecsAdded(specs, add[..|add| - 1], n);
    }
  }

  lemma StepKeepsSpec(st: RunState, op: Op, n: Id)
    requires Sound(st) && n in st.specs
    ensures n in Step(st, op).specs && Step(st, op).specs[n] == st.specs[n]
  {
    match op
    case Launch(ts) =>
      if forall t :: t in ts ==> t.id in st.view.nodes {
        MarkedLaunched(st, ts);
      }
    case Patch(p, t) =>
      if t !in st.view.applied && Acceptable(st.view, p) {
        assert n in st.view.nodes;
        AddedAreNew(st.view, p, n);
        SpecsAdded(st.specs, p.add, n);
      }
    case _ =>
  }

  lemma AddedAreNew(v: View, p: GraphPatch, n: Id)
    requires Acceptable(v, p) && n in v.nodes
    ensures forall t :: t in p.add ==> t.id != n
  {
    forall t | t in p.add
      ensures t.id != n
    {
      var i :| 0 <= i < |p.add| && p.add[i] == t;
      assert AddIds(p)[i] in AddIds(p);
    }
  }

  /** A task's specification is fixed for the life of its run. */
  lemma {:induction false} SpecsForGood(context: Json, ops: seq<Op>, more: seq<Op>, n: Id)
    requires n in Life(context, ops).specs
    ensures n in Life(context, ops + more).specs
    ensures Life(context, ops + more).specs[n] == Life(context, ops).specs[n]
    decreases |more|
  {
    if more == [] {
      assert ops + more == ops;
    } else {
      var front, op := ops + more[..|more| - 1], more[|more| - 1];
      assert ops + more == front + [op];
      SpecsForGood(context, ops, more[..|more| - 1], n);
      StepKeepsSpec(Life(context, front), op, n);
      LifeStep(context, front, op);
    }
  }
}
