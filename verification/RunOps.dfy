/**
  What each operation of the graph store does to one checkpoint, as a function of
  the checkpoint it loads.  The store's methods carry the operations out step by
  step and are proved against these functions.
*/
module RunOps {
  import opened Wrappers
  import opened LiveGraph
  import Dag

  datatype StoreError =
    | UnknownRun
    | UnknownTask(node: Id)
    | NotRunning(node: Id)
    | RunFinished
    | DuplicateTask
    | UnknownEndpoint(parent: Id, child: Id)
    | SelfDependency(node: Id)
    | CancelInactive(node: Id)
    | WaitNotPending(node: Id)
    | ResumeNotWaiting(node: Id)
    | DependencyCycle
    | AmbiguousHandle

  function Fresh(context: Json): RunState {
    RunState(context, map[], [], EMPTY, [RunStarted])
  }

  function WithNodes(st: RunState, nodes: map<Id, Status>, events: seq<Event>): RunState {
    st.(view := st.view.(nodes := nodes), events := st.events + events)
  }

  function Resumed(st: RunState): RunState {
    WithNodes(st, map n | n in st.view.nodes :: Interrupted(st.view.nodes[n]), [RunResumed])
  }

  /** A pending task whose parents have all succeeded. */
  predicate IsReady(v: View, n: Id) {
    && n in v.nodes
    && v.nodes[n].state.Pending?
    && forall p :: p in v.nodes && (p, n) in v.edges ==> v.nodes[p].state.Succeeded?
  }

  function AgentOf(t: TaskSpec): string {
    match t.metadata.agent case Some(a) => a case None => t.skill
  }

  /** Starting a task that is no longer pending is skipped without a trace. */
  function MarkedOne(st: RunState, t: TaskSpec): RunState
    requires t.id in st.view.nodes
  {
    if st.view.nodes[t.id].state.Pending? then
      WithNodes(st, Put(st.view.nodes, t.id, Running), [TaskStarted(t.id, t.skill, AgentOf(t))])
    else st
  }

  function Marked(st: RunState, ts: seq<TaskSpec>): (r: RunState)
    requires forall t :: t in ts ==> t.id in st.view.nodes
    ensures r.view.nodes.Keys == st.view.nodes.Keys
  {
    if ts == [] then st else MarkedOne(Marked(st, ts[..|ts| - 1]), ts[|ts| - 1])
  }

  predicate IsRunning(st: RunState, n: Id) {
    n in st.view.nodes && st.view.nodes[n].state.Running?
  }

  function Concluded(st: RunState, n: Id, success: bool, payload: Json): RunState {
    WithNodes(st, Conclude(st.view.nodes, n, if success then Succeeded else Failed, payload),
      [if success then TaskSucceeded(n, payload) else TaskFailed(n, payload)])
  }

  function Parked(st: RunState, n: Id, w: Wait): RunState
    requires n in st.view.nodes
  {
    WithNodes(st, st.view.nodes[n := st.view.nodes[n].(state := Waiting, wait := Some(w))], [TaskWaiting(n, w)])
  }

  /** A waiting node that the event `eventType` on `handle` completes. */
  predicate WaitsOn(v: View, n: Id, handle: string, eventType: string) {
    && n in v.nodes
    && v.nodes[n].state.Waiting?
    && v.nodes[n].wait.Some?
    && v.nodes[n].wait.value.handle == handle
    && v.nodes[n].wait.value.eventType == eventType
  }

  function Completed(st: RunState, n: Id, handle: string, eventType: string, payload: Json, success: bool): RunState
    requires n in st.view.nodes
  {
    var state := if success then Succeeded else Failed;
    WithNodes(st, st.view.nodes[n := Status(state, Some(payload), None)],
      [ExternalReceived(n, handle, eventType),
       if success then TaskSucceeded(n, payload) else TaskFailed(n, payload)])
  }

  function Noted(st: RunState, kind: string, n: Id, payload: Json): RunState {
    st.(events := st.events + [External(kind, n, payload)])
  }

  /** Sequence numbers of the planner events that no patch answers yet, in journal order. */
  function Unplanned(es: seq<Event>, applied: map<int, PatchRecord>): seq<int> {
    if es == [] then []
    else
      var rest := Unplanned(es[..|es| - 1], applied);
      if PlannerEvent(es[|es| - 1]) && |es| !in applied then rest + [|es|] else rest
  }

  // ---------------------------------------------------------------- patches

  function FirstOutside(ns: seq<Id>, good: set<Id>): (r: Option<Id>)
    ensures r.None? <==> forall n :: n in ns ==> n in good
  {
    if ns == [] then None
    else if ns[0] !in good then Some(ns[0])
    else FirstOutside(ns[1..], good)
  }

  function EdgeError(connect: seq<(Id, Id)>, ids: set<Id>): (r: Option<StoreError>)
    ensures r.None? <==> forall e :: e in connect ==> e.0 in ids && e.1 in ids && e.0 != e.1
  {
    if connect == [] then None
    else
      var (parent, child) := connect[0];
      if parent !in ids || child !in ids then Some(UnknownEndpoint(parent, child))
      else if parent == child then Some(SelfDependency(parent))
      else EdgeError(connect[1..], ids)
  }

  predicate Distinct<T(==)>(s: seq<T>) {
    forall i, j :: 0 <= i < j < |s| ==> s[i] != s[j]
  }

  function ActiveNodes(v: View): set<Id> {
    set n | n in v.nodes && Active(v.nodes[n].state)
  }

  function GrownIds(v: View, p: GraphPatch): set<Id> {
    v.nodes.Keys + Elements(AddIds(p))
  }

  /** The first rule a patch breaks, in the order the store checks them. */
  function PatchError(v: View, p: GraphPatch): Option<StoreError> {
    var ids := GrownIds(v, p);
    if v.finished then Some(RunFinished)
    else if !Distinct(AddIds(p)) || v.nodes.Keys * Elements(AddIds(p)) != {} then Some(DuplicateTask)
    else
      var edge := EdgeError(p.connect, ids);
      var unknown := FirstOutside(p.cancel + p.wait + p.resume, ids);
      var idle := FirstOutside(p.cancel, ActiveNodes(v));
      var started := FirstOutside(p.wait, ids - (set n | n in v.nodes && !v.nodes[n].state.Pending?));
      var awake := FirstOutside(p.resume, ids - (set n | n in v.nodes && !v.nodes[n].state.Waiting?));
      if edge.Some? then edge
      else if unknown.Some? then Some(UnknownTask(unknown.value))
      else if idle.Some? then
        Some(if idle.value in v.nodes then CancelInactive(idle.value) else UnknownTask(idle.value))
      else if started.Some? then Some(WaitNotPending(started.value))
      else if awake.Some? then Some(ResumeNotWaiting(awake.value))
      else if !Dag.IsDag(ids, v.edges + Elements(p.connect)) then Some(DependencyCycle)
      else None
  }

  /** What a patch must satisfy, rule by rule. */
  ghost predicate Acceptable(v: View, p: GraphPatch) {
    && !v.finished
    && Distinct(AddIds(p))
    && (forall n :: n in AddIds(p) ==> n !in v.nodes)
    && (forall e :: e in p.connect ==> e.0 in GrownIds(v, p) && e.1 in GrownIds(v, p) && e.0 != e.1)
    && (forall n :: n in p.cancel ==> n in v.nodes && Active(v.nodes[n].state))
    && (forall n :: n in p.wait ==> n in GrownIds(v, p) && (n in v.nodes ==> v.nodes[n].state.Pending?))
    && (forall n :: n in p.resume ==> n in GrownIds(v, p) && (n in v.nodes ==> v.nodes[n].state.Waiting?))
    && Dag.IsDag(GrownIds(v, p), v.edges + Elements(p.connect))
  }

  lemma NewIffDisjoint(v: View, ids: seq<Id>)
    ensures v.nodes.Keys * Elements(ids) == {} <==> forall n :: n in ids ==> n !in v.nodes
  {
    if n :| n in ids && n in v.nodes {
      assert n in v.nodes.Keys * Elements(ids);
    }
  }

  lemma NoErrorIsAcceptable(v: View, p: GraphPatch)
    requires PatchError(v, p).None?
    ensures Acceptable(v, p)
  {
    NewIffDisjoint(v, AddIds(p));
    var listed := p.cancel + p.wait + p.resume;
    assert forall n :: n in p.cancel || n in p.wait || n in p.resume ==> n in listed;
  }

  lemma AcceptableHasNoError(v: View, p: GraphPatch)
    requires Acceptable(v, p)
    ensures PatchError(v, p).None?
  {
    NewIffDisjoint(v, AddIds(p));
    assert forall n :: n in p.cancel ==> n in ActiveNodes(v);
  }

  /** The chain of checks raises nothing exactly when every rule holds. */
  lemma NoErrorIffAcceptable(v: View, p: GraphPatch)
    ensures PatchError(v, p).None? <==> Acceptable(v, p)
  {
    if PatchError(v, p).None? {
      NoErrorIsAcceptable(v, p);
    }
    if Acceptable(v, p) {
      AcceptableHasNoError(v, p);
    }
  }

  function Before(v: View, p: GraphPatch, n: Id): Status
    requires n in GrownIds(v, p)
  {
    if n in v.nodes then v.nodes[n] else FRESH
  }

  /** The state an accepted patch leaves a node in: cancel, then wait, then resume, then finish. */
  function After(p: GraphPatch, n: Id, s: NodeState): NodeState {
    var unfinished := RecordOf(p, 0).(finish := p.finish);
    Settled(unfinished, n, if n in p.cancel then Cancelled else s)
  }

  /** The statuses at the moment the finishing sweep would begin. */
  function Unfinished(v: View, p: GraphPatch): map<Id, Status> {
    map n | n in GrownIds(v, p) ::
      Before(v, p, n).(state := After(p.(finish := false), n, Before(v, p, n).state))
  }

  function CancelEvents(v: View, cancel: seq<Id>, reason: string): (es: seq<Event>)
    requires forall n :: n in cancel ==> n in v.nodes
    ensures |es| == |cancel|
  {
    seq(|cancel|, i requires 0 <= i < |cancel| =>
      TaskCancelled(cancel[i], reason, v.nodes[cancel[i]].state.Running? && cancel[i] !in cancel[..i]))
  }

  const FINISHED_REASON := "graph finished"

  function FinishEvents(order: seq<Id>, nodes: map<Id, Status>): seq<Event>
    requires forall n :: n in order ==> n in nodes
  {
    if order == [] then []
    else
      var n := order[|order| - 1];
      var rest := FinishEvents(order[..|order| - 1], nodes);
      if Active(nodes[n].state) then
        rest + [TaskCancelled(n, FINISHED_REASON, nodes[n].state.Running?)]
      else rest
  }

  ghost predicate Shaped(st: RunState) {
    && Distinct(st.order)
    && (forall n :: n in st.order <==> n in st.view.nodes)
    && (forall n :: n in st.view.nodes <==> n in st.specs)
    && (forall e :: e in st.view.edges ==> e.0 in st.view.nodes && e.1 in st.view.nodes)
  }

  /** The cancellations of an accepted patch, journalled ahead of the patch itself. */
  function Cancellations(st: RunState, p: GraphPatch): seq<Event>
    requires Shaped(st) && Acceptable(st.view, p)
  {
    CancelEvents(st.view, p.cancel, p.reason)
    + (if p.finish then FinishEvents(st.order + AddIds(p), Unfinished(st.view, p)) else [])
  }

  function PatchedSpecs(specs: map<Id, TaskSpec>, add: seq<TaskSpec>): map<Id, TaskSpec> {
    if add == [] then specs
    else PatchedSpecs(specs, add[..|add| - 1])[add[|add| - 1].id := add[|add| - 1]]
  }

  function PatchedView(v: View, p: GraphPatch, trigger: int): View {
    View(
      map n | n in GrownIds(v, p) :: Before(v, p, n).(state := After(p, n, Before(v, p, n).state)),
      v.edges + Elements(p.connect),
      p.finish,
      v.applied[trigger := RecordOf(p, trigger)])
  }

  /** The whole effect of an accepted patch on a checkpoint. */
  function Patched(st: RunState, p: GraphPatch, trigger: int): RunState
    requires Shaped(st) && Acceptable(st.view, p)
  {
    RunState(st.context, PatchedSpecs(st.specs, p.add), st.order + AddIds(p), PatchedView(st.view, p, trigger),
      st.events + (Cancellations(st, p) + [GraphPatched(RecordOf(p, trigger))]))
  }
}
