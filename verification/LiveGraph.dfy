/**
  The values a durable run is made of: tasks, patches, journal events, and the
  two halves of a checkpoint, the journal and the graph it materialises.

  `Replay` folds the journal back into the graph.  It is an independent reading
  of the journal: nothing that updates a checkpoint calls it.
*/
module LiveGraph {
  import opened Wrappers

  type Id = string
  type Json = string

  datatype NodeState = Pending | Running | Succeeded | Failed | Cancelled | Waiting

  /** The states a finishing patch cancels, and the only ones a patch may cancel. */
  predicate Active(s: NodeState) {
    s.Pending? || s.Running? || s.Waiting?
  }

  /** What a deferred worker left behind: the external event that will complete it. */
  datatype Wait = Wait(handle: string, eventType: string, extra: Json)

  datatype TaskMeta = TaskMeta(agent: Option<string>, sideEffect: bool, tier: Option<string>)

  datatype TaskSpec = TaskSpec(id: Id, skill: string, input: Json, metadata: TaskMeta)

  datatype GraphPatch = GraphPatch(
    add: seq<TaskSpec>, connect: seq<(Id, Id)>, cancel: seq<Id>, wait: seq<Id>, resume: seq<Id>,
    finish: bool, reason: string, metadata: Json)

  function AddIds(p: GraphPatch): (ids: seq<Id>)
    ensures |ids| == |p.add| && forall i :: 0 <= i < |ids| ==> ids[i] == p.add[i].id
  {
    seq(|p.add|, i requires 0 <= i < |p.add| => p.add[i].id)
  }

  function Elements<T(==)>(s: seq<T>): set<T> {
    set x | x in s
  }

  lemma SubsetSize<T>(xs: set<T>, ys: set<T>)
    requires xs <= ys
    ensures |xs| <= |ys|
  {
    assert ys == xs + (ys - xs);
  }

  /** What the journal keeps of a patch: the added tasks by identifier only. */
  datatype PatchRecord = PatchRecord(
    trigger: int, reason: string, add: seq<Id>, connect: seq<(Id, Id)>, cancel: seq<Id>,
    wait: seq<Id>, resume: seq<Id>, finish: bool, metadata: Json)

  function RecordOf(p: GraphPatch, trigger: int): PatchRecord {
    PatchRecord(trigger, p.reason, AddIds(p), p.connect, p.cancel, p.wait, p.resume, p.finish, p.metadata)
  }

  /** One journal entry; its sequence number is its position, counted from one. */
  datatype Event =
    | RunStarted
    | RunResumed
    | TaskStarted(node: Id, skill: string, agent: string)
    | TaskSucceeded(node: Id, result: Json)
    | TaskFailed(node: Id, result: Json)
    | TaskWaiting(node: Id, wait: Wait)
    | TaskCancelled(node: Id, reason: string, wasRunning: bool)
    | ExternalReceived(node: Id, handle: string, eventType: string)
    | GraphPatched(record: PatchRecord)
    | External(kind: string, node: Id, payload: Json)

  predicate Outcome(e: Event) {
    e.TaskSucceeded? || e.TaskFailed?
  }

  /** The events every one of which asks the planner for a patch. */
  predicate PlannerEvent(e: Event) {
    e.RunStarted? || Outcome(e)
  }

  datatype Status = Status(state: NodeState, result: Option<Json>, wait: Option<Wait>)

  const FRESH := Status(Pending, None, None)

  /** The part of a checkpoint that the journal determines. */
  datatype View = View(
    nodes: map<Id, Status>, edges: set<(Id, Id)>, finished: bool, applied: map<int, PatchRecord>)

  const EMPTY := View(map[], {}, false, map[])

  /** `order` is the order of insertion; `specs` is what the journal does not repeat. */
  datatype RunState = RunState(
    context: Json, specs: map<Id, TaskSpec>, order: seq<Id>, view: View, events: seq<Event>)

  function Put(nodes: map<Id, Status>, n: Id, s: NodeState): map<Id, Status> {
    if n in nodes then nodes[n := nodes[n].(state := s)] else nodes
  }

  function Interrupted(s: Status): Status {
    if s.state.Running? then s.(state := Pending) else s
  }

  /** The state a replayed patch leaves a node in; its cancellations have events of their own. */
  function Settled(r: PatchRecord, n: Id, s: NodeState): NodeState {
    var waited := if n in r.wait then Waiting else s;
    var resumed := if n in r.resume then Pending else waited;
    if r.finish && Active(resumed) then Cancelled else resumed
  }

  function Apply(v: View, e: Event): View {
    match e
    case RunStarted => v
    case RunResumed => v.(nodes := map n | n in v.nodes :: Interrupted(v.nodes[n]))
    case TaskStarted(n, _, _) => v.(nodes := Put(v.nodes, n, Running))
    case TaskSucceeded(n, result) => v.(nodes := Conclude(v.nodes, n, Succeeded, result))
    case TaskFailed(n, result) => v.(nodes := Conclude(v.nodes, n, Failed, result))
    case TaskWaiting(n, w) =>
      if n in v.nodes then
        v.(nodes := v.nodes[n := v.nodes[n].(state := Waiting, wait := Some(w))])
      else v
    case TaskCancelled(n, _, _) => v.(nodes := Put(v.nodes, n, Cancelled))
    case ExternalReceived(n, _, _) =>
      if n in v.nodes then v.(nodes := v.nodes[n := v.nodes[n].(wait := None)]) else v
    case GraphPatched(r) =>
      v.(nodes := map n | n in v.nodes.Keys + Elements(r.add) ::
           var base := if n in v.nodes then v.nodes[n] else FRESH;
           base.(state := Settled(r, n, base.state)),
         edges := v.edges + Elements(r.connect),
         finished := v.finished || r.finish,
         applied := v.applied[r.trigger := r])
    case External(_, _, _) => v
  }

  function Conclude(nodes: map<Id, Status>, n: Id, s: NodeState, result: Json): map<Id, Status> {
    if n in nodes then nodes[n := nodes[n].(state := s, result := Some(result))] else nodes
  }

  function Replay(es: seq<Event>): View {
    ReplayFrom(EMPTY, es)
  }

  function ReplayFrom(v: View, es: seq<Event>): View {
    if es == [] then v else Apply(ReplayFrom(v, es[..|es| - 1]), es[|es| - 1])
  }

  lemma {:induction false} ReplaySplit(v: View, xs: seq<Event>, ys: seq<Event>)
    ensures ReplayFrom(v, xs + ys) == ReplayFrom(ReplayFrom(v, xs), ys)
  {
    if ys == [] {
      assert xs + ys == xs;
    } else {
      var front := ys[..|ys| - 1];
      assert (xs + ys)[..|xs + ys| - 1] == xs + front;
      ReplaySplit(v, xs, front);
    }
  }

  lemma ReplayOne(v: View, e: Event)
    ensures ReplayFrom(v, [e]) == Apply(v, e)
  {
    assert [e][..0] == [];
  }
}
