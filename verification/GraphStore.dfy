/**
  The store itself: one checkpoint per run, replaced whole by every operation, and
  an index from wait handles to runs that may be lost, stale or wrong.

  Each method loads a checkpoint, changes it step by step and saves it once at the end;
  its contract gives the checkpoint it saves as a function of the one it loaded.
*/
module GraphStore {
  import opened Wrappers
  import opened LiveGraph
  import opened RunOps
  import opened RunInvariants
  import opened StringOrder

  type RunId = string

  /** The graph as a planner sees it, tasks listed in identifier order. */
  datatype Snapshot = Snapshot(
    finished: bool, ids: seq<Id>, specs: map<Id, TaskSpec>, nodes: map<Id, Status>, edges: set<(Id, Id)>)

  ghost predicate SnapshotOf(s: Snapshot, st: RunState) {
    && s.finished == st.view.finished && s.specs == st.specs
    && s.nodes == st.view.nodes && s.edges == st.view.edges
    && Increasing(s.ids) && (forall n :: n in s.ids <==> n in st.view.nodes)
  }

  function IndexKey(handle: string, eventType: string): string {
    handle + "|" + eventType
  }

  /** Everything waiting on a handle among the given runs: what a scan of their checkpoints finds. */
  function Waiters(runs: map<RunId, RunState>, among: set<RunId>, handle: string, eventType: string): set<(RunId, Id)> {
    set r, n | r in among && r in runs && n in runs[r].view.nodes && WaitsOn(runs[r].view, n, handle, eventType) ::
      (r, n)
  }

  function AllWaiters(runs: map<RunId, RunState>, handle: string, eventType: string): set<(RunId, Id)> {
    Waiters(runs, runs.Keys, handle, eventType)
  }

  /** The runs the index points at for a handle; an empty run id counts as no entry. */
  function Indexed(index: map<string, RunId>, handle: string, eventType: string): set<RunId> {
    var key := IndexKey(handle, eventType);
    if key in index && index[key] != "" then {index[key]} else {}
  }

  function Resolved(runs: map<RunId, RunState>, index: map<string, RunId>, handle: string, eventType: string):
    set<(RunId, Id)>
  {
    var hit := Waiters(runs, Indexed(index, handle, eventType), handle, eventType);
    if hit != {} then hit else AllWaiters(runs, handle, eventType)
  }

  /**
    Whatever the index holds, the lookup equals the full scan exactly when the run it
    points at holds no waiter or holds them all; one waiter over all runs is enough.
  */
  lemma IndexAgreesWithScan(runs: map<RunId, RunState>, index: map<string, RunId>, handle: string, eventType: string)
    ensures
      var hit := Waiters(runs, Indexed(index, handle, eventType), handle, eventType);
      Resolved(runs, index, handle, eventType) == AllWaiters(runs, handle, eventType) <==>
      (hit == {} || forall w :: w in AllWaiters(runs, handle, eventType) ==> w.0 in Indexed(index, handle, eventType))
    ensures (forall a, b :: a in AllWaiters(runs, handle, eventType) && b in AllWaiters(runs, handle, eventType) ==> a == b) ==>
      Resolved(runs, index, handle, eventType) == AllWaiters(runs, handle, eventType)
  {
    var within := Indexed(index, handle, eventType);
    var hit := Waiters(runs, within, handle, eventType);
    var all := AllWaiters(runs, handle, eventType);
    assert forall w :: w in hit <==> w in all && w.0 in within;
    if hit != {} && (forall a, b :: a in all && b in all ==> a == b) {
      var w :| w in hit;
      assert forall a :: a in all ==> a == w;
      assert hit == all;
    }
    if hit != {} && forall w :: w in all ==> w.0 in within {
      assert hit == all;
    }
  }

  /**
    With two waiters in two runs the scan would refuse the handle as ambiguous; an
    index entry for one of them hides the other, and the delivery goes through.
  */
  lemma IndexHidesAmbiguity(a: RunState, b: RunState, n: Id, handle: string, eventType: string)
    requires WaitsOn(a.view, n, handle, eventType) && WaitsOn(b.view, n, handle, eventType)
    ensures
      var runs := map["run-a" := a, "run-b" := b];
      var index := map[IndexKey(handle, eventType) := "run-a"];
      && (forall w :: w in Resolved(runs, index, handle, eventType) ==> w.0 == "run-a")
      && Resolved(runs, index, handle, eventType) != {}
      && ("run-b", n) in AllWaiters(runs, handle, eventType)
      && ("run-b", n) !in Resolved(runs, index, handle, eventType)
  {
    var runs := map["run-a" := a, "run-b" := b];
    var index := map[IndexKey(handle, eventType) := "run-a"];
    assert ("run-a", n) in Waiters(runs, Indexed(index, handle, eventType), handle, eventType);
  }

// ---------------------------------------------------------------- ready tasks

  ghost predicate ReadyAmong(st: RunState, ids: seq<Id>, ready: seq<TaskSpec>) {
    && (forall i :: 0 <= i < |ready| ==> ReadyTask(st, ready[i]) && ready[i].id in ids)
    && (forall i, j :: 0 <= i < j < |ready| ==> Less(ready[i].id, ready[j].id))
    && (forall n :: n in ids && IsReady(st.view, n) ==> exists i :: 0 <= i < |ready| && ready[i].id == n)
  }

  predicate ReadyTask(st: RunState, t: TaskSpec) {
    && IsReady(st.view, t.id) && t.id in st.specs
    && t == TaskSpec(t.id, st.specs[t.id].skill, st.specs[t.id].input, st.specs[t.id].metadata)
  }

  /** What `ready` promises: ready tasks, in order, none passed over, and as many as the limit allows. */
  ghost predicate ReadyTasks(st: RunState, limit: int, ready: seq<TaskSpec>) {
    && (limit > 0 ==> |ready| <= limit)
    && (forall i :: 0 <= i < |ready| ==> ReadyTask(st, ready[i]))
    && (forall i, j :: 0 <= i < j < |ready| ==> Less(ready[i].id, ready[j].id))
    && (forall n :: IsReady(st.view, n) && (forall i :: 0 <= i < |ready| ==> ready[i].id != n) ==>
          |ready| == limit && forall i :: 0 <= i < |ready| ==> Less(ready[i].id, n))
  }

  lemma ReadyPrefix(st: RunState, ids: seq<Id>, k: nat, limit: int, ready: seq<TaskSpec>)
    requires Increasing(ids) && k <= |ids| && forall n :: n in st.view.nodes ==> n in ids
    requires ReadyAmong(st, ids[..k], ready) && |ready| == limit
    ensures ReadyTasks(st, limit, ready)
  {
    forall n, i | IsReady(st.view, n) && (forall j :: 0 <= j < |ready| ==> ready[j].id != n) && 0 <= i < |ready|
      ensures Less(ready[i].id, n)
    {
      assert n in ids && n !in ids[..k];
      var a :| 0 <= a < |ids| && ids[a] == n;
      assert forall b :: 0 <= b < k ==> ids[..k][b] == ids[b];
      var b :| 0 <= b < k && ids[..k][b] == ready[i].id;
    }
  }

  // ------------------------------------------------------- a patch, step by step

  function Chain(c: seq<Id>, w: seq<Id>, u: seq<Id>, n: Id, s: NodeState): NodeState {
    if n in u then Pending else if n in w then Waiting else if n in c then Cancelled else s
  }

  /** The graph part-way through a patch: some cancelled, then some made to wait, then some resumed. */
  function Staged(v: View, p: GraphPatch, c: seq<Id>, w: seq<Id>, u: seq<Id>): map<Id, Status> {
    map n | n in GrownIds(v, p) :: Before(v, p, n).(state := Chain(c, w, u, n, Before(v, p, n).state))
  }

  function Swept(nodes: map<Id, Status>, done: seq<Id>): map<Id, Status> {
    map n | n in nodes ::
      if n in done && Active(nodes[n].state) then nodes[n].(state := Cancelled) else nodes[n]
  }

  method AddTasks(st: RunState, p: GraphPatch)
    returns (specs: map<Id, TaskSpec>, order: seq<Id>, nodes: map<Id, Status>)
    requires forall n :: n in AddIds(p) ==> n !in st.view.nodes
    ensures specs == PatchedSpecs(st.specs, p.add)
    ensures order == st.order + AddIds(p)
    ensures nodes == Staged(st.view, p, [], [], [])
  {
    specs, order, nodes := st.specs, st.order, st.view.nodes;
    var ids, i := AddIds(p), 0;
    while i < |p.add|
      invariant i <= |p.add|
      invariant specs == PatchedSpecs(st.specs, p.add[..i])
      invariant order == st.order + ids[..i]
      invariant nodes.Keys == st.view.nodes.Keys + Elements(ids[..i])
      invariant forall n :: n in nodes ==> nodes[n] == if n in st.view.nodes then st.view.nodes[n] else FRESH
    {
      var task := p.add[i];
      OneMoreSpec(st.specs, p.add, i);
      assert ids[..i + 1] == ids[..i] + [task.id] && task.id in ids;
      specs, order, nodes := specs[task.id := task], order + [task.id], nodes[task.id := FRESH];
      i := i + 1;
    }
    assert p.add[..i] == p.add && ids[..i] == ids;
    NewlyStaged(st.view, p, nodes);
  }

  lemma NewlyStaged(v: View, p: GraphPatch, nodes: map<Id, Status>)
    requires nodes.Keys == v.nodes.Keys + Elements(AddIds(p))
    requires forall n :: n in nodes ==> nodes[n] == if n in v.nodes then v.nodes[n] else FRESH
    ensures nodes == Staged(v, p, [], [], [])
  {
  }

  lemma OneMoreSpec(specs: map<Id, TaskSpec>, add: seq<TaskSpec>, i: nat)
    requires i < |add|
    ensures PatchedSpecs(specs, add[..i + 1]) == PatchedSpecs(specs, add[..i])[add[i].id := add[i]]
  {
    assert add[..i + 1][..i] == add[..i];
  }

  lemma OneMoreCancelled(v: View, p: GraphPatch, c: seq<Id>, n: Id)
    requires n in GrownIds(v, p)
    ensures Staged(v, p, c + [n], [], []) ==
            var nodes := Staged(v, p, c, [], []); nodes[n := nodes[n].(state := Cancelled)]
  {
  }

  /** The next cancellation: the state it leaves, and the event it journals. */
  lemma NextCancelled(v: View, p: GraphPatch, i: nat)
    requires Acceptable(v, p) && i < |p.cancel|
    ensures
      var n, nodes := p.cancel[i], Staged(v, p, p.cancel[..i], [], []);
      && n in nodes
      && Staged(v, p, p.cancel[..i + 1], [], []) == nodes[n := nodes[n].(state := Cancelled)]
      && CancelEvents(v, p.cancel, p.reason)[..i + 1] ==
         CancelEvents(v, p.cancel, p.reason)[..i] + [TaskCancelled(n, p.reason, nodes[n].state.Running?)]
  {
    var n := p.cancel[i];
    assert n in p.cancel && p.cancel[..i + 1] == p.cancel[..i] + [n];
    OneMoreCancelled(v, p, p.cancel[..i], n);
  }

  method CancelTasks(v: View, p: GraphPatch, was: map<Id, Status>) returns (nodes: map<Id, Status>, events: seq<Event>)
    requires Acceptable(v, p) && was == Staged(v, p, [], [], [])
    ensures nodes == Staged(v, p, p.cancel, [], [])
    ensures events == CancelEvents(v, p.cancel, p.reason)
  {
    nodes, events := was, [];
    var i := 0;
    while i < |p.cancel|
      invariant i <= |p.cancel|
      invariant nodes == Staged(v, p, p.cancel[..i], [], [])
      invariant events == CancelEvents(v, p.cancel, p.reason)[..i]
    {
      var n := p.cancel[i];
      assert n in p.cancel;
      NextCancelled(v, p, i);
      var wasRunning := nodes[n].state == Running;
      nodes := nodes[n := nodes[n].(state := Cancelled)];
      events := events + [TaskCancelled(n, p.reason, wasRunning)];
      i := i + 1;
    }
    assert p.cancel[..i] == p.cancel;
  }

  method WaitTasks(v: View, p: GraphPatch, was: map<Id, Status>) returns (nodes: map<Id, Status>)
    requires forall n :: n in p.wait ==> n in GrownIds(v, p)
    requires was == Staged(v, p, p.cancel, [], [])
    ensures nodes == Staged(v, p, p.cancel, p.wait, [])
  {
    nodes := was;
    var i := 0;
    while i < |p.wait|
      invariant i <= |p.wait|
      invariant nodes == Staged(v, p, p.cancel, p.wait[..i], [])
    {
      var n := p.wait[i];
      assert n in p.wait && p.wait[..i + 1] == p.wait[..i] + [n];
      nodes := nodes[n := nodes[n].(state := Waiting)];
      i := i + 1;
    }
    assert p.wait[..i] == p.wait;
  }

  method ResumeTasks(v: View, p: GraphPatch, was: map<Id, Status>) returns (nodes: map<Id, Status>)
    requires forall n :: n in p.resume ==> n in GrownIds(v, p)
    requires was == Staged(v, p, p.cancel, p.wait, [])
    ensures nodes == Staged(v, p, p.cancel, p.wait, p.resume)
  {
    nodes := was;
    var i := 0;
    while i < |p.resume|
      invariant i <= |p.resume|
      invariant nodes == Staged(v, p, p.cancel, p.wait, p.resume[..i])
    {
      var n := p.resume[i];
      assert n in p.resume && p.resume[..i + 1] == p.resume[..i] + [n];
      nodes := nodes[n := nodes[n].(state := Pending)];
      i := i + 1;
    }
    assert p.resume[..i] == p.resume;
  }

  lemma OneMoreSwept(was: map<Id, Status>, done: seq<Id>, n: Id)
    requires n in was && n !in done
    ensures Swept(was, done)[n] == was[n]
    ensures Swept(was, done + [n]) == if Active(was[n].state) then Swept(was, done)[n := was[n].(state := Cancelled)]
                                      else Swept(was, done)
  {
  }

  method FinishTasks(order: seq<Id>, was: map<Id, Status>) returns (nodes: map<Id, Status>, events: seq<Event>)
    requires Distinct(order) && forall n :: n in order ==> n in was
    ensures nodes == Swept(was, order)
    ensures events == FinishEvents(order, was)
  {
    nodes, events := was, [];
    var i := 0;
    while i < |order|
      invariant i <= |order|
      invariant nodes == Swept(was, order[..i])
      invariant events == FinishEvents(order[..i], was)
    {
      var n := order[i];
      assert n in order && order[..i + 1] == order[..i] + [n] && order[..i + 1][..i] == order[..i];
      assert n !in order[..i];
      OneMoreSwept(was, order[..i], n);
      if Active(nodes[n].state) {
        events := events + [TaskCancelled(n, FINISHED_REASON, nodes[n].state == Running)];
        nodes := nodes[n := nodes[n].(state := Cancelled)];
      }
      i := i + 1;
    }
    assert order[..i] == order;
  }

  /** Cancel, wait, resume: the statuses before the finishing sweep, and the journalled cancellations. */
  method Settle(v: View, p: GraphPatch, was: map<Id, Status>) returns (nodes: map<Id, Status>, events: seq<Event>)
    requires Acceptable(v, p) && was == Staged(v, p, [], [], [])
    ensures nodes == Unfinished(v, p)
    ensures events == CancelEvents(v, p.cancel, p.reason)
  {
    nodes, events := CancelTasks(v, p, was);
    nodes := WaitTasks(v, p, nodes);
    nodes := ResumeTasks(v, p, nodes);
    StagesSettle(v, p);
  }

  lemma StagesSettle(v: View, p: GraphPatch)
    ensures Staged(v, p, p.cancel, p.wait, p.resume) == Unfinished(v, p)
  {
    forall n | n in GrownIds(v, p)
      ensures Staged(v, p, p.cancel, p.wait, p.resume)[n] == Unfinished(v, p)[n]
    {
    }
  }

  /** Carries out an accepted patch on a loaded checkpoint. */
  method Rewrite(st: RunState, p: GraphPatch, trigger: int) returns (patched: RunState)
    requires Shaped(st) && Acceptable(st.view, p)
    ensures patched == Patched(st, p, trigger)
  {
    PatchedOrder(st, p);
    var specs, order, nodes := AddTasks(st, p);
    var edges := st.view.edges + Elements(p.connect);
    var cancelled, swept := [], [];
    nodes, cancelled := Settle(st.view, p, nodes);
    if p.finish {
      nodes, swept := FinishTasks(order, nodes);
    }
    SweepFinishes(st.view, p, trigger, order);
    var record := RecordOf(p, trigger);
    patched := RunState(st.context, specs, order, View(nodes, edges, p.finish, st.view.applied[trigger := record]),
      st.events + (cancelled + swept + [GraphPatched(record)]));
  }

  lemma PatchedOrder(st: RunState, p: GraphPatch)
    requires Shaped(st) && Acceptable(st.view, p)
    ensures Distinct(st.order + AddIds(p))
    ensures forall n :: n in st.order + AddIds(p) <==> n in GrownIds(st.view, p)
  {
    PatchedShaped(st, p, 0);
  }

  lemma SweepFinishes(v: View, p: GraphPatch, trigger: int, order: seq<Id>)
    requires forall n :: n in order <==> n in GrownIds(v, p)
    ensures (if p.finish then Swept(Unfinished(v, p), order) else Unfinished(v, p)) ==
            PatchedView(v, p, trigger).nodes
  {
    var swept := if p.finish then Swept(Unfinished(v, p), order) else Unfinished(v, p);
    var last := PatchedView(v, p, trigger).nodes;
    assert swept.Keys == last.Keys;
    forall n | n in GrownIds(v, p)
      ensures swept[n] == last[n]
    {
      SweepFinishesNode(p, n, Before(v, p, n).state);
    }
  }

  lemma SweepFinishesNode(p: GraphPatch, n: Id, s: NodeState)
    ensures
      var unfinished := After(p.(finish := false), n, s);
      After(p, n, s) == if p.finish && Active(unfinished) then Cancelled else unfinished
  {
  }

  // ------------------------------------------------------------- loops on values

  method InterruptAll(order: seq<Id>, was: map<Id, Status>) returns (nodes: map<Id, Status>)
    requires forall n :: n in order <==> n in was
    ensures nodes == map n | n in was :: Interrupted(was[n])
  {
    nodes := was;
    var i := 0;
    while i < |order|
      invariant i <= |order|
      invariant nodes.Keys == was.Keys
      invariant forall n :: n in was ==> nodes[n] == if n in order[..i] then Interrupted(was[n]) else was[n]
    {
      var n := order[i];
      assert order[..i + 1] == order[..i] + [n];
      if nodes[n].state == Running {
        nodes := nodes[n := nodes[n].(state := Pending)];
      }
      i := i + 1;
    }
    assert order[..i] == order;
  }

  lemma ReadySkips(st: RunState, ids: seq<Id>, i: nat, ready: seq<TaskSpec>)
    requires i < |ids| && ReadyAmong(st, ids[..i], ready) && !IsReady(st.view, ids[i])
    ensures ReadyAmong(st, ids[..i + 1], ready)
  {
    assert ids[..i + 1] == ids[..i] + [ids[i]];
  }

  method FirstReady(st: RunState, limit: int) returns (ready: seq<TaskSpec>)
    requires Shaped(st)
    ensures ReadyTasks(st, limit, ready)
  {
    var ids := Sorted(st.view.nodes.Keys);
    ready := [];
    var i := 0;
    while i < |ids|
      invariant i <= |ids|
      invariant ReadyAmong(st, ids[..i], ready)
      invariant limit > 0 ==> |ready| < limit
    {
      var id := ids[i];
      assert id in ids;
      if !IsReady(st.view, id) {
        ReadySkips(st, ids, i, ready);
      } else {
        var task := TaskSpec(id, st.specs[id].skill, st.specs[id].input, st.specs[id].metadata);
        ReadyGrows(st, ids, i, ready, task);
        ready := ready + [task];
        if |ready| == limit {
          ReadyPrefix(st, ids, i + 1, limit, ready);
          return;
        }
      }
      i := i + 1;
    }
    assert ids[..i] == ids;
  }

  /** Marks the pending tasks of a list running, on a copy that an unknown task throws away. */
  method MarkTasks(before: RunState, tasks: seq<TaskSpec>) returns (r: Result<RunState, StoreError>)
    ensures r.Success? <==> forall t :: t in tasks ==> t.id in before.view.nodes
    ensures r.Success? ==> r.value == Marked(before, tasks)
  {
    var st, i := before, 0;
    while i < |tasks|
      invariant i <= |tasks|
      invariant forall t :: t in tasks[..i] ==> t.id in before.view.nodes
      invariant st == Marked(before, tasks[..i])
    {
      var task := tasks[i];
      assert tasks[..i + 1] == tasks[..i] + [task];
      if task.id !in st.view.nodes {
        assert task in tasks;
        return Failure(UnknownTask(task.id));
      }
      if st.view.nodes[task.id].state == Pending {
        var agent := match task.metadata.agent case Some(a) => a case None => task.skill;
        st := st.(view := st.view.(nodes := st.view.nodes[task.id := st.view.nodes[task.id].(state := Running)]),
                  events := st.events + [TaskStarted(task.id, task.skill, agent)]);
      }
      i := i + 1;
    }
    assert tasks[..i] == tasks;
    return Success(st);
  }

  lemma ReadyGrows(st: RunState, ids: seq<Id>, i: nat, ready: seq<TaskSpec>, task: TaskSpec)
    requires Increasing(ids) && i < |ids| && task.id == ids[i]
    requires ReadyAmong(st, ids[..i], ready) && ReadyTask(st, task)
    ensures ReadyAmong(st, ids[..i + 1], ready + [task])
  {
    var longer := ready + [task];
    assert ids[..i + 1] == ids[..i] + [ids[i]];
    forall a | 0 <= a < |ready|
      ensures Less(ready[a].id, task.id)
    {
      var b :| 0 <= b < i && ids[..i][b] == ready[a].id;
    }
    forall n | n in ids[..i + 1] && IsReady(st.view, n)
      ensures exists a :: 0 <= a < |longer| && longer[a].id == n
    {
      if n in ids[..i] {
        var a :| 0 <= a < |ready| && ready[a].id == n;
        assert longer[a].id == n;
      } else {
        assert longer[|ready|].id == n;
      }
    }
  }

  ghost predicate PointsAtOwner(index: map<string, RunId>, was: map<string, RunId>, key: string, found: set<(RunId, Id)>) {
    exists w :: w in found && index == was[key := w.0]
  }

  lemma PointsAfterRemoval(index: map<string, RunId>, was: map<string, RunId>, key: string, found: set<(RunId, Id)>)
    requires PointsAtOwner(index, was - {key}, key, found) || PointsAtOwner(index, was, key, found)
    ensures PointsAtOwner(index, was, key, found)
  {
    if PointsAtOwner(index, was - {key}, key, found) {
      var w :| w in found && index == (was - {key})[key := w.0];
      assert index == was[key := w.0];
    }
  }

  /** Points a key at the owners found, one after another; the last one stays. */
  method Repaired(index: map<string, RunId>, key: string, found: set<(RunId, Id)>) returns (fixed: map<string, RunId>)
    ensures found == {} ==> fixed == index
    ensures found != {} ==> PointsAtOwner(fixed, index, key, found)
  {
    fixed := index;
    var rest := found;
    while rest != {}
      invariant rest <= found
      invariant rest == found ==> fixed == index
      invariant rest != found ==> PointsAtOwner(fixed, index, key, found)
      decreases rest
    {
      var owner :| owner in rest;
      rest := rest - {owner};
      fixed := fixed[key := owner.0];
      assert fixed == index[key := owner.0];
    }
  }

  lemma TwoAtLeast<T>(s: set<T>, x: T)
    requires x in s && s != {x}
    ensures |s| > 1
  {
    var y :| y in s && y != x;
    assert y in s - {x} && |s - {x}| == |s| - 1;
  }

  /** What a delivery does to the checkpoints: it completes the one task found, and nothing when none or several are. */
  ghost function Delivered(
    runs: map<RunId, RunState>, index: map<string, RunId>, handle: string, eventType: string, payload: Json, success: bool):
    map<RunId, RunState>
  {
    var found := Resolved(runs, index, handle, eventType);
    if |found| != 1 then runs
    else
      var w :| w in found;
      runs[w.0 := Completed(runs[w.0], w.1, handle, eventType, payload, success)]
  }

  lemma DeliveredOne(
    runs: map<RunId, RunState>, index: map<string, RunId>, handle: string, eventType: string, payload: Json,
    success: bool, w: (RunId, Id))
    requires Resolved(runs, index, handle, eventType) == {w}
    ensures w.0 in runs && w.1 in runs[w.0].view.nodes
    ensures Delivered(runs, index, handle, eventType, payload, success) ==
            runs[w.0 := Completed(runs[w.0], w.1, handle, eventType, payload, success)]
  {
    var found := Resolved(runs, index, handle, eventType);
    assert w in found && |found| == 1;
  }

  /** A delivered event leaves nobody waiting, so delivering it again finds nothing, whatever the index says. */
  lemma RedeliveryIsNoOp(
    runs: map<RunId, RunState>, run: RunId, n: Id, handle: string, eventType: string, payload: Json,
    success: bool, index: map<string, RunId>)
    requires run in runs && AllWaiters(runs, handle, eventType) == {(run, n)}
    requires n in runs[run].view.nodes
    ensures
      var after := runs[run := Completed(runs[run], n, handle, eventType, payload, success)];
      Resolved(after, index, handle, eventType) == {}
  {
    var after := runs[run := Completed(runs[run], n, handle, eventType, payload, success)];
    forall r, m | r in after && m in after[r].view.nodes
      ensures !WaitsOn(after[r].view, m, handle, eventType)
    {
      assert (r, m) in AllWaiters(runs, handle, eventType) || (r, m) == (run, n) || !WaitsOn(runs[r].view, m, handle, eventType);
    }
    assert AllWaiters(after, handle, eventType) == {};
    assert Waiters(after, Indexed(index, handle, eventType), handle, eventType) == {};
  }

  class GraphStore {
    var runs: map<RunId, RunState>
    var index: map<string, RunId>

    ghost predicate Valid()
      reads this
    {
      forall r :: r in runs ==> Sound(runs[r])
    }

    constructor (checkpoints: map<RunId, RunState>, handles: map<string, RunId>)
      requires forall r :: r in checkpoints ==> Sound(checkpoints[r])
      ensures Valid() && runs == checkpoints && index == handles
    {
      runs, index := checkpoints, handles;
    }

    method Start(run: RunId, context: Json) returns (created: bool)
      requires Valid()
      modifies this`runs
      ensures Valid()
      ensures created <==> run !in old(runs)
      ensures runs == if created then old(runs)[run := Fresh(context)] else old(runs)
    {
      if run in runs {
        return false;
      }
      FreshKeeps(context);
      runs := runs[run := RunState(context, map[], [], EMPTY, [RunStarted])];
      return true;
    }

    method Resume(run: RunId) returns (r: Result<(), StoreError>)
      requires Valid()
      modifies this`runs
      ensures Valid()
      ensures r.Success? <==> run in old(runs)
      ensures runs == if r.Success? then old(runs)[run := Resumed(old(runs)[run])] else old(runs)
    {
      if run !in runs {
        return Failure(UnknownRun);
      }
      var st := runs[run];
      var nodes := InterruptAll(st.order, st.view.nodes);
      assert nodes == Resumed(st).view.nodes;
      ResumedKeeps(st);
      runs := runs[run := st.(view := st.view.(nodes := nodes), events := st.events + [RunResumed])];
      return Success(());
    }

    method TakeSnapshot(run: RunId) returns (r: Result<Snapshot, StoreError>)
      requires Valid()
      ensures r.Success? <==> run in runs
      ensures r.Success? ==> SnapshotOf(r.value, runs[run])
    {
      if run !in runs {
        return Failure(UnknownRun);
      }
      var st := runs[run];
      var ids := Sorted(st.view.nodes.Keys);
      return Success(Snapshot(st.view.finished, ids, st.specs, st.view.nodes, st.view.edges));
    }

    /** The first `limit` ready tasks in identifier order; a limit of zero or less bounds nothing. */
    method Ready(run: RunId, limit: int) returns (r: Result<seq<TaskSpec>, StoreError>)
      requires Valid()
      ensures r.Success? <==> run in runs
      ensures r.Success? ==> ReadyTasks(runs[run], limit, r.value)
    {
      if run !in runs {
        return Failure(UnknownRun);
      }
      var st := runs[run];
      var ready := FirstReady(st, limit);
      return Success(ready);
    }

    method MarkRunning(run: RunId, tasks: seq<TaskSpec>) returns (r: Result<(), StoreError>)
      requires Valid()
      modifies this`runs
      ensures Valid()
      ensures r.Success? <==> run in old(runs) && forall t :: t in tasks ==> t.id in old(runs)[run].view.nodes
      ensures runs == if r.Success? then old(runs)[run := Marked(old(runs)[run], tasks)] else old(runs)
    {
      if run !in runs {
        return Failure(UnknownRun);
      }
      var marked := MarkTasks(runs[run], tasks);
      if marked.Failure? {
        return Failure(marked.error);
      }
      MarkedKeeps(runs[run], tasks);
      runs := runs[run := marked.value];
      return Success(());
    }

    /** Returns the sequence number of the outcome it journals. */
    method RecordOutcome(run: RunId, n: Id, success: bool, payload: Json) returns (r: Result<int, StoreError>)
      requires Valid()
      modifies this`runs
      ensures Valid()
      ensures r.Success? <==> run in old(runs) && IsRunning(old(runs)[run], n)
      ensures r.Success? ==>
                && runs == old(runs)[run := Concluded(old(runs)[run], n, success, payload)]
                && r.value == |runs[run].events|
      ensures r.Failure? ==> runs == old(runs)
    {
      if run !in runs {
        return Failure(UnknownRun);
      }
      var st := runs[run];
      if n !in st.view.nodes {
        return Failure(UnknownTask(n));
      }
      if st.view.nodes[n].state != Running {
        return Failure(NotRunning(n));
      }
      var status := st.view.nodes[n].(state := if success then Succeeded else Failed, result := Some(payload));
      var event := if success then TaskSucceeded(n, payload) else TaskFailed(n, payload);
      ConcludedKeeps(st, n, success, payload);
      runs := runs[run := st.(view := st.view.(nodes := st.view.nodes[n := status]), events := st.events + [event])];
      return Success(|runs[run].events|);
    }

    method RecordWaiting(run: RunId, n: Id, wait: Wait) returns (r: Result<int, StoreError>)
      requires Valid()
      modifies this
      ensures Valid()
      ensures r.Success? <==> run in old(runs) && IsRunning(old(runs)[run], n)
      ensures r.Success? ==>
                && runs == old(runs)[run := Parked(old(runs)[run], n, wait)]
                && r.value == |runs[run].events|
                && index == (if wait.handle != "" && wait.eventType != ""
                             then old(index)[IndexKey(wait.handle, wait.eventType) := run] else old(index))
      ensures r.Failure? ==> runs == old(runs) && index == old(index)
    {
      if run !in runs {
        return Failure(UnknownRun);
      }
      var st := runs[run];
      if n !in st.view.nodes {
        return Failure(UnknownTask(n));
      }
      if st.view.nodes[n].state != Running {
        return Failure(NotRunning(n));
      }
      var status := st.view.nodes[n].(state := Waiting, wait := Some(wait));
      ParkedKeeps(st, n, wait);
      runs := runs[run := st.(view := st.view.(nodes := st.view.nodes[n := status]),
                              events := st.events + [TaskWaiting(n, wait)])];
      if wait.handle != "" && wait.eventType != "" {
        index := index[IndexKey(wait.handle, wait.eventType) := run];
      }
      return Success(|runs[run].events|);
    }

    method ScanRun(st: RunState, handle: string, eventType: string) returns (found: set<Id>)
      requires forall n :: n in st.order <==> n in st.view.nodes
      ensures found == set n | n in st.view.nodes && WaitsOn(st.view, n, handle, eventType)
    {
      found := {};
      var i := 0;
      while i < |st.order|
        invariant i <= |st.order|
        invariant found == set n | n in st.order[..i] && WaitsOn(st.view, n, handle, eventType)
      {
        assert st.order[..i + 1] == st.order[..i] + [st.order[i]];
        if WaitsOn(st.view, st.order[i], handle, eventType) {
          found := found + {st.order[i]};
        }
        i := i + 1;
      }
      assert st.order[..i] == st.order;
    }

    method Scan(among: set<RunId>, handle: string, eventType: string) returns (found: set<(RunId, Id)>)
      requires Valid()
      ensures found == Waiters(runs, among, handle, eventType)
    {
      found := {};
      var rest := among;
      while rest != {}
        invariant rest <= among
        invariant found == Waiters(runs, among - rest, handle, eventType)
        decreases rest
      {
        var run :| run in rest;
        rest := rest - {run};
        assert among - rest == (among - rest - {run}) + {run};
        if run in runs {
          var here := ScanRun(runs[run], handle, eventType);
          found := found + set n | n in here :: (run, n);
        }
      }
      assert among - rest == among;
    }

    /** Through the index if it leads anywhere, else by reading every checkpoint and repairing the index. */
    method FindWaiting(handle: string, eventType: string) returns (found: set<(RunId, Id)>)
      requires Valid()
      modifies this`index
      ensures found == Resolved(runs, old(index), handle, eventType)
      ensures found == {} ==> index == old(index) || index == old(index) - {IndexKey(handle, eventType)}
      ensures found == {} ==> Indexed(index, handle, eventType) == {}
      ensures found != {} ==> PointsAtOwner(index, old(index), IndexKey(handle, eventType), found)
    {
      var key := IndexKey(handle, eventType);
      if key in index && index[key] != "" {
        var hit := Scan({index[key]}, handle, eventType);
        if hit != {} {
          return hit;
        }
        index := index - {key};
      }
      found := ScanAndRepair(key, handle, eventType);
      if found != {} {
        PointsAfterRemoval(index, old(index), key, found);
      }
    }

    method ScanAndRepair(key: string, handle: string, eventType: string) returns (found: set<(RunId, Id)>)
      requires Valid()
      modifies this`index
      ensures found == AllWaiters(runs, handle, eventType)
      ensures found == {} ==> index == old(index)
      ensures found != {} ==> PointsAtOwner(index, old(index), key, found)
    {
      found := Scan(runs.Keys, handle, eventType);
      index := Repaired(index, key, found);
    }

    /** Completes the one task waiting on a handle; anything but exactly one changes no run. */
    method CompleteWaiting(handle: string, eventType: string, payload: Json, success: bool)
      returns (r: Result<Option<(RunId, Id)>, StoreError>)
      requires Valid()
      modifies this
      ensures Valid()
      ensures
        var found := Resolved(old(runs), old(index), handle, eventType);
        && (r.Failure? <==> |found| > 1)
        && (r == Success(None) <==> found == {})
        && (r.Success? && r.value.Some? ==>
              var (run, n) := r.value.value;
              && found == {(run, n)}
              && runs == old(runs)[run := Completed(old(runs)[run], n, handle, eventType, payload, success)]
              && Indexed(index, handle, eventType) == {})
        && (r.Failure? || r.value.None? ==> runs == old(runs))
      ensures runs == Delivered(old(runs), old(index), handle, eventType, payload, success)
    {
      var found := FindWaiting(handle, eventType);
      if found == {} {
        return Success(None);
      }
      var w :| w in found;
      if found != {w} {
        TwoAtLeast(found, w);
        return Failure(AmbiguousHandle);
      }
      assert {w} == found;
      DeliveredOne(runs, old(index), handle, eventType, payload, success, w);
      CompleteAt(w.0, w.1, handle, eventType, payload, success);
      return Success(Some(w));
    }

    method CompleteAt(run: RunId, n: Id, handle: string, eventType: string, payload: Json, success: bool)
      requires Valid() && run in runs && WaitsOn(runs[run].view, n, handle, eventType)
      modifies this
      ensures Valid()
      ensures runs == old(runs)[run := Completed(old(runs)[run], n, handle, eventType, payload, success)]
      ensures index == old(index) - {IndexKey(handle, eventType)}
    {
      var st := runs[run];
      var state := if success then Succeeded else Failed;
      var status := Status(state, Some(payload), None);
      var event := if success then TaskSucceeded(n, payload) else TaskFailed(n, payload);
      CompletedKeeps(st, n, handle, eventType, payload, success);
      var completed := st.(view := st.view.(nodes := st.view.nodes[n := status]),
                           events := st.events + [ExternalReceived(n, handle, eventType), event]);
      assert completed == Completed(st, n, handle, eventType, payload, success);
      runs := runs[run := completed];
      index := index - {IndexKey(handle, eventType)};
    }

    method PendingPlannerEvents(run: RunId) returns (r: Result<seq<int>, StoreError>)
      requires Valid()
      ensures r.Success? <==> run in runs
      ensures r.Success? ==> r.value == Unplanned(runs[run].events, runs[run].view.applied)
    {
      if run !in runs {
        return Failure(UnknownRun);
      }
      var st := runs[run];
      var pending, i := [], 0;
      while i < |st.events|
        invariant i <= |st.events|
        invariant pending == Unplanned(st.events[..i], st.view.applied)
      {
        assert st.events[..i + 1][..i] == st.events[..i];
        i := i + 1;
        if PlannerEvent(st.events[i - 1]) && i !in st.view.applied {
          pending := pending + [i];
        }
      }
      assert st.events[..i] == st.events;
      return Success(pending);
    }

    /** False when the trigger has its patch already; otherwise the patch is applied whole or not at all. */
    method ApplyPatch(run: RunId, p: GraphPatch, trigger: int) returns (r: Result<bool, StoreError>)
      requires Valid()
      modifies this`runs
      ensures Valid()
      ensures run !in old(runs) ==> r == Failure(UnknownRun)
      ensures run in old(runs) ==>
                var st := old(runs)[run];
                && (r == Success(false) <==> trigger in st.view.applied)
                && (r == Success(true) <==> trigger !in st.view.applied && Acceptable(st.view, p))
                && (r.Failure? ==> Some(r.error) == PatchError(st.view, p))
                && (r == Success(true) ==> runs == old(runs)[run := Patched(st, p, trigger)])
      ensures r != Success(true) ==> runs == old(runs)
    {
      if run !in runs {
        return Failure(UnknownRun);
      }
      var st := runs[run];
      if trigger in st.view.applied {
        return Success(false);
      }
      var error := PatchError(st.view, p);
      NoErrorIffAcceptable(st.view, p);
      if error.Some? {
        return Failure(error.value);
      }
      PatchedKeeps(st, p, trigger);
      var patched := Rewrite(st, p, trigger);
      runs := runs[run := patched];
      return Success(true);
    }

    method RecordExternalEvent(run: RunId, kind: string, n: Id, payload: Json) returns (r: Result<(), StoreError>)
      requires Valid()
      modifies this`runs
      ensures Valid()
      ensures r.Success? <==> run in old(runs)
      ensures runs == if r.Success? then old(runs)[run := Noted(old(runs)[run], kind, n, payload)] else old(runs)
    {
      if run !in runs {
        return Failure(UnknownRun);
      }
      var st := runs[run];
      NotedKeeps(st, kind, n, payload);
      runs := runs[run := st.(events := st.events + [External(kind, n, payload)])];
      return Success(());
    }
  }
}
