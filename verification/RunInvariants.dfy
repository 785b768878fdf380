/**
  What every store operation keeps true of a checkpoint, whatever sequence of
  operations, crashes and resumes led to it.
*/
module RunInvariants {
  import opened Wrappers
  import opened LiveGraph
  import opened RunOps
  import opened EventSourcing
  import Dag

  predicate Concluded?(s: NodeState) {
    s.Succeeded? || s.Failed?
  }

  ghost predicate OutcomeAt(es: seq<Event>, i: int, n: Id) {
    0 <= i < |es| && Outcome(es[i]) && es[i].node == n
  }

  ghost predicate PatchAt(es: seq<Event>, i: int, t: int) {
    0 <= i < |es| && es[i].GraphPatched? && es[i].record.trigger == t
  }

  ghost predicate Reports(e: Event, s: Status)
    requires Outcome(e)
  {
    s.state == (if e.TaskSucceeded? then Succeeded else Failed) && s.result == Some(e.result)
  }

  /** A task has an outcome in the journal exactly when it has concluded, one only, and the one it shows. */
  ghost predicate OneOutcomeEach(es: seq<Event>, nodes: map<Id, Status>) {
    && (forall i, n :: OutcomeAt(es, i, n) ==> n in nodes && Reports(es[i], nodes[n]))
    && (forall i, j, n :: OutcomeAt(es, i, n) && OutcomeAt(es, j, n) ==> i == j)
    && (forall n :: n in nodes && Concluded?(nodes[n].state) ==> exists i :: OutcomeAt(es, i, n))
  }

  /** Each trigger has one patch in the journal at most, and the triggers recorded as applied are just those. */
  ghost predicate OnePatchEach(es: seq<Event>, applied: map<int, PatchRecord>) {
    && (forall i, j, t :: PatchAt(es, i, t) && PatchAt(es, j, t) ==> i == j)
    && (forall t :: t in applied <==> exists i :: PatchAt(es, i, t))
  }

  ghost predicate StartsOnce(es: seq<Event>) {
    && |es| > 0 && es[0].RunStarted?
    && (forall i :: 0 < i < |es| ==> !es[i].RunStarted?)
  }

  ghost predicate IdleWhenFinished(v: View) {
    v.finished ==> forall n :: n in v.nodes ==> !Active(v.nodes[n].state)
  }

  /** Kept by every operation under every patch the store accepts. */
  ghost predicate Sound(st: RunState) {
    && Shaped(st)
    && Recorded(st)
    && Dag.IsDag(st.view.nodes.Keys, st.view.edges)
    && IdleWhenFinished(st.view)
    && OneOutcomeEach(st.events, st.view.nodes)
    && OnePatchEach(st.events, st.view.applied)
    && StartsOnce(st.events)
  }

  // ------------------------------------------------------------ dependencies

  /** A task that has begun at some time; a deferred one is known by its wait. */
  predicate Begun(s: Status) {
    s.state.Running? || Concluded?(s.state) || s.wait.Some?
  }

  ghost predicate SucceededBefore(es: seq<Event>, n: Id, i: int) {
    exists j :: 0 <= j < i && j < |es| && es[j].TaskSucceeded? && es[j].node == n
  }

  ghost predicate BegunAfterParents(v: View) {
    forall e :: e in v.edges && e.0 in v.nodes && e.1 in v.nodes && Begun(v.nodes[e.1]) ==>
      v.nodes[e.0].state.Succeeded?
  }

  ghost predicate StartsJustified(es: seq<Event>, v: View) {
    forall i :: 0 <= i < |es| && es[i].TaskStarted? ==>
      es[i].node in v.nodes && forall p :: (p, es[i].node) in v.edges ==> SucceededBefore(es, p, i)
  }

  /** Dependency safety: of the graph now, and of the whole journal behind it. */
  ghost predicate DependencySafe(st: RunState) {
    BegunAfterParents(st.view) && StartsJustified(st.events, st.view)
  }

  // ------------------------------------------------- generic journal extension

  lemma QuietOutcomes(es: seq<Event>, nodes: map<Id, Status>, more: seq<Event>, nodes': map<Id, Status>)
    requires OneOutcomeEach(es, nodes)
    requires forall e :: e in more ==> !Outcome(e)
    requires forall n :: n in nodes && Concluded?(nodes[n].state) ==>
               n in nodes' && nodes'[n].state == nodes[n].state && nodes'[n].result == nodes[n].result
    requires forall n :: n in nodes' && Concluded?(nodes'[n].state) ==> n in nodes && Concluded?(nodes[n].state)
    ensures OneOutcomeEach(es + more, nodes')
  {
    var all := es + more;
    assert forall i :: |es| <= i < |all| ==> all[i] in more;
    assert forall i, n :: OutcomeAt(all, i, n) <==> OutcomeAt(es, i, n);
  }

  lemma NewOutcome(es: seq<Event>, nodes: map<Id, Status>, more: seq<Event>, e: Event, nodes': map<Id, Status>)
    requires OneOutcomeEach(es, nodes)
    requires forall x :: x in more ==> !Outcome(x)
    requires Outcome(e) && e.node in nodes && !Concluded?(nodes[e.node].state)
    requires e.node in nodes' && nodes' == nodes[e.node := nodes'[e.node]] && Reports(e, nodes'[e.node])
    ensures OneOutcomeEach(es + more + [e], nodes')
  {
    var all := es + more + [e];
    assert forall i :: |es| <= i < |all| - 1 ==> all[i] in more;
    assert forall i, n :: OutcomeAt(all, i, n) <==> OutcomeAt(es, i, n) || (i == |all| - 1 && n == e.node);
    assert OutcomeAt(all, |all| - 1, e.node);
    assert forall i :: !OutcomeAt(es, i, e.node);
  }

  lemma QuietPatches(es: seq<Event>, applied: map<int, PatchRecord>, more: seq<Event>)
    requires OnePatchEach(es, applied)
    requires forall e :: e in more ==> !e.GraphPatched?
    ensures OnePatchEach(es + more, applied)
  {
    var all := es + more;
    assert forall i :: |es| <= i < |all| ==> all[i] in more;
    assert forall i, t :: PatchAt(all, i, t) <==> PatchAt(es, i, t);
  }

  lemma NewPatch(es: seq<Event>, applied: map<int, PatchRecord>, more: seq<Event>, r: PatchRecord)
    requires OnePatchEach(es, applied) && r.trigger !in applied
    requires forall e :: e in more ==> !e.GraphPatched?
    ensures OnePatchEach(es + (more + [GraphPatched(r)]), applied[r.trigger := r])
  {
    var all := es + (more + [GraphPatched(r)]);
    assert forall i :: |es| <= i < |all| - 1 ==> all[i] in more;
    assert forall i, t :: PatchAt(all, i, t) <==> PatchAt(es, i, t) || (i == |all| - 1 && t == r.trigger);
    assert PatchAt(all, |all| - 1, r.trigger);
  }

  lemma QuietStarts(es: seq<Event>, v: View, more: seq<Event>, v': View)
    requires StartsJustified(es, v)
    requires forall e :: e in more ==> !e.TaskStarted?
    requires v.nodes.Keys <= v'.nodes.Keys
    requires forall e :: e in v'.edges && e.1 in v.nodes ==> e in v.edges
    ensures StartsJustified(es + more, v')
  {
    var all := es + more;
    assert forall i :: |es| <= i < |all| ==> all[i] in more;
    forall i | 0 <= i < |all| && all[i].TaskStarted?
      ensures all[i].node in v'.nodes
      ensures forall p :: (p, all[i].node) in v'.edges ==> SucceededBefore(all, p, i)
    {
      assert all[i] == es[i];
      forall p | (p, all[i].node) in v'.edges
        ensures SucceededBefore(all, p, i)
      {
        assert (p, es[i].node).1 in v.nodes;
        assert SucceededBefore(es, p, i);
        var j :| 0 <= j < i && j < |es| && es[j].TaskSucceeded? && es[j].node == p;
        assert all[j] == es[j];
      }
    }
  }

  // ------------------------------------------------------------- the operations

  lemma FreshKeeps(context: Json)
    ensures Sound(Fresh(context)) && DependencySafe(Fresh(context))
  {
    FreshRecorded(context);
  }

  lemma ResumedKeeps(st: RunState)
    requires Sound(st)
    ensures Sound(Resumed(st)) && (DependencySafe(st) ==> DependencySafe(Resumed(st)))
  {
    var st' := Resumed(st);
    ResumedSound(st);
    if DependencySafe(st) {
      QuietStarts(st.events, st.view, [RunResumed], st'.view);
    }
  }

  lemma ResumedSound(st: RunState)
    requires Sound(st)
    ensures Sound(Resumed(st))
  {
    ResumedRecorded(st);
    assert Resumed(st).view.nodes.Keys == st.view.nodes.Keys;
    QuietOutcomes(st.events, st.view.nodes, [RunResumed], Resumed(st).view.nodes);
    QuietPatches(st.events, st.view.applied, [RunResumed]);
  }

  /** What the executor hands to `mark_running`: existing tasks, ready if still pending. */
  ghost predicate Launchable(st: RunState, ts: seq<TaskSpec>) {
    forall t :: t in ts ==>
      t.id in st.view.nodes && (st.view.nodes[t.id].state.Pending? ==> IsReady(st.view, t.id))
  }

  lemma MarkedOneRecorded(st: RunState, t: TaskSpec)
    requires Recorded(st) && t.id in st.view.nodes
    ensures Recorded(MarkedOne(st, t))
  {
    assert [t][..0] == [];
    MarkedRecorded(st, [t]);
    assert Marked(st, [t]) == MarkedOne(Marked(st, []), t);
  }

  lemma MarkedOneKeeps(st: RunState, t: TaskSpec)
    requires Sound(st) && t.id in st.view.nodes
    ensures Sound(MarkedOne(st, t))
    ensures DependencySafe(st) && Launchable(st, [t]) ==> DependencySafe(MarkedOne(st, t))
  {
    MarkedOneSound(st, t);
    if DependencySafe(st) && Launchable(st, [t]) {
      MarkedOneSafe(st, t);
    }
  }

  lemma MarkedOneSound(st: RunState, t: TaskSpec)
    requires Sound(st) && t.id in st.view.nodes
    ensures Sound(MarkedOne(st, t))
  {
    var st' := MarkedOne(st, t);
    if st.view.nodes[t.id].state.Pending? {
      var e := TaskStarted(t.id, t.skill, AgentOf(t));
      MarkedOneRecorded(st, t);
      assert st'.view.nodes.Keys == st.view.nodes.Keys;
      QuietOutcomes(st.events, st.view.nodes, [e], st'.view.nodes);
      QuietPatches(st.events, st.view.applied, [e]);
    }
  }

  lemma MarkedOneSafe(st: RunState, t: TaskSpec)
    requires Sound(st) && t.id in st.view.nodes && DependencySafe(st) && Launchable(st, [t])
    ensures DependencySafe(MarkedOne(st, t))
  {
    if st.view.nodes[t.id].state.Pending? {
      assert t in [t];
      StartJustified(st, TaskStarted(t.id, t.skill, AgentOf(t)));
    }
  }

  lemma StartJustified(st: RunState, e: Event)
    requires Sound(st) && StartsJustified(st.events, st.view)
    requires e.TaskStarted? && IsReady(st.view, e.node)
    ensures StartsJustified(st.events + [e], st.view)
  {
    var es, all := st.events, st.events + [e];
    forall i, p | 0 <= i < |all| && all[i].TaskStarted? && (p, all[i].node) in st.view.edges
      ensures SucceededBefore(all, p, i)
    {
      if i < |es| {
        assert SucceededBefore(es, p, i);
        var j :| 0 <= j < i && j < |es| && es[j].TaskSucceeded? && es[j].node == p;
        assert all[j] == es[j];
      } else {
        assert (p, e.node).0 in st.view.nodes;
        var j :| OutcomeAt(es, j, p);
        assert all[j] == es[j] && Reports(es[j], st.view.nodes[p]);
      }
    }
  }

  /** Launching only ever turns pending tasks into running ones. */
  ghost predicate Launched(v: View, v': View) {
    && v'.edges == v.edges && v'.finished == v.finished && v'.applied == v.applied
    && v'.nodes.Keys == v.nodes.Keys
    && (forall n :: n in v.nodes ==>
          v'.nodes[n] == v.nodes[n] ||
          (v.nodes[n].state.Pending? && v'.nodes[n] == v.nodes[n].(state := Running)))
  }

  lemma {:induction false} MarkedLaunched(st: RunState, ts: seq<TaskSpec>)
    requires forall t :: t in ts ==> t.id in st.view.nodes
    ensures Launched(st.view, Marked(st, ts).view)
    ensures Marked(st, ts).order == st.order && Marked(st, ts).specs == st.specs
  {
    if ts != [] {
      MarkedLaunched(st, ts[..|ts| - 1]);
    }
  }

  lemma LaunchedReady(v: View, v': View, n: Id)
    requires Launched(v, v') && n in v.nodes
    requires v.nodes[n].state.Pending? ==> IsReady(v, n)
    ensures v'.nodes[n].state.Pending? ==> IsReady(v', n)
  {
  }

  lemma {:induction false} MarkedKeeps(st: RunState, ts: seq<TaskSpec>)
    requires Sound(st) && forall t :: t in ts ==> t.id in st.view.nodes
    ensures Sound(Marked(st, ts))
    ensures DependencySafe(st) && Launchable(st, ts) ==> DependencySafe(Marked(st, ts))
    decreases |ts|
  {
    if ts != [] {
      var front, t := ts[..|ts| - 1], ts[|ts| - 1];
      assert t in ts;
      MarkedKeeps(st, front);
      MarkedOneKeeps(Marked(st, front), t);
      if Launchable(st, ts) {
        LastLaunchable(st, ts);
      }
    }
  }

  lemma LastLaunchable(st: RunState, ts: seq<TaskSpec>)
    requires ts != [] && Launchable(st, ts)
    ensures Launchable(st, ts[..|ts| - 1]) && Launchable(Marked(st, ts[..|ts| - 1]), [ts[|ts| - 1]])
  {
    var front, t := ts[..|ts| - 1], ts[|ts| - 1];
    assert t in ts && forall x :: x in front ==> x in ts;
    MarkedLaunched(st, front);
    LaunchedReady(st.view, Marked(st, front).view, t.id);
  }

  lemma ConcludedKeeps(st: RunState, n: Id, success: bool, payload: Json)
    requires Sound(st) && IsRunning(st, n)
    ensures Sound(Concluded(st, n, success, payload))
    ensures DependencySafe(st) ==> DependencySafe(Concluded(st, n, success, payload))
  {
    var st' := Concluded(st, n, success, payload);
    var e := if success then TaskSucceeded(n, payload) else TaskFailed(n, payload);
    ConcludedRecorded(st, n, success, payload);
    assert st'.view.nodes.Keys == st.view.nodes.Keys;
    NewOutcome(st.events, st.view.nodes, [], e, st'.view.nodes);
    assert st.events + [] + [e] == st'.events;
    QuietPatches(st.events, st.view.applied, [e]);
    if DependencySafe(st) {
      QuietStarts(st.events, st.view, [e], st'.view);
    }
  }

  lemma ParkedKeeps(st: RunState, n: Id, w: Wait)
    requires Sound(st) && IsRunning(st, n)
    ensures Sound(Parked(st, n, w)) && (DependencySafe(st) ==> DependencySafe(Parked(st, n, w)))
  {
    var st' := Parked(st, n, w);
    ParkedRecorded(st, n, w);
    assert st'.view.nodes.Keys == st.view.nodes.Keys;
    QuietOutcomes(st.events, st.view.nodes, [TaskWaiting(n, w)], st'.view.nodes);
    QuietPatches(st.events, st.view.applied, [TaskWaiting(n, w)]);
    if DependencySafe(st) {
      QuietStarts(st.events, st.view, [TaskWaiting(n, w)], st'.view);
    }
  }

  lemma CompletedKeeps(st: RunState, n: Id, handle: string, eventType: string, payload: Json, success: bool)
    requires Sound(st) && WaitsOn(st.view, n, handle, eventType)
    ensures Sound(Completed(st, n, handle, eventType, payload, success))
    ensures DependencySafe(st) ==> DependencySafe(Completed(st, n, handle, eventType, payload, success))
  {
    CompletedSound(st, n, handle, eventType, payload, success);
    if DependencySafe(st) {
      CompletedSafe(st, n, handle, eventType, payload, success);
    }
  }

  lemma CompletedSound(st: RunState, n: Id, handle: string, eventType: string, payload: Json, success: bool)
    requires Sound(st) && WaitsOn(st.view, n, handle, eventType)
    ensures Sound(Completed(st, n, handle, eventType, payload, success))
  {
    var st' := Completed(st, n, handle, eventType, payload, success);
    var received := ExternalReceived(n, handle, eventType);
    var e := if success then TaskSucceeded(n, payload) else TaskFailed(n, payload);
    CompletedRecorded(st, n, handle, eventType, payload, success);
    assert st'.view.nodes.Keys == st.view.nodes.Keys;
    NewOutcome(st.events, st.view.nodes, [received], e, st'.view.nodes);
    assert st.events + [received] + [e] == st'.events == st.events + [received, e];
    QuietPatches(st.events, st.view.applied, [received, e]);
  }

  lemma CompletedSafe(st: RunState, n: Id, handle: string, eventType: string, payload: Json, success: bool)
    requires Sound(st) && WaitsOn(st.view, n, handle, eventType) && DependencySafe(st)
    ensures DependencySafe(Completed(st, n, handle, eventType, payload, success))
  {
    var st' := Completed(st, n, handle, eventType, payload, success);
    QuietStarts(st.events, st.view, st'.events[|st.events|..], st'.view);
  }

  lemma NotedKeeps(st: RunState, kind: string, n: Id, payload: Json)
    requires Sound(st)
    ensures Sound(Noted(st, kind, n, payload))
    ensures DependencySafe(st) ==> DependencySafe(Noted(st, kind, n, payload))
  {
    var e := External(kind, n, payload);
    NotedRecorded(st, kind, n, payload);
    QuietOutcomes(st.events, st.view.nodes, [e], st.view.nodes);
    QuietPatches(st.events, st.view.applied, [e]);
    if DependencySafe(st) {
      QuietStarts(st.events, st.view, [e], st.view);
    }
  }

  // -------------------------------------------------------------------- patches

  lemma {:induction false} SpecsKeys(specs: map<Id, TaskSpec>, add: seq<TaskSpec>)
    ensures forall n :: n in PatchedSpecs(specs, add) <==> n in specs || exists t :: t in add && t.id == n
    decreases |add|
  {
    if add != [] {
      var front, last := add[..|add| - 1], add[|add| - 1];
      assert add == front + [last];
      SpecsKeys(specs, front);
    }
  }

  lemma PatchedShaped(st: RunState, p: GraphPatch, trigger: int)
    requires Shaped(st) && Acceptable(st.view, p)
    ensures Shaped(Patched(st, p, trigger))
  {
    var nodes := PatchedView(st.view, p, trigger).nodes;
    SpecsGrow(st.specs, p);
    assert nodes.Keys == GrownIds(st.view, p);
    OrderGrows(st.order, AddIds(p));
  }

  lemma SpecsGrow(specs: map<Id, TaskSpec>, p: GraphPatch)
    ensures forall n :: n in PatchedSpecs(specs, p.add) <==> n in specs || n in AddIds(p)
  {
    SpecsKeys(specs, p.add);
    forall n
      ensures (exists t :: t in p.add && t.id == n) <==> n in AddIds(p)
    {
      if t :| t in p.add && t.id == n {
        var i :| 0 <= i < |p.add| && p.add[i] == t;
        assert AddIds(p)[i] == n;
      }
      if n in AddIds(p) {
        var i :| 0 <= i < |p.add| && AddIds(p)[i] == n;
        assert p.add[i] in p.add;
      }
    }
  }

  lemma OrderGrows(order: seq<Id>, added: seq<Id>)
    requires Distinct(order) && Distinct(added) && forall n :: n in added ==> n !in order
    ensures Distinct(order + added)
    ensures forall n :: n in order + added <==> n in order || n in added
  {
    var all := order + added;
    forall i, j | 0 <= i < j < |all|
      ensures all[i] != all[j]
    {
      if j >= |order| {
        assert all[j] in added;
        assert i < |order| ==> all[i] in order;
      }
    }
  }

  lemma PatchedQuiet(st: RunState, p: GraphPatch)
    requires Shaped(st) && Acceptable(st.view, p)
    ensures forall e :: e in Cancellations(st, p) ==> e.TaskCancelled?
  {
    CancellationsStrike(st, p);
  }

  /** A concluded task is beyond the reach of every patch the store accepts. */
  lemma PatchedSpares(v: View, p: GraphPatch, trigger: int, n: Id)
    requires Acceptable(v, p) && n in v.nodes
    ensures n in PatchedView(v, p, trigger).nodes
    ensures Concluded?(v.nodes[n].state) || v.nodes[n].state.Cancelled? ==>
              PatchedView(v, p, trigger).nodes[n] == v.nodes[n]
    ensures Begun(PatchedView(v, p, trigger).nodes[n]) ==> Begun(v.nodes[n])
    ensures PatchedView(v, p, trigger).nodes[n].state.Running? ==> v.nodes[n].state.Running?
    ensures Concluded?(PatchedView(v, p, trigger).nodes[n].state) ==> Concluded?(v.nodes[n].state)
  {
  }

  lemma PatchedOutcomes(es: seq<Event>, v: View, p: GraphPatch, trigger: int, more: seq<Event>)
    requires OneOutcomeEach(es, v.nodes) && Acceptable(v, p)
    requires forall e :: e in more ==> !Outcome(e)
    ensures OneOutcomeEach(es + more, PatchedView(v, p, trigger).nodes)
  {
    var nodes' := PatchedView(v, p, trigger).nodes;
    assert nodes'.Keys == GrownIds(v, p);
    forall n | n in v.nodes {
      PatchedSpares(v, p, trigger, n);
    }
    assert forall n :: n in nodes' && n !in v.nodes ==> !Concluded?(nodes'[n].state);
    QuietOutcomes(es, v.nodes, more, nodes');
  }

  lemma QuietStartsOnce(es: seq<Event>, more: seq<Event>)
    requires StartsOnce(es) && forall e :: e in more ==> !e.RunStarted?
    ensures StartsOnce(es + more)
  {
    var all := es + more;
    assert forall i :: |es| <= i < |all| ==> all[i] in more;
  }

  lemma PatchedKeeps(st: RunState, p: GraphPatch, trigger: int)
    requires Sound(st) && Acceptable(st.view, p) && trigger !in st.view.applied
    ensures Sound(Patched(st, p, trigger))
  {
    var es, r := Cancellations(st, p), RecordOf(p, trigger);
    var more := es + [GraphPatched(r)];
    PatchedQuiet(st, p);
    assert forall e :: e in more ==> e.TaskCancelled? || e.GraphPatched?;
    PatchedShaped(st, p, trigger);
    PatchedRecorded(st, p, trigger);
    PatchedOutcomes(st.events, st.view, p, trigger, more);
    NewPatch(st.events, st.view.applied, es, r);
    QuietStartsOnce(st.events, more);
    PatchedGraph(st.view, p, trigger);
  }

  lemma PatchedGraph(v: View, p: GraphPatch, trigger: int)
    requires Acceptable(v, p)
    ensures IdleWhenFinished(PatchedView(v, p, trigger))
    ensures Dag.IsDag(PatchedView(v, p, trigger).nodes.Keys, PatchedView(v, p, trigger).edges)
  {
    assert PatchedView(v, p, trigger).nodes.Keys == GrownIds(v, p);
  }

  /** The patches the planner boundary lets through: every edge leads into a task of the same patch. */
  ghost predicate FreshEdges(p: GraphPatch) {
    forall e :: e in p.connect ==> e.1 in AddIds(p)
  }

  /** The weakest guard under which an accepted patch keeps dependencies safe. */
  ghost predicate NoEdgeIntoBegun(v: View, p: GraphPatch) {
    forall e :: e in p.connect && e.1 in v.nodes && e !in v.edges && Begun(v.nodes[e.1]) ==>
      (e.0 in v.nodes && v.nodes[e.0].state.Succeeded?) || (Cancels?(v, p, e.1) && v.nodes[e.1].wait.None?)
  }

  predicate Cancels?(v: View, p: GraphPatch, n: Id) {
    n in v.nodes && v.nodes[n].state.Running? && (n in p.cancel || p.finish)
  }

  /**
    The store alone does not keep dependencies safe: it accepts an edge into a
    task that has begun.  It does so exactly when no such edge comes from a parent
    that has not succeeded, unless the patch also cancels the running child.
  */
  lemma BegunAfterParentsIff(v: View, p: GraphPatch, trigger: int)
    requires Acceptable(v, p) && BegunAfterParents(v)
    requires forall e :: e in v.edges ==> e.0 in v.nodes && e.1 in v.nodes
    ensures BegunAfterParents(PatchedView(v, p, trigger)) <==> NoEdgeIntoBegun(v, p)
  {
    if NoEdgeIntoBegun(v, p) {
      GuardSuffices(v, p, trigger);
    }
    if BegunAfterParents(PatchedView(v, p, trigger)) {
      GuardIsNeeded(v, p, trigger);
    }
  }

  lemma GuardSuffices(v: View, p: GraphPatch, trigger: int)
    requires Acceptable(v, p) && BegunAfterParents(v) && NoEdgeIntoBegun(v, p)
    requires forall e :: e in v.edges ==> e.0 in v.nodes && e.1 in v.nodes
    ensures BegunAfterParents(PatchedView(v, p, trigger))
  {
    var v' := PatchedView(v, p, trigger);
    forall e | e in v'.edges && e.0 in v'.nodes && e.1 in v'.nodes && Begun(v'.nodes[e.1])
      ensures v'.nodes[e.0].state.Succeeded?
    {
      BegunChild(v, p, trigger, e.1);
      if e !in v.edges {
        assert e in p.connect;
      }
      assert e.0 in v.nodes && v.nodes[e.0].state.Succeeded?;
      PatchedSpares(v, p, trigger, e.0);
    }
  }

  /** What has begun after a patch had begun before it, and its cancellation, if any, did not end a mere run. */
  lemma BegunChild(v: View, p: GraphPatch, trigger: int, n: Id)
    requires Acceptable(v, p) && n in PatchedView(v, p, trigger).nodes && Begun(PatchedView(v, p, trigger).nodes[n])
    ensures n in v.nodes && Begun(v.nodes[n])
    ensures !Cancels?(v, p, n) || v.nodes[n].wait.Some?
  {
    if n in v.nodes {
      PatchedSpares(v, p, trigger, n);
    }
  }

  lemma GuardIsNeeded(v: View, p: GraphPatch, trigger: int)
    requires Acceptable(v, p) && BegunAfterParents(PatchedView(v, p, trigger))
    ensures NoEdgeIntoBegun(v, p)
  {
    var v' := PatchedView(v, p, trigger);
    forall e | e in p.connect && e.1 in v.nodes && e !in v.edges && Begun(v.nodes[e.1])
      ensures (e.0 in v.nodes && v.nodes[e.0].state.Succeeded?) || (Cancels?(v, p, e.1) && v.nodes[e.1].wait.None?)
    {
      PatchedSpares(v, p, trigger, e.1);
      assert e in v'.edges;
      assert e.0 in v'.nodes && e.1 in v'.nodes;
      if Begun(v'.nodes[e.1]) {
        assert v'.nodes[e.0].state.Succeeded?;
        if e.0 in v.nodes {
          PatchedSpares(v, p, trigger, e.0);
        }
      }
    }
  }

  /** One edge from a pending task into a succeeded one: accepted, and unsafe. */
  lemma StoreAcceptsUnsafeEdge()
    ensures
      var v := View(map["a" := FRESH, "b" := Status(Succeeded, Some(""), None)], {}, false, map[]);
      var p := GraphPatch([], [("a", "b")], [], [], [], false, "", "");
      Acceptable(v, p) && BegunAfterParents(v) && !BegunAfterParents(PatchedView(v, p, 1))
  {
    var v := View(map["a" := FRESH, "b" := Status(Succeeded, Some(""), None)], {}, false, map[]);
    var p := GraphPatch([], [("a", "b")], [], [], [], false, "", "");
    Dag.RankedIsDag(GrownIds(v, p), v.edges + Elements(p.connect), map["a" := 0, "b" := 1]);
    assert ("a", "b") in p.connect;
    assert ("a", "b") in PatchedView(v, p, 1).edges;
  }

  /**
    A cancelled task stays cancelled exactly when the same patch does not also make
    it wait or resume it, or finishes.
  */
  lemma CancelSticksIff(v: View, p: GraphPatch, trigger: int, n: Id)
    requires Acceptable(v, p) && n in p.cancel
    ensures n in PatchedView(v, p, trigger).nodes
    ensures PatchedView(v, p, trigger).nodes[n].state.Cancelled? <==>
            p.finish || (n !in p.wait && n !in p.resume)
    ensures v.nodes[n].state.Running? ==> PatchedView(v, p, trigger).nodes[n].state.Cancelled?
  {
    assert n in v.nodes && Active(v.nodes[n].state);
  }

  /** One pending task, cancelled and deferred by one accepted patch: it ends waiting. */
  lemma CancelledTaskWaits()
    ensures
      var v := View(map["a" := FRESH], {}, false, map[]);
      var p := GraphPatch([], [], ["a"], ["a"], [], false, "", "");
      && Acceptable(v, p)
      && "a" in PatchedView(v, p, 1).nodes && PatchedView(v, p, 1).nodes["a"].state.Waiting?
  {
    var v := View(map["a" := FRESH], {}, false, map[]);
    var p := GraphPatch([], [], ["a"], ["a"], [], false, "", "");
    Dag.RankedIsDag(GrownIds(v, p), v.edges + Elements(p.connect), map["a" := 0]);
  }

  lemma PatchedKeepsSafe(st: RunState, p: GraphPatch, trigger: int)
    requires Sound(st) && DependencySafe(st) && Acceptable(st.view, p) && FreshEdges(p)
    ensures DependencySafe(Patched(st, p, trigger))
  {
    var st' := Patched(st, p, trigger);
    assert NoEdgeIntoBegun(st.view, p);
    BegunAfterParentsIff(st.view, p, trigger);
    PatchedQuiet(st, p);
    QuietStarts(st.events, st.view, Cancellations(st, p) + [GraphPatched(RecordOf(p, trigger))], st'.view);
  }
}
