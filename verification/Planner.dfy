/**
  The planner boundary.  The model is an arbitrary proposer; `Parse` decides which
  of its proposals become patches, and everything it lets through is a patch the
  store accepts.
*/
module Planner {
  import opened Wrappers
  import opened LiveGraph
  import opened RunOps
  import opened RunInvariants
  import opened GraphStore
  import opened Text
  import Dag

  /** The advertised capabilities: argument validation and the classes the planner asks about. */
  datatype Registry = Registry(
    validate: (string, Json) -> Option<Json>, terminal: set<string>, rerunnable: set<string>,
    sideEffects: set<string>, roles: map<string, string>)

  datatype Limits = Limits(maxNodes: int, maxNewTasks: int, repairAttempts: nat, allowedSideEffects: set<string>)

  /** One entry of a decoded `add` array; a field of the wrong type is `None`. */
  datatype RawTask =
    | NotATask
    | RawTask(id: Option<string>, capability: Option<string>, arguments: Json, dependsOn: Option<seq<Id>>)

  /** A decoded reply; `Unreadable` when an envelope field is unknown or of the wrong type. */
  datatype Proposal =
    | Unreadable
    | Proposal(add: seq<RawTask>, cancel: seq<Id>, finish: bool, reason: Option<string>)

  datatype PlannerError =
    | UnreadablePatch
    | TooManyTasks
    | NodeLimitExceeded
    | UnexplainedCancel
    | CannotCancel(node: Id)
    | CannotStopRunning(node: Id)
    | MalformedTask
    | InvalidArguments(node: Id)
    | DuplicateId(node: Id)
    | InvalidDependencies(node: Id)
    | DeadParent(node: Id, parent: Id)
    | NoAuthority(node: Id)
    | EarlyFinish
    | NoProgress

  // --------------------------------------------------------------- small checks

  predicate Letter(c: char) {
    'a' <= c <= 'z' || 'A' <= c <= 'Z'
  }

  predicate IdChar(c: char) {
    Letter(c) || '0' <= c <= '9' || c == '_' || c == '-'
  }

  predicate ValidId(s: string) {
    0 < |s| <= 64 && Letter(s[0]) && forall i :: 0 <= i < |s| ==> IdChar(s[i])
  }

  predicate AnyActive(g: Snapshot) {
    exists n :: n in g.nodes && Active(g.nodes[n].state)
  }

  /** Some task of the graph makes this very call and is in one of the given states. */
  predicate Repeats(g: Snapshot, except: seq<Id>, skill: string, input: Json, active: bool) {
    exists n :: n in g.ids && n in g.nodes && n in g.specs && n !in except
      && g.specs[n].skill == skill && g.specs[n].input == input
      && (if active then Active(g.nodes[n].state) else g.nodes[n].state.Succeeded?)
  }

  predicate TerminalActive(reg: Registry, g: Snapshot) {
    exists n :: n in g.ids && n in g.nodes && n in g.specs && g.specs[n].skill in reg.terminal && Active(g.nodes[n].state)
  }

  predicate TerminalSucceeded(reg: Registry, g: Snapshot) {
    exists n :: n in g.ids && n in g.nodes && n in g.specs && g.specs[n].skill in reg.terminal && g.nodes[n].state.Succeeded?
  }

  /** Succeeded tasks nothing depends on: what a terminal task without stated parents is joined to. */
  function LeafOutcomes(g: Snapshot, ids: seq<Id>): (leaves: seq<Id>)
    ensures forall n :: n in leaves ==> n in ids && n in g.nodes && g.nodes[n].state.Succeeded?
  {
    if ids == [] then []
    else
      var rest := LeafOutcomes(g, ids[1..]);
      if ids[0] in g.nodes && g.nodes[ids[0]].state.Succeeded? && !exists e :: e in g.edges && e.0 == ids[0]
      then [ids[0]] + rest else rest
  }

  predicate LiveParent(g: Snapshot, cancel: seq<Id>, n: Id) {
    n in g.nodes && n !in cancel && !g.nodes[n].state.Failed? && !g.nodes[n].state.Cancelled?
  }

  function FirstDead(g: Snapshot, cancel: seq<Id>, parents: seq<Id>): (r: Option<Id>)
    requires forall p :: p in parents ==> p in g.nodes
    ensures r.None? <==> forall p :: p in parents ==> LiveParent(g, cancel, p)
  {
    if parents == [] then None
    else if assert parents[0] in parents; parents[0] in cancel || g.nodes[parents[0]].state.Failed? || g.nodes[parents[0]].state.Cancelled?
    then Some(parents[0])
    else FirstDead(g, cancel, parents[1..])
  }

  function CancelError(g: Snapshot, cancel: seq<Id>): (r: Option<PlannerError>)
    ensures r.None? <==> forall n :: n in cancel ==>
              n in g.nodes && (g.nodes[n].state.Pending? || g.nodes[n].state.Waiting?)
  {
    if cancel == [] then None
    else if cancel[0] !in g.nodes || !Active(g.nodes[cancel[0]].state) then Some(CannotCancel(cancel[0]))
    else if g.nodes[cancel[0]].state.Running? then Some(CannotStopRunning(cancel[0]))
    else CancelError(g, cancel[1..])
  }

  /** The dependencies that are not tasks of the graph yet. */
  function Future(g: Snapshot, dependencies: seq<Id>): (future: seq<Id>)
    ensures forall d :: d in dependencies ==> d in g.nodes || d in future
  {
    if dependencies == [] then []
    else
      var rest := Future(g, dependencies[1..]);
      if dependencies[0] in g.nodes then rest else [dependencies[0]] + rest
  }

  function ProposedIds(add: seq<RawTask>): set<Id> {
    set r | r in add && r.RawTask? && r.id.Some? :: r.id.value
  }

  // ------------------------------------------------------------------ one task

  datatype Verdict =
    | Reject(error: PlannerError)
    | Skip
    | Hold(id: Id)
    | Take(task: TaskSpec, parents: seq<Id>)

  /** What becomes of one proposed task, given the tasks already taken from the same patch. */
  function Judge(reg: Registry, lim: Limits, g: Snapshot, p: Proposal, taken: set<Id>, raw: RawTask): Verdict
    requires p.Proposal?
  {
    if raw.NotATask? || raw.id.None? || !ValidId(raw.id.value) || raw.capability.None? then Reject(MalformedTask)
    else
      var id, skill := raw.id.value, raw.capability.value;
      var checked := reg.validate(skill, raw.arguments);
      if checked.None? then Reject(InvalidArguments(id))
      else if Repeats(g, p.cancel, skill, checked.value, true) then Skip
      else if skill !in reg.rerunnable && Repeats(g, [], skill, checked.value, false) then Skip
      else if id in g.nodes || id in taken then Reject(DuplicateId(id))
      else if raw.dependsOn.None? then Reject(InvalidDependencies(id))
      else
        var future := Future(g, raw.dependsOn.value);
        if exists d :: d in future && d !in ProposedIds(p.add) then Reject(InvalidDependencies(id))
        else if future != [] then Hold(id)
        else
          var terminal := skill in reg.terminal;
          if terminal && TerminalActive(reg, g) then Skip
          else
            var parents := if terminal && raw.dependsOn.value == [] then LeafOutcomes(g, g.ids) else raw.dependsOn.value;
            var dead := FirstDead(g, p.cancel, parents);
            if dead.Some? then Reject(DeadParent(id, dead.value))
            else if skill in reg.sideEffects && skill !in lim.allowedSideEffects then Reject(NoAuthority(id))
            else
              var agent := if skill in reg.roles && reg.roles[skill] != "" then reg.roles[skill] else skill;
              Take(TaskSpec(id, skill, checked.value, TaskMeta(Some(agent), skill in reg.sideEffects, None)), parents)
  }

  // --------------------------------------------------------------- whole patches

  datatype Frontier = Frontier(tasks: seq<TaskSpec>, edges: seq<(Id, Id)>, held: seq<Id>)

  function TaskIds(tasks: seq<TaskSpec>): set<Id> {
    set t | t in tasks :: t.id
  }

  function EdgesTo(parents: seq<Id>, child: Id): (es: seq<(Id, Id)>)
    ensures |es| == |parents| && forall i :: 0 <= i < |es| ==> es[i] == (parents[i], child)
  {
    seq(|parents|, i requires 0 <= i < |parents| => (parents[i], child))
  }

  /** The frontier gathered from the first proposed tasks, or the first one's error. */
  function Gathered(reg: Registry, lim: Limits, g: Snapshot, p: Proposal, raws: seq<RawTask>): Result<Frontier, PlannerError>
    requires p.Proposal?
  {
    if raws == [] then Success(Frontier([], [], []))
    else
      var front := Gathered(reg, lim, g, p, raws[..|raws| - 1]);
      if front.Failure? then front
      else
        Extended(front.value, Judge(reg, lim, g, p, TaskIds(front.value.tasks), raws[|raws| - 1]))
  }

  function Extended(f: Frontier, verdict: Verdict): Result<Frontier, PlannerError> {
    match verdict
    case Reject(e) => Failure(e)
    case Skip => Success(f)
    case Hold(id) => Success(f.(held := f.held + [id]))
    case Take(task, parents) =>
      Success(f.(tasks := f.tasks + [task], edges := f.edges + EdgesTo(parents, task.id)))
  }

  lemma {:induction false} GatheredFails(reg: Registry, lim: Limits, g: Snapshot, p: Proposal, raws: seq<RawTask>, k: nat)
    requires p.Proposal? && k <= |raws| && Gathered(reg, lim, g, p, raws[..k]).Failure?
    ensures Gathered(reg, lim, g, p, raws) == Gathered(reg, lim, g, p, raws[..k])
    decreases |raws|
  {
    if k == |raws| {
      assert raws[..k] == raws;
    } else {
      var front := raws[..|raws| - 1];
      assert front[..k] == raws[..k];
      GatheredFails(reg, lim, g, p, front, k);
    }
  }

  const DEFAULT_REASON := "model proposed the next useful frontier"
  const HELD_REASON := "launched runnable frontier; held future tasks "

  function Join(ids: seq<Id>): string {
    if ids == [] then "" else if |ids| == 1 then ids[0] else ids[0] + ", " + Join(ids[1..])
  }

  function EnvelopeError(lim: Limits, g: Snapshot, p: Proposal): Option<PlannerError>
    requires p.Proposal?
  {
    if |p.add| > lim.maxNewTasks then Some(TooManyTasks)
    else if |g.nodes| + |p.add| > lim.maxNodes then Some(NodeLimitExceeded)
    else if p.cancel != [] && (p.reason.None? || Blank(p.reason.value)) then Some(UnexplainedCancel)
    else CancelError(g, p.cancel)
  }

  /** The last checks: finishing waits for the work proposed with it, and an idle graph must make progress. */
  function Closed(reg: Registry, g: Snapshot, p: Proposal, f: Frontier): Result<GraphPatch, PlannerError>
    requires p.Proposal?
  {
    var finish := p.finish && f.tasks == [];
    if finish && !TerminalSucceeded(reg, g) then Failure(EarlyFinish)
    else if !finish && f.tasks == [] && p.cancel == [] && !AnyActive(g) then Failure(NoProgress)
    else
      var reason :=
        if f.held != [] then HELD_REASON + Join(f.held) + " until outcomes land"
        else if p.reason.Some? && !Blank(p.reason.value) then Strip(p.reason.value)
        else DEFAULT_REASON;
      Success(GraphPatch(f.tasks, f.edges, p.cancel, [], [], finish, reason, ""))
  }

  function Parsed(reg: Registry, lim: Limits, g: Snapshot, p: Proposal): Result<GraphPatch, PlannerError> {
    if p.Unreadable? then Failure(UnreadablePatch)
    else
      var envelope := EnvelopeError(lim, g, p);
      if envelope.Some? then Failure(envelope.value)
      else
        var gathered := Gathered(reg, lim, g, p, p.add);
        if gathered.Failure? then Failure(gathered.error) else Closed(reg, g, p, gathered.value)
  }

  method Link(parents: seq<Id>, child: Id) returns (edges: seq<(Id, Id)>)
    ensures edges == EdgesTo(parents, child)
  {
    edges := [];
    var i := 0;
    while i < |parents|
      invariant i <= |parents| && edges == EdgesTo(parents, child)[..i]
    {
      edges := edges + [(parents[i], child)];
      i := i + 1;
    }
  }

  method Parse(reg: Registry, lim: Limits, g: Snapshot, p: Proposal) returns (r: Result<GraphPatch, PlannerError>)
    ensures r == Parsed(reg, lim, g, p)
  {
    if p.Unreadable? {
      return Failure(UnreadablePatch);
    }
    var envelope := EnvelopeError(lim, g, p);
    if envelope.Some? {
      return Failure(envelope.value);
    }
    var gathered := Gather(reg, lim, g, p);
    return if gathered.Failure? then Failure(gathered.error) else Closed(reg, g, p, gathered.value);
  }

  method Gather(reg: Registry, lim: Limits, g: Snapshot, p: Proposal) returns (r: Result<Frontier, PlannerError>)
    requires p.Proposal?
    ensures r == Gathered(reg, lim, g, p, p.add)
  {
    var tasks, edges, held, seen := [], [], [], {};
    var i := 0;
    while i < |p.add|
      invariant i <= |p.add| && seen == TaskIds(tasks)
      invariant Gathered(reg, lim, g, p, p.add[..i]) == Success(Frontier(tasks, edges, held))
    {
      var verdict := Judge(reg, lim, g, p, seen, p.add[i]);
      GatheredNext(reg, lim, g, p, i, Frontier(tasks, edges, held), verdict);
      match verdict {
        case Reject(e) =>
          GatheredFails(reg, lim, g, p, p.add, i + 1);
          return Failure(e);
        case Skip =>
        case Hold(id) =>
          held := held + [id];
        case Take(task, parents) =>
          var into := Link(parents, task.id);
          edges, tasks, seen := edges + into, tasks + [task], seen + {task.id};
      }
      i := i + 1;
    }
    assert p.add[..i] == p.add;
    return Success(Frontier(tasks, edges, held));
  }

  lemma GatheredNext(reg: Registry, lim: Limits, g: Snapshot, p: Proposal, i: nat, f: Frontier, verdict: Verdict)
    requires p.Proposal? && i < |p.add|
    requires Gathered(reg, lim, g, p, p.add[..i]) == Success(f)
    requires verdict == Judge(reg, lim, g, p, TaskIds(f.tasks), p.add[i])
    ensures Gathered(reg, lim, g, p, p.add[..i + 1]) == Extended(f, verdict)
  {
    assert p.add[..i + 1][..i] == p.add[..i];
  }

  // ------------------------------------------------------------ what gets through

  /** A call that is neither already under way nor, unless rerunnable, already answered. */
  ghost predicate NovelCall(reg: Registry, g: Snapshot, cancel: seq<Id>, t: TaskSpec) {
    && !Repeats(g, cancel, t.skill, t.input, true)
    && (t.skill !in reg.rerunnable ==> !Repeats(g, [], t.skill, t.input, false))
  }

  /** The shape of every patch the planner returns, whatever the model said. */
  ghost predicate Frontiered(lim: Limits, g: Snapshot, p: GraphPatch) {
    && p.wait == [] && p.resume == []
    && Distinct(AddIds(p))
    && (forall n :: n in AddIds(p) ==> n !in g.nodes && ValidId(n))
    && (forall e :: e in p.connect ==> e.1 in AddIds(p) && LiveParent(g, p.cancel, e.0))
    && (forall n :: n in p.cancel ==> n in g.nodes && (g.nodes[n].state.Pending? || g.nodes[n].state.Waiting?))
    && (p.add != [] ==> |p.add| <= lim.maxNewTasks && |g.nodes| + |p.add| <= lim.maxNodes)
    && (p.finish ==> p.add == [])
    && (AnyActive(g) || p.finish || p.add != [])
  }

  ghost predicate Gathers(reg: Registry, lim: Limits, g: Snapshot, cancel: seq<Id>, f: Frontier) {
    && (forall i, j :: 0 <= i < j < |f.tasks| ==> f.tasks[i].id != f.tasks[j].id)
    && (forall t :: t in f.tasks ==> t.id !in g.nodes && ValidId(t.id) && NovelCall(reg, g, cancel, t))
    && (forall t :: t in f.tasks && t.skill in reg.sideEffects ==> t.skill in lim.allowedSideEffects)
    && (forall e :: e in f.edges ==> e.1 in TaskIds(f.tasks) && LiveParent(g, cancel, e.0))
  }

  lemma JudgeTakes(reg: Registry, lim: Limits, g: Snapshot, p: Proposal, taken: set<Id>, raw: RawTask)
    requires p.Proposal? && Judge(reg, lim, g, p, taken, raw).Take?
    ensures
      var t := Judge(reg, lim, g, p, taken, raw).task;
      && t.id !in g.nodes && t.id !in taken && ValidId(t.id)
      && NovelCall(reg, g, p.cancel, t)
      && (t.skill in reg.sideEffects ==> t.skill in lim.allowedSideEffects)
    ensures forall d :: d in Judge(reg, lim, g, p, taken, raw).parents ==> LiveParent(g, p.cancel, d)
  {
  }

  lemma {:induction false} GatheredGathers(reg: Registry, lim: Limits, g: Snapshot, p: Proposal, raws: seq<RawTask>)
    requires p.Proposal? && Gathered(reg, lim, g, p, raws).Success?
    ensures Gathers(reg, lim, g, p.cancel, Gathered(reg, lim, g, p, raws).value)
    ensures |Gathered(reg, lim, g, p, raws).value.tasks| <= |raws|
    decreases |raws|
  {
    if raws != [] {
      var front, raw := raws[..|raws| - 1], raws[|raws| - 1];
      GatheredGathers(reg, lim, g, p, front);
      var f := Gathered(reg, lim, g, p, front).value;
      var verdict := Judge(reg, lim, g, p, TaskIds(f.tasks), raw);
      if verdict.Take? {
        JudgeTakes(reg, lim, g, p, TaskIds(f.tasks), raw);
        TakingGathers(reg, lim, g, p.cancel, f, verdict.task, verdict.parents);
      }
    }
  }

  lemma TakingGathers(
    reg: Registry, lim: Limits, g: Snapshot, cancel: seq<Id>, f: Frontier, t: TaskSpec, parents: seq<Id>)
    requires Gathers(reg, lim, g, cancel, f)
    requires t.id !in g.nodes && t.id !in TaskIds(f.tasks) && ValidId(t.id) && NovelCall(reg, g, cancel, t)
    requires t.skill in reg.sideEffects ==> t.skill in lim.allowedSideEffects
    requires forall d :: d in parents ==> LiveParent(g, cancel, d)
    ensures Gathers(reg, lim, g, cancel, f.(tasks := f.tasks + [t], edges := f.edges + EdgesTo(parents, t.id)))
  {
    assert forall x :: x in f.tasks + [t] <==> x in f.tasks || x == t;
    assert forall e :: e in f.edges + EdgesTo(parents, t.id) <==> e in f.edges || e in EdgesTo(parents, t.id);
    assert TaskIds(f.tasks + [t]) == TaskIds(f.tasks) + {t.id};
  }

  /**
    Whatever the proposal, a patch that `Parse` accepts only extends live parents,
    stops nothing that runs, repeats no call, keeps to the limits and to the
    authority of the run, and makes progress on an idle graph.
  */
  lemma ParsedIsFrontiered(reg: Registry, lim: Limits, g: Snapshot, p: Proposal)
    requires Parsed(reg, lim, g, p).Success?
    ensures Frontiered(lim, g, Parsed(reg, lim, g, p).value)
    ensures
      var patch := Parsed(reg, lim, g, p).value;
      && (forall t :: t in patch.add ==> NovelCall(reg, g, patch.cancel, t))
      && (forall t :: t in patch.add && t.skill in reg.sideEffects ==> t.skill in lim.allowedSideEffects)
      && (patch.finish ==> TerminalSucceeded(reg, g))
  {
    var f := Gathered(reg, lim, g, p, p.add).value;
    GatheredGathers(reg, lim, g, p, p.add);
    var patch := Parsed(reg, lim, g, p).value;
    forall n
      ensures n in AddIds(patch) <==> n in TaskIds(f.tasks)
    {
      if n in AddIds(patch) {
        var i :| 0 <= i < |AddIds(patch)| && AddIds(patch)[i] == n;
        assert f.tasks[i] in f.tasks;
      }
      if n in TaskIds(f.tasks) {
        var i :| 0 <= i < |f.tasks| && f.tasks[i].id == n;
        assert AddIds(patch)[i] == n;
      }
    }
    if p.cancel != [] {
      assert p.cancel[0] in p.cancel;
    }
  }

  /** Why a proposed task may be left out of an accepted patch without an error. */
  ghost predicate Excused(reg: Registry, g: Snapshot, p: Proposal, raw: RawTask)
    requires p.Proposal?
  {
    && raw.RawTask? && raw.id.Some? && raw.capability.Some?
    && var input := reg.validate(raw.capability.value, raw.arguments);
       && input.Some?
       && (|| Repeats(g, p.cancel, raw.capability.value, input.value, true)
           || (raw.capability.value !in reg.rerunnable && Repeats(g, [], raw.capability.value, input.value, false))
           || (raw.dependsOn.Some? && exists d :: d in raw.dependsOn.value && d !in g.nodes)
           || (raw.capability.value in reg.terminal && TerminalActive(reg, g)))
  }

  ghost predicate TakenAs(reg: Registry, raw: RawTask, t: TaskSpec) {
    && raw.RawTask? && raw.id == Some(t.id) && raw.capability == Some(t.skill)
    && reg.validate(t.skill, raw.arguments) == Some(t.input)
  }

  lemma JudgeIsFair(reg: Registry, lim: Limits, g: Snapshot, p: Proposal, taken: set<Id>, raw: RawTask)
    requires p.Proposal? && !Judge(reg, lim, g, p, taken, raw).Reject?
    ensures Excused(reg, g, p, raw) ||
            (Judge(reg, lim, g, p, taken, raw).Take? && TakenAs(reg, raw, Judge(reg, lim, g, p, taken, raw).task))
    ensures Judge(reg, lim, g, p, taken, raw).Take? ==> TakenAs(reg, raw, Judge(reg, lim, g, p, taken, raw).task)
  {
    if raw.RawTask? && raw.dependsOn.Some? {
      FutureIsMissing(g, raw.dependsOn.value);
    }
  }

  lemma {:induction false} FutureIsMissing(g: Snapshot, dependencies: seq<Id>)
    ensures forall d :: d in Future(g, dependencies) ==> d in dependencies && d !in g.nodes
    ensures Future(g, dependencies) != [] ==> exists d :: d in dependencies && d !in g.nodes
  {
    if dependencies != [] {
      FutureIsMissing(g, dependencies[1..]);
      assert dependencies[0] in dependencies;
      assert forall d :: d in dependencies[1..] ==> d in dependencies;
    }
  }

  lemma {:induction false} GatheredIsFair(reg: Registry, lim: Limits, g: Snapshot, p: Proposal, raws: seq<RawTask>)
    requires p.Proposal? && Gathered(reg, lim, g, p, raws).Success?
    ensures
      var tasks := Gathered(reg, lim, g, p, raws).value.tasks;
      && (forall raw :: raw in raws ==> Excused(reg, g, p, raw) || exists t :: t in tasks && TakenAs(reg, raw, t))
      && (forall t :: t in tasks ==> exists raw :: raw in raws && TakenAs(reg, raw, t))
    decreases |raws|
  {
    if raws != [] {
      var front, raw := raws[..|raws| - 1], raws[|raws| - 1];
      assert raws == front + [raw];
      GatheredIsFair(reg, lim, g, p, front);
      var f := Gathered(reg, lim, g, p, front).value;
      var verdict := Judge(reg, lim, g, p, TaskIds(f.tasks), raw);
      JudgeIsFair(reg, lim, g, p, TaskIds(f.tasks), raw);
      var tasks := Gathered(reg, lim, g, p, raws).value.tasks;
      assert forall t :: t in f.tasks ==> t in tasks;
      assert verdict.Take? ==> verdict.task in tasks;
      assert forall t :: t in tasks ==> t in f.tasks || (verdict.Take? && t == verdict.task);
    }
  }

  /**
    An accepted patch takes every proposed call it has no stated reason to leave out,
    and nothing that was not proposed.
  */
  lemma ParsedIsFair(reg: Registry, lim: Limits, g: Snapshot, p: Proposal)
    requires Parsed(reg, lim, g, p).Success?
    ensures
      var patch := Parsed(reg, lim, g, p).value;
      && patch.cancel == p.cancel
      && (forall raw :: raw in p.add ==> Excused(reg, g, p, raw) || exists t :: t in patch.add && TakenAs(reg, raw, t))
      && (forall t :: t in patch.add ==> exists raw :: raw in p.add && TakenAs(reg, raw, t))
  {
    GatheredIsFair(reg, lim, g, p, p.add);
  }

  /** Planner/store refinement: what the boundary lets through, the store accepts without error. */
  lemma FrontieredIsAcceptable(lim: Limits, g: Snapshot, st: RunState, p: GraphPatch)
    requires Sound(st) && SnapshotOf(g, st) && !st.view.finished
    requires Frontiered(lim, g, p)
    ensures Acceptable(st.view, p) && FreshEdges(p)
    ensures PatchError(st.view, p).None?
  {
    FrontieredMeetsRules(lim, g, st.view, p);
    NoErrorIffAcceptable(st.view, p);
  }

  lemma FrontieredMeetsRules(lim: Limits, g: Snapshot, v: View, p: GraphPatch)
    requires !v.finished && Dag.IsDag(v.nodes.Keys, v.edges)
    requires forall e :: e in v.edges ==> e.0 in v.nodes && e.1 in v.nodes
    requires g.nodes == v.nodes && Frontiered(lim, g, p)
    ensures Acceptable(v, p)
  {
    NewEdgesApart(lim, g, v, p);
    assert forall e :: e in p.connect ==> e.1 in AddIds(p) && e.0 in v.nodes;
    GrownIsDag(v, p);
    assert forall n :: n in p.cancel ==> n in v.nodes && Active(v.nodes[n].state);
  }

  lemma NewEdgesApart(lim: Limits, g: Snapshot, v: View, p: GraphPatch)
    requires g.nodes == v.nodes && Frontiered(lim, g, p)
    ensures forall e :: e in p.connect ==> e.0 in GrownIds(v, p) && e.1 in GrownIds(v, p) && e.0 != e.1
  {
  }

  /**
    When a planner's patch leaves work to do: exactly when it finishes the run, adds
    a task, or spares an active one.  So a run stalls, unfinished and with nothing
    active, only on a patch that cancels all that was left and adds nothing.
  */
  lemma LeavesWorkIff(lim: Limits, g: Snapshot, st: RunState, p: GraphPatch, trigger: int)
    requires Sound(st) && SnapshotOf(g, st) && !st.view.finished && Frontiered(lim, g, p)
    ensures
      var v := PatchedView(st.view, p, trigger);
      (v.finished || exists n :: n in v.nodes && Active(v.nodes[n].state)) <==>
      (p.finish || p.add != [] || exists n :: n in st.view.nodes && Active(st.view.nodes[n].state) && n !in p.cancel)
  {
    if !p.finish {
      if p.add != [] {
        var n := AddIds(p)[0];
        assert n in AddIds(p) && n !in g.nodes;
        WorkAt(g, lim, st, p, trigger, n);
      }
      forall n | n in GrownIds(st.view, p) {
        WorkAt(g, lim, st, p, trigger, n);
      }
    }
  }

  lemma WorkAt(g: Snapshot, lim: Limits, st: RunState, p: GraphPatch, trigger: int, n: Id)
    requires SnapshotOf(g, st) && Frontiered(lim, g, p) && !p.finish && n in GrownIds(st.view, p)
    ensures
      var nodes := PatchedView(st.view, p, trigger).nodes;
      && n in nodes
      && (Active(nodes[n].state) <==> if n in st.view.nodes then Active(st.view.nodes[n].state) && n !in p.cancel
                                      else n in AddIds(p))
  {
  }

  /** A run with one task, still pending. */
  const LONE := Snapshot(
    false, ["a"], map["a" := TaskSpec("a", "skill", "{}", TaskMeta(None, false, None))], map["a" := FRESH], {})

  const ENOUGH := Proposal([], ["a"], false, Some("enough"))

  /** A proposal that stalls it: it cancels the only task, says why, and adds nothing. */
  lemma StallingProposal(reg: Registry, lim: Limits)
    requires lim.maxNewTasks >= 0 && lim.maxNodes >= 1
    ensures
      var r, v := Parsed(reg, lim, LONE, ENOUGH), View(LONE.nodes, LONE.edges, false, map[]);
      && r.Success? && Acceptable(v, r.value)
      && !PatchedView(v, r.value, 1).finished
      && forall n :: n in PatchedView(v, r.value, 1).nodes ==> !Active(PatchedView(v, r.value, 1).nodes[n].state)
  {
    EnoughParses(reg, lim);
    LoneCancelled(Parsed(reg, lim, LONE, ENOUGH).value);
  }

  lemma EnoughParses(reg: Registry, lim: Limits)
    requires lim.maxNewTasks >= 0 && lim.maxNodes >= 1
    ensures
      var r := Parsed(reg, lim, LONE, ENOUGH);
      && r.Success? && r.value.add == [] && r.value.connect == [] && r.value.cancel == ["a"]
      && r.value.wait == [] && r.value.resume == [] && !r.value.finish
  {
    assert LONE.nodes.Keys == {"a"};
    assert |LONE.nodes| == 1;
    assert !IsSpace("enough"[0]);
    assert EnvelopeError(lim, LONE, ENOUGH).None?;
  }

  lemma LoneCancelled(p: GraphPatch)
    requires p.add == [] && p.connect == [] && p.cancel == ["a"] && p.wait == [] && p.resume == [] && !p.finish
    ensures
      var v := View(LONE.nodes, LONE.edges, false, map[]);
      && Acceptable(v, p)
      && !PatchedView(v, p, 1).finished
      && forall n :: n in PatchedView(v, p, 1).nodes ==> !Active(PatchedView(v, p, 1).nodes[n].state)
  {
    var v := View(LONE.nodes, LONE.edges, false, map[]);
    assert AddIds(p) == [];
    Dag.RankedIsDag(GrownIds(v, p), v.edges + Elements(p.connect), map["a" := 0]);
  }

  lemma GrownIsDag(v: View, p: GraphPatch)
    requires Dag.IsDag(v.nodes.Keys, v.edges)
    requires forall e :: e in v.edges ==> e.0 in v.nodes && e.1 in v.nodes
    requires forall n :: n in AddIds(p) ==> n !in v.nodes
    requires forall e :: e in p.connect ==> e.1 in AddIds(p) && e.0 in v.nodes
    ensures Dag.IsDag(GrownIds(v, p), v.edges + Elements(p.connect))
  {
    Dag.GrowKeepsDag(v.nodes.Keys, v.edges, Elements(AddIds(p)), Elements(p.connect));
  }

  // ------------------------------------------------------------------ the planner

  /** One model call made while planning: a proposal, judged, or an evidence review. */
  datatype Attempt = Attempt(event: int, review: bool, accepted: bool)

  /** What comes back from the model, or does not. */
  datatype Reply = CallFailed | Replied(proposal: Proposal, meter: Json)

  datatype Review = ReviewFailed | Unusable | NotReady | Ready

  predicate HasTerminal(reg: Registry, tasks: seq<TaskSpec>) {
    exists t :: t in tasks && t.skill in reg.terminal
  }

  function Idle(finish: bool, reason: string, meter: Json): GraphPatch {
    GraphPatch([], [], [], [], [], finish, reason, meter)
  }

  class GeneralAgentPlanner {
    const reg: Registry
    const lim: Limits
    const reviewTerminal: bool
    var history: seq<Attempt>

    constructor (reg: Registry, lim: Limits, reviewTerminal: bool)
      ensures this.reg == reg && this.lim == lim && this.reviewTerminal == reviewTerminal && history == []
    {
      this.reg, this.lim, this.reviewTerminal := reg, lim, reviewTerminal;
      history := [];
    }

    /**
      One planning round: at most `repairAttempts` + 1 proposals, each reviewed at most
      once.  Only a failing review call escapes; everything else ends in a patch.
    */
    method Plan(g: Snapshot, node: Option<Id>, sequence: int) returns (r: Result<GraphPatch, ()>)
      modifies this
      ensures r.Success? ==> Frontiered(lim, g, r.value)
      ensures r.Success? ==> forall t :: t in r.value.add ==> NovelCall(reg, g, r.value.cancel, t)
      ensures |g.nodes| >= lim.maxNodes ==> r.Success? && r.value.finish
      ensures !reviewTerminal ==> r.Success?
      ensures old(history) <= history && |history| <= |old(history)| + 2 * (lim.repairAttempts + 1)
    {
      if node.Some? && node.value in g.nodes && node.value in g.specs && g.specs[node.value].skill in reg.terminal
      {
        var state := g.nodes[node.value].state;
        if state.Succeeded? || state.Failed? || state.Cancelled? {
          return Success(Idle(true, "terminal capability ended", ""));
        }
      }
      if |g.nodes| >= lim.maxNodes {
        return Success(Idle(true, "planner node limit reached", ""));
      }
      // Whether one verification has failed the same way too often is read off
      // results the model of the graph does not interpret: either answer may come.
      var stuck: bool := *;
      if stuck {
        return Success(Idle(true, "stopping without converging", ""));
      }
      var meter, attempt := "", 0;
      while attempt <= lim.repairAttempts
        invariant attempt <= lim.repairAttempts + 1
        invariant old(history) <= history && |history| <= |old(history)| + 2 * attempt
      {
        attempt := attempt + 1;
        var reply: Reply := *;
        if !reply.Replied? {
          history := history + [Attempt(sequence, false, false)];
          return Success(Idle(!AnyActive(g), "planner call failed visibly", meter));
        }
        meter := meter + reply.meter;
        var parsed := Parse(reg, lim, g, reply.proposal);
        var accepted := parsed.Success?;
        if accepted && reviewTerminal && HasTerminal(reg, parsed.value.add) {
          var review: Review := *;
          if review.ReviewFailed? {
            return Failure(());
          }
          if !review.Unusable? {
            history := history + [Attempt(sequence, true, review.Ready?)];
          }
          accepted := review.Ready?;
        }
        history := history + [Attempt(sequence, false, accepted)];
        if accepted {
          ParsedIsFrontiered(reg, lim, g, reply.proposal);
          return Success(parsed.value.(metadata := meter));
        }
      }
      return Success(Idle(!AnyActive(g), "planner failed validation after repair", meter));
    }
  }
}
