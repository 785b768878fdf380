/**
  The idempotency outbox: a durable record per side effect, written before the
  operation and after it, so that a crash in between can never repeat it.
*/
module Outbox {
  import opened Wrappers
  import opened LiveGraph
  import opened RunOps
  import opened RunInvariants
  import RunHistory

  /** What identifies a side effect; the digest that names its file is taken to be injective. */
  datatype Key = Key(run: string, node: Id, capability: string, arguments: Json)

  datatype JsonValue = Str(text: string) | Obj(fields: map<string, JsonValue>)

  /** What an operation yields: a result, or a promise of a later event. */
  datatype Value =
    | Result(fields: map<string, JsonValue>)
    | Deferred(handle: string, eventType: string, metadata: map<string, JsonValue>)

  function Encode(v: Value): map<string, JsonValue> {
    match v
    case Deferred(handle, eventType, metadata) =>
      map["kind" := Str("deferred"), "handle" := Str(handle), "event_type" := Str(eventType),
          "metadata" := Obj(metadata)]
    case Result(fields) => map["kind" := Str("result"), "value" := Obj(fields)]
  }

  /** `None` where the stored receipt lacks a field. */
  function Decode(r: map<string, JsonValue>): Option<Value> {
    if "kind" !in r then None
    else if r["kind"] == Str("deferred") then
      if "handle" in r && r["handle"].Str? && "event_type" in r && r["event_type"].Str? then
        var metadata := if "metadata" in r then r["metadata"] else Obj(map[]);
        if metadata.Obj? then Some(Deferred(r["handle"].text, r["event_type"].text, metadata.fields)) else None
      else None
    else if "value" in r && r["value"].Obj? then Some(Result(r["value"].fields))
    else None
  }

  /** A receipt reads back as what was written, even a result that calls itself deferred. */
  lemma DecodeUndoesEncode(v: Value)
    ensures Decode(Encode(v)) == Some(v)
  {
    match v
    case Deferred(handle, eventType, metadata) =>
      var r := Encode(v);
      assert r["kind"] == Str("deferred") && r["handle"] == Str(handle);
    case Result(fields) =>
      var r := Encode(v);
      assert r["kind"] == Str("result") && r["value"] == Obj(fields);
      assert "result" != "deferred" by {
        assert |"result"| != |"deferred"|;
      }
  }

  datatype Status = Started | Completed(receipt: map<string, JsonValue>) | Broken(error: string)

  /** What a caller gets. */
  datatype Answer = Receipt(value: Value) | Reconcile(key: Key) | Error(error: string) | Interrupted

  /** The answer a recorded key gives without running anything. */
  function Recorded(key: Key, s: Status): Answer {
    match s
    case Completed(receipt) =>
      var v := Decode(receipt);
      if v.Some? then Receipt(v.value) else Error("unreadable receipt")
    case Started => Reconcile(key)
    case Broken(error) => Error(error)
  }

  // ------------------------------------------------------------- callers and crashes

  /** Durable records; the calls now running; and two logs, of invocations and of answers. */
  datatype World = World(
    records: map<Key, Status>, inFlight: multiset<Key>, invoked: seq<Key>, answers: seq<(Key, Answer)>)

  const NEW := World(map[], multiset{}, [], [])

  datatype Event =
    | Call(key: Key)
    | Return(key: Key, value: Value)
    | Raise(key: Key, error: string)
    | Cancel(key: Key)
    | Crash

  function Answered(w: World, key: Key, a: Answer): World {
    w.(answers := w.answers + [(key, a)])
  }

  /** One atomic move of some caller, or the death of the process; an impossible one changes nothing. */
  function Move(w: World, e: Event): World {
    match e
    case Call(key) =>
      if key in w.records then Answered(w, key, Recorded(key, w.records[key]))
      else w.(records := w.records[key := Started], inFlight := w.inFlight + multiset{key}, invoked := w.invoked + [key])
    case Return(key, value) =>
      if key !in w.inFlight then w
      else Answered(w.(records := w.records[key := Completed(Encode(value))], inFlight := w.inFlight - multiset{key}),
                    key, Receipt(value))
    case Raise(key, error) =>
      if key !in w.inFlight then w
      else Answered(w.(records := w.records[key := Broken(error)], inFlight := w.inFlight - multiset{key}),
                    key, Error(error))
    case Cancel(key) => if key !in w.inFlight then w else w.(inFlight := w.inFlight - multiset{key})
    case Crash => w.(inFlight := multiset{})
  }

  ghost predicate InvokedAt(invoked: seq<Key>, i: int, key: Key) {
    0 <= i < |invoked| && invoked[i] == key
  }

  ghost predicate Sane(w: World) {
    && (forall key :: w.inFlight[key] <= 1)
    && (forall key :: key in w.inFlight ==> key in w.records && w.records[key].Started?)
    && (forall i, key :: InvokedAt(w.invoked, i, key) ==> key in w.records)
    && (forall i, j, key :: InvokedAt(w.invoked, i, key) && InvokedAt(w.invoked, j, key) ==> i == j)
    && (forall a :: a in w.answers && a.1.Receipt? ==>
          a.0 in w.records && w.records[a.0].Completed? && Decode(w.records[a.0].receipt) == Some(a.1.value))
  }

  lemma MoveKeepsSane(w: World, e: Event)
    requires Sane(w)
    ensures Sane(Move(w, e))
  {
    match e
    case Call(key) => CallKeepsSane(w, key);
    case Return(key, value) =>
      DecodeUndoesEncode(value);
      SettleKeepsSane(w, key, Completed(Encode(value)), Receipt(value));
    case Raise(key, error) => SettleKeepsSane(w, key, Broken(error), Error(error));
    case Cancel(key) =>
    case Crash =>
  }

  lemma CallKeepsSane(w: World, key: Key)
    requires Sane(w)
    ensures Sane(Move(w, Call(key)))
  {
    var w' := Move(w, Call(key));
    if key !in w.records {
      assert forall i, k :: InvokedAt(w'.invoked, i, k) ==> InvokedAt(w.invoked, i, k) || (k == key && i == |w.invoked|);
      assert forall i :: !InvokedAt(w.invoked, i, key);
      assert key !in w.inFlight;
    }
  }

  /** A running operation has given no receipt yet, so settling it contradicts none. */
  lemma SettleKeepsSane(w: World, key: Key, s: Status, a: Answer)
    requires Sane(w) && !s.Started?
    requires a.Receipt? ==> s.Completed? && Decode(s.receipt) == Some(a.value)
    ensures
      key in w.inFlight ==>
        Sane(Answered(w.(records := w.records[key := s], inFlight := w.inFlight - multiset{key}), key, a))
  {
    assert forall x :: x in w.answers && x.0 == key && key in w.inFlight ==> !x.1.Receipt?;
  }

  ghost function Story(es: seq<Event>): (w: World)
    ensures Sane(w)
  {
    if es == [] then NEW
    else
      MoveKeepsSane(Story(es[..|es| - 1]), es[|es| - 1]);
      Move(Story(es[..|es| - 1]), es[|es| - 1])
  }

  /** Over every history of calls, failures, cancellations and crashes an operation is invoked at most once. */
  lemma InvokedAtMostOnce(es: seq<Event>, i: nat, j: nat)
    requires i < |Story(es).invoked| && j < |Story(es).invoked| && Story(es).invoked[i] == Story(es).invoked[j]
    ensures i == j
  {
    var w := Story(es);
    assert InvokedAt(w.invoked, i, w.invoked[i]) && InvokedAt(w.invoked, j, w.invoked[i]);
  }

  /** Every receipt a key ever yields is the same. */
  lemma OneReceiptEach(es: seq<Event>, a: (Key, Answer), b: (Key, Answer))
    requires a in Story(es).answers && b in Story(es).answers && a.0 == b.0 && a.1.Receipt? && b.1.Receipt?
    ensures a.1.value == b.1.value
  {
    assert Sane(Story(es));
  }

  /** A completed or failed key is settled for good. */
  lemma {:induction false} SettledForGood(es: seq<Event>, more: seq<Event>, key: Key)
    requires key in Story(es).records && !Story(es).records[key].Started?
    ensures key in Story(es + more).records && Story(es + more).records[key] == Story(es).records[key]
    decreases |more|
  {
    if more == [] {
      assert es + more == es;
    } else {
      var front := more[..|more| - 1];
      var last := more[|more| - 1];
      assert es + more == es + front + [last];
      SettledForGood(es, front, key);
      StoryStep(es + front, last);
      SettledStays(Story(es + front), last, key);
    }
  }

  lemma StoryStep(es: seq<Event>, e: Event)
    ensures Story(es + [e]) == Move(Story(es), e)
  {
    assert (es + [e])[..|es|] == es;
  }

  lemma SettledStays(w: World, e: Event, key: Key)
    requires Sane(w) && key in w.records && !w.records[key].Started?
    ensures key in Move(w, e).records && Move(w, e).records[key] == w.records[key]
  {
    assert key !in w.inFlight;
  }

  class ActionOutbox {
    var records: map<Key, Status>

    constructor (stored: map<Key, Status>)
      ensures records == stored
    {
      records := stored;
    }

    /**
      Runs an operation under its key unless the key is on record.  The operation may
      return, raise, or be cut short by a cancellation or the death of the process.
    */
    method Execute(key: Key) returns (a: Answer, ghost invoked: bool)
      modifies this
      ensures invoked <==> key !in old(records)
      ensures !invoked ==> a == Recorded(key, old(records)[key]) && records == old(records)
      ensures invoked ==>
                match a
                case Receipt(v) => records == old(records)[key := Completed(Encode(v))]
                case Error(error) => records == old(records)[key := Broken(error)]
                case Reconcile(_) => false
                case Interrupted => records == old(records)[key := Started]
      ensures invoked && a.Receipt? ==> Recorded(key, records[key]) == a
    {
      if key in records {
        return Recorded(key, records[key]), false;
      }
      records := records[key := Started];
      invoked := true;
      var ending: Answer := *;
      match ending
      case Receipt(v) =>
        records := records[key := Completed(Encode(v))];
        DecodeUndoesEncode(v);
        a := ending;
      case Error(error) =>
        records := records[key := Broken(error)];
        a := ending;
      case _ =>
        a := Interrupted;
    }
  }

  // ------------------------------------------------------------- side effects of a run

  /**
    One run beside the outbox it shares with every other run.  `workers` holds, once
    for each launch, the tasks whose side-effect worker has still to reach the outbox.
  */
  datatype Scene = Scene(st: RunState, world: World, workers: multiset<Id>)

  /**
    A store operation, in which a launch starts the workers of the tasks it turns
    running; a worker that reaches the outbox; or anything the outbox sees besides.
  */
  datatype Act = Graph(op: RunHistory.Op) | Reach(node: Id) | Beside(event: Event)

  function KeyOf(run: string, n: Id, t: TaskSpec): Key {
    Key(run, n, t.skill, t.input)
  }

  ghost function SetGoing(st: RunState, st': RunState): set<Id> {
    set n | n in st'.view.nodes && IsRunning(st', n) && !IsRunning(st, n)
  }

  /** A call beside this run is another run's; a crash takes the workers with it. */
  ghost function Acted(run: string, s: Scene, a: Act): Scene
    requires Sound(s.st)
  {
    match a
    case Graph(op) =>
      var st := RunHistory.Step(s.st, op);
      s.(st := st, workers := s.workers + if op.Launch? then multiset(SetGoing(s.st, st)) else multiset{})
    case Reach(n) =>
      if n !in s.workers || n !in s.st.specs then s
      else s.(workers := s.workers - multiset{n}, world := Move(s.world, Call(KeyOf(run, n, s.st.specs[n]))))
    case Beside(e) =>
      if e.Call? && e.key.run == run then s
      else s.(world := Move(s.world, e), workers := if e.Crash? then multiset{} else s.workers)
  }

  ghost predicate Launches(es: seq<LiveGraph.Event>, n: Id) {
    exists i :: 0 <= i < |es| && es[i].TaskStarted? && es[i].node == n
  }

  /** A key of this run is that of a launched task, and says what its only specification says. */
  ghost predicate Mine(run: string, st: RunState, key: Key) {
    key.run == run ==>
      && key.node in st.specs
      && key == KeyOf(run, key.node, st.specs[key.node])
      && Launches(st.events, key.node)
  }

  ghost predicate Its(run: string, s: Scene) {
    && Sound(s.st) && Sane(s.world)
    && (forall n :: n in s.workers ==> n in s.st.specs && Launches(s.st.events, n))
    && (forall key :: key in s.world.invoked ==> Mine(run, s.st, key))
  }

  ghost function Play(run: string, context: Json, acts: seq<Act>): (s: Scene)
    ensures Its(run, s)
  {
    if acts == [] then
      FreshKeeps(context);
      Scene(Fresh(context), NEW, multiset{})
    else
      var before := Play(run, context, acts[..|acts| - 1]);
      ActedIts(run, before, acts[|acts| - 1]);
      Acted(run, before, acts[|acts| - 1])
  }

  lemma ActedIts(run: string, s: Scene, a: Act)
    requires Its(run, s)
    ensures Its(run, Acted(run, s, a))
  {
    match a
    case Graph(op) => GraphIts(run, s, op);
    case Reach(n) =>
      if n in s.workers && n in s.st.specs {
        MoveIts(run, s, Call(KeyOf(run, n, s.st.specs[n])));
      }
    case Beside(e) =>
      if !(e.Call? && e.key.run == run) {
        MoveIts(run, s, e);
      }
  }

  lemma MoveIts(run: string, s: Scene, e: Event)
    requires Its(run, s) && (e.Call? ==> Mine(run, s.st, e.key))
    ensures Its(run, s.(world := Move(s.world, e)))
  {
    MoveKeepsSane(s.world, e);
    forall key | key in Move(s.world, e).invoked
      ensures Mine(run, s.st, key)
    {
      OnlyCallsInvoke(s.world, e, key);
    }
  }

  lemma OnlyCallsInvoke(w: World, e: Event, key: Key)
    requires key in Move(w, e).invoked
    ensures key in w.invoked || e == Call(key)
  {
  }

  lemma GraphIts(run: string, s: Scene, op: RunHistory.Op)
    requires Its(run, s)
    ensures Its(run, Acted(run, s, Graph(op)))
  {
    RunHistory.StepSound(s.st, op);
    forall n | n in Acted(run, s, Graph(op)).workers
      ensures n in RunHistory.Step(s.st, op).specs && Launches(RunHistory.Step(s.st, op).events, n)
    {
      if n in s.workers {
        LaunchStays(s.st, op, n);
      } else {
        LaunchIsJournalled(s.st, op.tasks, n);
      }
    }
    forall key | key in s.world.invoked
      ensures Mine(run, RunHistory.Step(s.st, op), key)
    {
      assert Mine(run, s.st, key);
      if key.run == run {
        LaunchStays(s.st, op, key.node);
      }
    }
  }

  lemma LaunchStays(st: RunState, op: RunHistory.Op, n: Id)
    requires Sound(st) && n in st.specs && Launches(st.events, n)
    ensures n in RunHistory.Step(st, op).specs && RunHistory.Step(st, op).specs[n] == st.specs[n]
    ensures Launches(RunHistory.Step(st, op).events, n)
  {
    RunHistory.StepPreserves(st, op);
    RunHistory.StepKeepsSpec(st, op, n);
    var i :| 0 <= i < |st.events| && st.events[i].TaskStarted? && st.events[i].node == n;
    assert RunHistory.Step(st, op).events[i] == st.events[i];
  }

  lemma {:induction false} LaunchIsJournalled(st: RunState, ts: seq<TaskSpec>, n: Id)
    requires forall t :: t in ts ==> t.id in st.view.nodes
    requires IsRunning(Marked(st, ts), n) && !IsRunning(st, n)
    ensures Launches(Marked(st, ts).events, n)
    decreases |ts|
  {
    var front := Marked(st, ts[..|ts| - 1]);
    var es := Marked(st, ts).events;
    if IsRunning(front, n) {
      LaunchIsJournalled(st, ts[..|ts| - 1], n);
      var i :| 0 <= i < |front.events| && front.events[i].TaskStarted? && front.events[i].node == n;
      assert es[i] == front.events[i];
    } else {
      assert es[|front.events|].TaskStarted? && es[|front.events|].node == n;
    }
  }

  /**
    A task acts at most once in the life of its run, however often the run crashes and
    is resumed and whatever other runs do to the outbox; and it acts only once launched,
    as its one specification says.
  */
  lemma ActsAtMostOnce(run: string, context: Json, acts: seq<Act>, i: nat, j: nat)
    requires i < |Play(run, context, acts).world.invoked| && j < |Play(run, context, acts).world.invoked|
    requires
      var invoked := Play(run, context, acts).world.invoked;
      invoked[i].run == run == invoked[j].run && invoked[i].node == invoked[j].node
    ensures i == j
    ensures
      var s := Play(run, context, acts);
      var n := s.world.invoked[i].node;
      && n in s.st.specs && Launches(s.st.events, n)
      && s.world.invoked[i] == KeyOf(run, n, s.st.specs[n])
  {
    var s := Play(run, context, acts);
    var invoked := s.world.invoked;
    assert invoked[i] in invoked && invoked[j] in invoked;
    assert InvokedAt(invoked, i, invoked[i]) && InvokedAt(invoked, j, invoked[i]);
  }
}
