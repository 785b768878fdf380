/**
  The span tree built from a run's journal.  Spans live in a table, each knowing its
  parent; a span's children are the later spans that name it, in order of creation.
*/
module Spans {
  import opened Wrappers

  datatype Call = Call(model: string, cost: real, started: real, latencyMs: real)

  datatype Outcome = Succeeded | Failed | Cancelled

  datatype What =
    | Patched(add: seq<string>, calls: seq<Call>)
    | Started(node: string)
    | Ended(node: string, outcome: Outcome, calls: seq<Call>)
    | Other

  datatype Event = Event(sequence: int, what: What)

  datatype Kind = Run | AgentLoop | Plan | Node | ProviderCall

  /** A span; `origin` is the place in the journal of the event it was made for. */
  datatype Span = Span(kind: Kind, name: string, parent: nat, origin: nat, call: Option<Call>)

  datatype Times = Times(start: Option<int>, end: Option<int>)

  // ---------------------------------------------------------------------- the tree

  predicate Tree(spans: seq<Span>) {
    |spans| > 0 && forall j :: 0 < j < |spans| ==> spans[j].parent < j
  }

  predicate ChildOf(spans: seq<Span>, c: nat, i: nat) {
    i < c < |spans| && spans[c].parent == i
  }

  /** `m` is `i` or one of its descendants. */
  predicate Within(spans: seq<Span>, m: nat, i: nat)
    requires Tree(spans) && m < |spans|
    decreases m
  {
    m == i || (m > i && Within(spans, spans[m].parent, i))
  }

  lemma {:induction false} RootHoldsAll(spans: seq<Span>, m: nat)
    requires Tree(spans) && m < |spans|
    ensures Within(spans, m, 0)
    decreases m
  {
    if m > 0 {
      RootHoldsAll(spans, spans[m].parent);
    }
  }

  lemma {:induction false} SiblingsApart(spans: seq<Span>, i: nat, a: nat, b: nat, m: nat)
    requires Tree(spans) && ChildOf(spans, a, i) && ChildOf(spans, b, i) && a != b
    requires m < |spans| && Within(spans, m, a)
    ensures !Within(spans, m, b)
    decreases m
  {
    if m != a && m != b {
      SiblingsApart(spans, i, a, b, spans[m].parent);
    }
  }

  /** Every descendant but the span itself lies under one of its children. */
  lemma {:induction false} UnderSomeChild(spans: seq<Span>, m: nat, i: nat)
    requires Tree(spans) && m < |spans| && Within(spans, m, i) && m != i
    ensures exists c :: ChildOf(spans, c, i) && Within(spans, m, c)
    decreases m
  {
    if spans[m].parent == i {
      assert ChildOf(spans, m, i) && Within(spans, m, m);
    } else {
      UnderSomeChild(spans, spans[m].parent, i);
      var c :| ChildOf(spans, c, i) && Within(spans, spans[m].parent, c);
      assert Within(spans, m, c);
    }
  }

  lemma {:induction false} UnderChildIsUnder(spans: seq<Span>, m: nat, c: nat, i: nat)
    requires Tree(spans) && m < |spans| && ChildOf(spans, c, i) && Within(spans, m, c)
    ensures Within(spans, m, i) && m != i
    decreases m
  {
    if m != c {
      UnderChildIsUnder(spans, spans[m].parent, c, i);
    }
  }

  // ------------------------------------------------------------------------- walk

  /** The preorder walk: the span, then its children's walks in order. */
  function Walk(spans: seq<Span>, i: nat): (w: seq<nat>)
    requires Tree(spans) && i < |spans|
    decreases |spans| - i, |spans| + 1
  {
    [i] + WalkChildren(spans, i, i + 1)
  }

  function WalkChildren(spans: seq<Span>, i: nat, from: nat): (w: seq<nat>)
    requires Tree(spans) && i < from <= |spans|
    decreases |spans| - i, |spans| - from
  {
    if from == |spans| then []
    else (if spans[from].parent == i then Walk(spans, from) else []) + WalkChildren(spans, i, from + 1)
  }

  ghost predicate UnderLater(spans: seq<Span>, m: nat, i: nat, from: nat)
    requires Tree(spans) && m < |spans|
  {
    exists c :: c >= from && ChildOf(spans, c, i) && Within(spans, m, c)
  }

  /** The walk meets each descendant exactly once, and nothing else. */
  lemma {:induction false} WalkOnce(spans: seq<Span>, i: nat, m: nat)
    requires Tree(spans) && i < |spans| && m < |spans|
    ensures multiset(Walk(spans, i))[m] == if Within(spans, m, i) then 1 else 0
    decreases |spans| - i, |spans| + 1
  {
    WalkChildrenOnce(spans, i, i + 1, m);
    if UnderLater(spans, m, i, i + 1) {
      var c :| c >= i + 1 && ChildOf(spans, c, i) && Within(spans, m, c);
      UnderChildIsUnder(spans, m, c, i);
    } else if m != i && Within(spans, m, i) {
      UnderSomeChild(spans, m, i);
      assert UnderLater(spans, m, i, i + 1);
    }
  }

  lemma {:induction false} WalkChildrenOnce(spans: seq<Span>, i: nat, from: nat, m: nat)
    requires Tree(spans) && i < from <= |spans| && m < |spans|
    ensures multiset(WalkChildren(spans, i, from))[m] == if UnderLater(spans, m, i, from) then 1 else 0
    decreases |spans| - i, |spans| - from
  {
    if from < |spans| {
      WalkChildrenOnce(spans, i, from + 1, m);
      LaterOrHere(spans, m, i, from);
      var here := if spans[from].parent == i then Walk(spans, from) else [];
      assert WalkChildren(spans, i, from) == here + WalkChildren(spans, i, from + 1);
      if spans[from].parent == i {
        WalkOnce(spans, from, m);
      }
    }
  }

  lemma LaterOrHere(spans: seq<Span>, m: nat, i: nat, from: nat)
    requires Tree(spans) && i < from < |spans| && m < |spans|
    ensures UnderLater(spans, m, i, from)
            <==> UnderLater(spans, m, i, from + 1) || (spans[from].parent == i && Within(spans, m, from))
    ensures spans[from].parent == i && Within(spans, m, from) ==> !UnderLater(spans, m, i, from + 1)
  {
    if spans[from].parent == i && Within(spans, m, from) {
      assert ChildOf(spans, from, i);
      forall c: nat | c >= from + 1 && ChildOf(spans, c, i)
        ensures !Within(spans, m, c)
      {
        SiblingsApart(spans, i, from, c, m);
      }
    }
  }

  // ------------------------------------------------------------------------- times

  predicate Settled(t: Times) {
    t.start.Some? && t.end.Some? && t.start.value <= t.end.value
  }

  /** A span's interval lies in its parent's. */
  predicate Nested(spans: seq<Span>, times: seq<Times>, m: nat)
    requires 0 < m < |spans| == |times| && Tree(spans)
  {
    && Settled(times[m]) && Settled(times[spans[m].parent])
    && times[spans[m].parent].start.value <= times[m].start.value
    && times[m].end.value <= times[spans[m].parent].end.value
  }

  /** Once every span is nested in its parent, it is nested in all its ancestors. */
  lemma {:induction false} NestedInAncestors(spans: seq<Span>, times: seq<Times>, m: nat, i: nat)
    requires Tree(spans) && m < |spans| == |times| && Within(spans, m, i) && Settled(times[m])
    requires forall j :: 0 < j < |spans| ==> Nested(spans, times, j)
    ensures Settled(times[i]) && times[i].start.value <= times[m].start.value
    ensures times[m].end.value <= times[i].end.value
    decreases m
  {
    if m != i {
      assert Nested(spans, times, m);
      NestedInAncestors(spans, times, spans[m].parent, i);
    }
  }

  /** The earliest known start among a span's children from `from` on. */
  function Earliest(spans: seq<Span>, times: seq<Times>, i: nat, from: nat): Option<int>
    requires |times| == |spans| && i < from <= |spans|
    decreases |spans| - from
  {
    if from == |spans| then None
    else
      var rest := Earliest(spans, times, i, from + 1);
      if spans[from].parent == i && times[from].start.Some?
         && (rest.None? || times[from].start.value < rest.value) then times[from].start
      else rest
  }

  /** The latest known end among a span's children from `from` on. */
  function Latest(spans: seq<Span>, times: seq<Times>, i: nat, from: nat): Option<int>
    requires |times| == |spans| && i < from <= |spans|
    decreases |spans| - from
  {
    if from == |spans| then None
    else
      var rest := Latest(spans, times, i, from + 1);
      if spans[from].parent == i && times[from].end.Some?
         && (rest.None? || rest.value < times[from].end.value) then times[from].end
      else rest
  }

  lemma {:induction false} ChildrenBounded(spans: seq<Span>, times: seq<Times>, i: nat, from: nat, c: nat)
    requires |times| == |spans| && i < from <= c && ChildOf(spans, c, i)
    ensures times[c].start.Some? ==>
              Earliest(spans, times, i, from).Some? && Earliest(spans, times, i, from).value <= times[c].start.value
    ensures times[c].end.Some? ==>
              Latest(spans, times, i, from).Some? && times[c].end.value <= Latest(spans, times, i, from).value
    decreases |spans| - from
  {
    if from < c {
      ChildrenBounded(spans, times, i, from + 1, c);
    }
  }

  /** A known time that is zero counts as unknown when it is handed down. */
  function Or(t: Option<int>, fallback: int): int {
    if t.Some? && t.value != 0 then t.value else fallback
  }

  /** The bounds of a span from its own times and its children's. */
  function Bounds(own: Times, earliest: Option<int>, latest: Option<int>, fs: int, fe: int): (t: Times)
    ensures Settled(t)
    ensures earliest.Some? ==> t.start.value <= earliest.value
    ensures latest.Some? ==> latest.value <= t.end.value
    ensures own.start.Some? ==> t.start.value <= own.start.value
    ensures own.end.Some? ==> own.end.value <= t.end.value
  {
    var start :=
      match own.start {
        case None => if earliest.Some? then earliest.value else fs
        case Some(s) => if earliest.Some? && earliest.value < s then earliest.value else s
      };
    var end :=
      match own.end {
        case None => if latest.Some? then latest.value else fe
        case Some(e) => if latest.Some? && e < latest.value then latest.value else e
      };
    Times(Some(start), Some(if end < start then start else end))
  }

  lemma {:induction false} SameChildTimes(spans: seq<Span>, a: seq<Times>, b: seq<Times>, i: nat, from: nat)
    requires |a| == |b| == |spans| && i < from <= |spans| && a[from..] == b[from..]
    ensures Earliest(spans, a, i, from) == Earliest(spans, b, i, from)
    ensures Latest(spans, a, i, from) == Latest(spans, b, i, from)
    decreases |spans| - from
  {
    if from < |spans| {
      assert a[from] == a[from..][0] && b[from] == b[from..][0];
      assert a[from + 1..] == a[from..][1..] && b[from + 1..] == b[from..][1..];
      SameChildTimes(spans, a, b, i, from + 1);
    }
  }

  ghost predicate Leaf(spans: seq<Span>, m: nat) {
    forall c :: !ChildOf(spans, c, m)
  }

  /** A span that knew both its times and has no children keeps its start, and its end if that is not before it. */
  ghost predicate KeepsOwn(spans: seq<Span>, was: seq<Times>, now: seq<Times>, m: nat)
    requires m < |spans| == |was| == |now|
  {
    was[m].start.Some? && was[m].end.Some? && Leaf(spans, m) ==> now[m] == Bounds(was[m], None, None, 0, 0)
  }

  /** What resolving a span does to the table: its subtree is settled and nested, the rest is as it was. */
  ghost predicate ResolvedUnder(spans: seq<Span>, was: seq<Times>, now: seq<Times>, i: nat)
    requires Tree(spans) && i < |spans| == |was| == |now|
  {
    && (forall m :: 0 <= m < |spans| && !Within(spans, m, i) ==> now[m] == was[m])
    && SubtreeDone(spans, was, now, i)
  }

  ghost predicate SubtreeDone(spans: seq<Span>, was: seq<Times>, now: seq<Times>, i: nat)
    requires Tree(spans) && i < |spans| == |was| == |now|
  {
    && (forall m :: 0 <= m < |spans| && Within(spans, m, i) ==> Settled(now[m]) && KeepsOwn(spans, was, now, m))
    && (forall m :: 0 < m < |spans| && Within(spans, m, i) && m != i ==> Nested(spans, now, m))
  }

  /** The children of `i` before `upTo` are done, and nothing else below `i` has changed. */
  ghost predicate DoneUpTo(spans: seq<Span>, was: seq<Times>, now: seq<Times>, i: nat, upTo: nat)
    requires Tree(spans) && i < |spans| == |was| == |now|
  {
    && (forall m :: 0 <= m < |spans| && !UnderEarlier(spans, m, i, upTo) ==> now[m] == was[m])
    && (forall c: nat :: c < upTo && ChildOf(spans, c, i) ==> SubtreeDone(spans, was, now, c))
  }

  ghost predicate UnderEarlier(spans: seq<Span>, m: nat, i: nat, upTo: nat)
    requires Tree(spans) && m < |spans|
  {
    exists c: nat :: c < upTo && ChildOf(spans, c, i) && Within(spans, m, c)
  }

  lemma OneMoreChild(spans: seq<Span>, was: seq<Times>, mid: seq<Times>, now: seq<Times>, i: nat, c: nat)
    requires Tree(spans) && |spans| == |was| == |mid| == |now| && ChildOf(spans, c, i)
    requires DoneUpTo(spans, was, mid, i, c) && ResolvedUnder(spans, mid, now, c)
    ensures DoneUpTo(spans, was, now, i, c + 1)
  {
    forall m | 0 <= m < |spans| && !UnderEarlier(spans, m, i, c + 1)
      ensures now[m] == was[m]
    {
      assert !Within(spans, m, c);
      assert !UnderEarlier(spans, m, i, c);
    }
    forall m | 0 <= m < |spans| && Within(spans, m, c)
      ensures mid[m] == was[m]
    {
      NotUnderEarlier(spans, m, i, c);
    }
    forall d: nat | d < c && ChildOf(spans, d, i)
      ensures SubtreeDone(spans, was, now, d)
    {
      SiblingKept(spans, was, mid, now, i, d, c);
    }
  }

  lemma NotUnderEarlier(spans: seq<Span>, m: nat, i: nat, c: nat)
    requires Tree(spans) && m < |spans| && ChildOf(spans, c, i) && Within(spans, m, c)
    ensures !UnderEarlier(spans, m, i, c)
  {
    forall d: nat | d < c && ChildOf(spans, d, i)
      ensures !Within(spans, m, d)
    {
      SiblingsApart(spans, i, c, d, m);
    }
  }

  lemma SiblingKept(spans: seq<Span>, was: seq<Times>, mid: seq<Times>, now: seq<Times>, i: nat, d: nat, c: nat)
    requires Tree(spans) && |spans| == |was| == |mid| == |now| && ChildOf(spans, c, i) && ChildOf(spans, d, i) && c != d
    requires SubtreeDone(spans, was, mid, d)
    requires forall m :: 0 <= m < |spans| && !Within(spans, m, c) ==> now[m] == mid[m]
    ensures SubtreeDone(spans, was, now, d)
  {
    forall m | 0 <= m < |spans| && Within(spans, m, d)
      ensures now[m] == mid[m]
    {
      SiblingsApart(spans, i, d, c, m);
    }
    forall m | 0 < m < |spans| && Within(spans, m, d) && m != d
      ensures Nested(spans, now, m)
    {
      assert Nested(spans, mid, m);
      assert Within(spans, spans[m].parent, d);
    }
  }

  lemma NoChildHere(spans: seq<Span>, was: seq<Times>, now: seq<Times>, i: nat, c: nat)
    requires Tree(spans) && |spans| == |was| == |now| && i < c < |spans| && spans[c].parent != i
    requires DoneUpTo(spans, was, now, i, c)
    ensures DoneUpTo(spans, was, now, i, c + 1)
  {
    forall m | 0 <= m < |spans| && !UnderEarlier(spans, m, i, c + 1)
      ensures now[m] == was[m]
    {
      assert !UnderEarlier(spans, m, i, c);
    }
  }

  /** When all its children are done, bounding the span itself completes its subtree. */
  lemma {:induction false} BoundSpan(spans: seq<Span>, was: seq<Times>, mid: seq<Times>, i: nat, fs: int, fe: int)
    requires Tree(spans) && i < |spans| == |was| == |mid|
    requires DoneUpTo(spans, was, mid, i, |spans|)
    ensures mid[i] == was[i]
    ensures
      var t := Bounds(mid[i], Earliest(spans, mid, i, i + 1), Latest(spans, mid, i, i + 1), fs, fe);
      ResolvedUnder(spans, was, mid[i := t], i)
  {
    UnderEarlierIsUnder(spans, i, i, |spans|);
    var t := Bounds(mid[i], Earliest(spans, mid, i, i + 1), Latest(spans, mid, i, i + 1), fs, fe);
    var now := mid[i := t];
    forall m | 0 <= m < |spans| && !Within(spans, m, i)
      ensures now[m] == was[m]
    {
      UnderEarlierIsUnder(spans, m, i, |spans|);
    }
    forall m | 0 <= m < |spans| && Within(spans, m, i)
      ensures Settled(now[m]) && KeepsOwn(spans, was, now, m) && (m != i ==> m > 0 && Nested(spans, now, m))
    {
      if m == i {
        LeafBounds(spans, mid, i, i + 1);
      } else {
        Descendant(spans, was, mid, i, fs, fe, m);
      }
    }
  }

  lemma UnderEarlierIsUnder(spans: seq<Span>, m: nat, i: nat, upTo: nat)
    requires Tree(spans) && m < |spans|
    ensures UnderEarlier(spans, m, i, upTo) ==> Within(spans, m, i) && m != i
  {
    if UnderEarlier(spans, m, i, upTo) {
      var c: nat :| c < upTo && ChildOf(spans, c, i) && Within(spans, m, c);
      UnderChildIsUnder(spans, m, c, i);
    }
  }

  lemma {:induction false} LeafBounds(spans: seq<Span>, times: seq<Times>, i: nat, from: nat)
    requires |times| == |spans| && i < from <= |spans|
    ensures Leaf(spans, i) ==> Earliest(spans, times, i, from).None? && Latest(spans, times, i, from).None?
    decreases |spans| - from
  {
    if from < |spans| {
      LeafBounds(spans, times, i, from + 1);
      assert spans[from].parent == i ==> ChildOf(spans, from, i);
    }
  }

  lemma Descendant(spans: seq<Span>, was: seq<Times>, mid: seq<Times>, i: nat, fs: int, fe: int, m: nat)
    requires Tree(spans) && i < |spans| == |was| == |mid| && m < |spans| && Within(spans, m, i) && m != i
    requires DoneUpTo(spans, was, mid, i, |spans|)
    ensures
      var t := Bounds(mid[i], Earliest(spans, mid, i, i + 1), Latest(spans, mid, i, i + 1), fs, fe);
      && Settled(mid[m])
      && KeepsOwn(spans, was, mid[i := t], m)
      && m > 0 && Nested(spans, mid[i := t], m)
  {
    UnderSomeChild(spans, m, i);
    var c :| ChildOf(spans, c, i) && Within(spans, m, c);
    assert SubtreeDone(spans, was, mid, c);
    if m == c {
      ChildrenBounded(spans, mid, i, i + 1, c);
    } else {
      assert Nested(spans, mid, m);
      assert Within(spans, spans[m].parent, c);
    }
  }

  // ----------------------------------------------------------------- the journal

  /** The last event before `k` that added a task to the graph. */
  function AddedBy(events: seq<Event>, k: nat, id: string): (r: Option<nat>)
    requires k <= |events|
    ensures r.Some? ==> r.value < k && events[r.value].what.Patched?
  {
    if k == 0 then None
    else if events[k - 1].what.Patched? && id in events[k - 1].what.add then Some(k - 1)
    else AddedBy(events, k - 1, id)
  }

  /** The last planning round before `k`. */
  function LastRound(events: seq<Event>, k: nat): (r: Option<nat>)
    requires k <= |events|
    ensures r.Some? ==> r.value < k && events[r.value].what.Patched?
  {
    if k == 0 then None
    else if events[k - 1].what.Patched? then Some(k - 1)
    else LastRound(events, k - 1)
  }

  /** The start of a task that has not ended since. */
  function OpenSince(events: seq<Event>, k: nat, id: string): (r: Option<nat>)
    requires k <= |events|
    ensures r.Some? ==> r.value < k && events[r.value].what == Started(id)
  {
    if k == 0 then None
    else if events[k - 1].what == Started(id) then Some(k - 1)
    else if events[k - 1].what.Ended? && events[k - 1].what.node == id then None
    else OpenSince(events, k - 1, id)
  }

  /** The round a task belongs to: the one that added it, or else the latest. */
  function Home(events: seq<Event>, k: nat, id: string): Option<nat>
    requires k <= |events|
  {
    if AddedBy(events, k, id).Some? then AddedBy(events, k, id) else LastRound(events, k)
  }

  /** The metered calls an event carries; an end that names no task is passed over. */
  function CallsIn(e: Event): seq<Call> {
    match e.what
    case Patched(_, calls) => calls
    case Ended(node, _, calls) => if node == "" then [] else calls
    case _ => []
  }

  function Metered(events: seq<Event>, k: nat): seq<Call>
    requires k <= |events|
  {
    if k == 0 then [] else Metered(events, k - 1) + CallsIn(events[k - 1])
  }

  /** The calls metered after each of the first `k` events, event by event. */
  ghost predicate Reads(events: seq<Event>, calls: seq<seq<Call>>, k: nat) {
    && |calls| == k + 1 && k <= |events| && calls[0] == []
    && forall i :: 0 <= i < k ==> calls[i + 1] == calls[i] + CallsIn(events[i])
  }

  lemma ReadsMore(events: seq<Event>, calls: seq<seq<Call>>, k: nat)
    requires Reads(events, calls, k) && k < |events|
    ensures Reads(events, calls + [calls[k] + CallsIn(events[k])], k + 1)
  {
  }

  lemma {:induction false} ReadIsMetered(events: seq<Event>, calls: seq<seq<Call>>, n: nat, k: nat)
    requires Reads(events, calls, n) && k <= n
    ensures calls[k] == Metered(events, k)
    decreases k
  {
    if k > 0 {
      ReadIsMetered(events, calls, n, k - 1);
    }
  }

  function Cost(calls: seq<Call>): real {
    if calls == [] then 0.0 else Cost(calls[..|calls| - 1]) + calls[|calls| - 1].cost
  }

  /** The calls of the provider-call spans, in the order the spans were made. */
  function Billed(spans: seq<Span>): seq<Call> {
    if spans == [] then []
    else
      var last := spans[|spans| - 1];
      Billed(spans[..|spans| - 1]) + if last.call.Some? then [last.call.value] else []
  }

  /** Where the agent loops are. */
  function Rounds(spans: seq<Span>): seq<nat> {
    if spans == [] then []
    else Rounds(spans[..|spans| - 1]) + if spans[|spans| - 1].kind == AgentLoop then [|spans| - 1] else []
  }

  // -------------------------------------------------------------------- placement

  /** Every span hangs where the journal says: rounds below the run, plans and tasks in their round, calls in theirs. */
  ghost predicate Placed(events: seq<Event>, spans: seq<Span>, j: nat)
    requires j < |spans| && Tree(spans)
  {
    var s := spans[j];
    && (s.call.Some? <==> s.kind == ProviderCall)
    && (s.kind == Run <==> j == 0)
    && (j > 0 ==> s.origin < |events| && spans[s.parent].origin <= s.origin && Fits(events, s, spans[s.parent]))
  }

  ghost predicate Fits(events: seq<Event>, s: Span, p: Span)
    requires s.origin < |events| && p.origin <= s.origin
  {
    match s.kind
    case Run => false
    case AgentLoop => p.kind == Run
    case Plan => p.kind == AgentLoop && p.origin == s.origin && events[s.origin].what.Patched?
    case Node => p.kind == AgentLoop && AtHome(events, s, p)
    case ProviderCall => s.call.Some? && s.call.value in CallsIn(events[s.origin]) && BilledTo(events, s, p)
  }

  predicate Names(e: Event, id: string) {
    match e.what
    case Started(node) => node == id
    case Ended(node, _, _) => node == id
    case _ => false
  }

  /** A task's span is in the round that added it; with no round to be in, it is in one made for want of any. */
  ghost predicate AtHome(events: seq<Event>, s: Span, p: Span)
    requires s.origin < |events| && p.origin <= s.origin
  {
    && Names(events[s.origin], s.name)
    && match Home(events, s.origin, s.name)
       case Some(round) => p.origin == round
       case None => !events[p.origin].what.Patched?
  }

  /** A planner's call is under its plan, a task's call under the span its start opened, or its end made. */
  ghost predicate BilledTo(events: seq<Event>, s: Span, p: Span)
    requires s.origin < |events| && p.origin <= s.origin
  {
    match events[s.origin].what
    case Patched(_, _) => p.kind == Plan && p.origin == s.origin
    case Ended(node, _, _) =>
      && p.kind == Node && p.name == node
      && (match OpenSince(events, s.origin, node)
          case Some(start) => p.origin == start
          case None => p.origin == s.origin)
    case _ => false
  }

  /** The journal's own clock: real time is known only where the meter took it. */
  function Truncated(x: real): int {
    if x >= 0.0 then x.Floor else -(-x).Floor
  }

  const NANOS := 1000000000.0
  const NANOS_PER_MILLI := 1000000.0

  function FirstSequence(events: seq<Event>): int {
    if events == [] then 0 else events[0].sequence
  }

  function Clock(events: seq<Event>, base: real, tick: real, sequence: int): int {
    Truncated((base + (sequence - FirstSequence(events)) as real * tick) * NANOS)
  }

  /** When a call began, and when it ended; a task's call never ends before it begins. */
  function CallTimes(call: Call, clock: int, planner: bool): Times {
    var start := if call.started > 0.0 then Truncated(call.started * NANOS) else clock;
    var latency := if planner || call.latencyMs > 0.0 then call.latencyMs else 0.0;
    Times(Some(start), Some(start + Truncated(latency * NANOS_PER_MILLI)))
  }

  // ------------------------------------------------------------- what is kept track of

  /** Every span so far is in place. */
  ghost predicate Sound(events: seq<Event>, spans: seq<Span>, k: nat) {
    && Tree(spans)
    && spans[0].kind == Run
    && (forall j :: 0 <= j < |spans| ==> spans[j].origin <= k)
    && (forall j :: 0 <= j < |spans| ==> Placed(events, spans, j))
  }

  /** The rounds so far; the last stands for the latest patch, or for want of one. */
  ghost predicate TracksRounds(events: seq<Event>, spans: seq<Span>, loops: seq<nat>, k: nat)
    requires k <= |events|
  {
    && (forall i :: 0 <= i < |loops| ==> loops[i] < |spans| && spans[loops[i]].kind == AgentLoop)
    && match LastRound(events, k)
       case Some(round) => loops != [] && spans[loops[|loops| - 1]].origin == round
       case None => loops != [] ==> spans[loops[|loops| - 1]].origin < |events|
                                    && !events[spans[loops[|loops| - 1]].origin].what.Patched?
  }

  /** The round of each task that a patch added. */
  ghost predicate TracksHomes(events: seq<Event>, spans: seq<Span>, homes: map<string, nat>, k: nat)
    requires k <= |events|
  {
    forall id ::
      && (id in homes <==> AddedBy(events, k, id).Some?)
      && (id in homes ==> homes[id] < |spans| && spans[homes[id]].kind == AgentLoop
                          && Some(spans[homes[id]].origin) == AddedBy(events, k, id))
  }

  /** The span of each task that has started and not ended. */
  ghost predicate TracksOpen(events: seq<Event>, spans: seq<Span>, open: map<string, nat>, k: nat)
    requires k <= |events|
  {
    forall id ::
      && (id in open <==> id != "" && OpenSince(events, k, id).Some?)
      && (id in open ==> open[id] < |spans| && spans[open[id]].kind == Node && spans[open[id]].name == id
                         && Some(spans[open[id]].origin) == OpenSince(events, k, id))
  }

  /**
    A call is timed by the meter, or by the clock of its event when the meter did not see
    it start; any other span begins with its event, and a plan ends with it too.
  */
  ghost predicate AllTimed(events: seq<Event>, base: real, tick: real, spans: seq<Span>, times: seq<Times>)
    requires |times| == |spans|
  {
    forall j :: 0 <= j < |spans| ==> Timed(events, base, tick, spans[j], times[j])
  }

  ghost predicate Timed(events: seq<Event>, base: real, tick: real, s: Span, t: Times) {
    if s.kind == Run then t == Times(Some(Clock(events, base, tick, FirstSequence(events))), None)
    else
      && s.origin < |events|
      && var clock := Clock(events, base, tick, events[s.origin].sequence);
         match s.kind
         case ProviderCall => s.call.Some? && t == CallTimes(s.call.value, clock, events[s.origin].what.Patched?)
         case AgentLoop => t == Times(Some(clock), None)
         case Plan => t == Times(Some(clock), Some(clock))
         case _ => t.start == Some(clock)
  }

  lemma SoundGrows(events: seq<Event>, spans: seq<Span>, k: nat, s: Span)
    requires Sound(events, spans, k) && s.origin == k < |events| && s.parent < |spans|
    requires s.kind != Run && (s.call.Some? <==> s.kind == ProviderCall) && Fits(events, s, spans[s.parent])
    ensures Sound(events, spans + [s], k)
  {
    var more := spans + [s];
    forall j | 0 <= j < |more|
      ensures Placed(events, more, j)
    {
      if j < |spans| {
        assert Placed(events, spans, j);
      }
    }
  }

  lemma TablesGrow(spans: seq<Span>, s: Span)
    ensures Billed(spans + [s]) == Billed(spans) + if s.call.Some? then [s.call.value] else []
    ensures Rounds(spans + [s]) == Rounds(spans) + if s.kind == AgentLoop then [|spans|] else []
  {
    assert (spans + [s])[..|spans|] == spans;
  }

  lemma TracksGrow(events: seq<Event>, spans: seq<Span>, more: seq<Span>, homes: map<string, nat>,
                   open: map<string, nat>, k: nat)
    requires k <= |events| && spans <= more
    requires TracksHomes(events, spans, homes, k) && TracksOpen(events, spans, open, k)
    ensures TracksHomes(events, more, homes, k) && TracksOpen(events, more, open, k)
  {
  }

  lemma RoundsStay(events: seq<Event>, spans: seq<Span>, more: seq<Span>, loops: seq<nat>, k: nat)
    requires k < |events| && spans <= more
    requires TracksRounds(events, spans, loops, k) && !events[k].what.Patched?
    ensures TracksRounds(events, more, loops, k + 1)
  {
  }

  lemma RoundOpened(events: seq<Event>, was: seq<Span>, spans: seq<Span>, homes: map<string, nat>,
                    moved: map<string, nat>, open: map<string, nat>, k: nat)
    requires k < |events| && events[k].what.Patched? && was <= spans && |was| < |spans|
    requires TracksHomes(events, was, homes, k) && TracksOpen(events, was, open, k)
    requires spans[|was|].kind == AgentLoop && spans[|was|].origin == k
    requires forall id :: id in moved <==> id in homes || id in events[k].what.add
    requires forall id :: id in moved ==> moved[id] == if id in events[k].what.add then |was| else homes[id]
    ensures TracksHomes(events, spans, moved, k + 1) && TracksOpen(events, spans, open, k + 1)
  {
    TracksGrow(events, was, spans, homes, open, k);
  }

  lemma LoopOpened(events: seq<Event>, was: seq<Span>, spans: seq<Span>, loops: seq<nat>, k: nat)
    requires k < |events| && events[k].what.Patched? && was <= spans && |was| < |spans|
    requires TracksRounds(events, was, loops, k)
    requires spans[|was|].kind == AgentLoop && spans[|was|].origin == k
    ensures TracksRounds(events, spans, loops + [|was|], k + 1)
  {
  }

  /** The round a new span of a task goes to is its home. */
  lemma HomeFound(events: seq<Event>, spans: seq<Span>, loops: seq<nat>, homes: map<string, nat>, k: nat, id: string,
                  parent: nat)
    requires k < |events| && Names(events[k], id)
    requires TracksRounds(events, spans, loops, k) && TracksHomes(events, spans, homes, k)
    requires if id in homes then parent == homes[id] else loops != [] && parent == loops[|loops| - 1]
    requires parent < |spans| && spans[parent].origin <= k
    ensures spans[parent].kind == AgentLoop
    ensures Fits(events, Span(Node, id, parent, k, None), spans[parent])
  {
  }

  lemma TaskOpened(events: seq<Event>, was: seq<Span>, spans: seq<Span>, homes: map<string, nat>, open: map<string, nat>,
                   k: nat, id: string, span: nat)
    requires k < |events| && events[k].what == Started(id) && id != "" && was <= spans
    requires TracksHomes(events, was, homes, k) && TracksOpen(events, was, open, k)
    requires span < |spans| && spans[span].kind == Node && spans[span].name == id && spans[span].origin == k
    ensures TracksHomes(events, spans, homes, k + 1) && TracksOpen(events, spans, open[id := span], k + 1)
  {
    TracksGrow(events, was, spans, homes, open, k);
  }

  lemma TaskClosed(events: seq<Event>, was: seq<Span>, spans: seq<Span>, homes: map<string, nat>, open: map<string, nat>,
                   k: nat, id: string)
    requires k < |events| && events[k].what.Ended? && events[k].what.node == id && was <= spans
    requires TracksHomes(events, was, homes, k) && TracksOpen(events, was, open, k)
    ensures TracksHomes(events, spans, homes, k + 1) && TracksOpen(events, spans, open - {id}, k + 1)
  {
    TracksGrow(events, was, spans, homes, open, k);
  }

  /** An event that touches nothing leaves everything as it is. */
  lemma PassedOver(events: seq<Event>, spans: seq<Span>, loops: seq<nat>, homes: map<string, nat>,
                   open: map<string, nat>, k: nat)
    requires k < |events| && (events[k].what.Other? || Names(events[k], ""))
    requires TracksRounds(events, spans, loops, k)
    requires TracksHomes(events, spans, homes, k) && TracksOpen(events, spans, open, k)
    ensures TracksRounds(events, spans, loops, k + 1)
    ensures TracksHomes(events, spans, homes, k + 1) && TracksOpen(events, spans, open, k + 1)
  {
  }

  lemma RoundsKept(events: seq<Event>, spans: seq<Span>, more: seq<Span>, loops: seq<nat>, k: nat)
    requires k <= |events| && spans <= more
    requires TracksRounds(events, spans, loops, k)
    ensures TracksRounds(events, more, loops, k)
  {
  }

  lemma CostGrows(calls: seq<Call>, c: Call)
    ensures Cost(calls + [c]) == Cost(calls) + c.cost
  {
    assert (calls + [c])[..|calls|] == calls;
  }

  class TraceBuilder {
    const events: seq<Event>
    const base: real
    const tick: real
    var spans: seq<Span>
    var times: seq<Times>
    var loops: seq<nat>
    var nodeToLoop: map<string, nat>
    var openNodes: map<string, nat>
    var totalCost: real
    var providerCalls: nat

    function Now(k: nat): int
      requires k < |events|
    {
      Clock(events, base, tick, events[k].sequence)
    }

    ghost predicate OnTime()
      reads this
      requires |times| == |spans|
    {
      AllTimed(events, base, tick, spans, times)
    }

    /** What holds of the table between events, and within one. */
    ghost predicate Valid(k: nat)
      reads this
    {
      && k <= |events|
      && |times| == |spans|
      && OnTime()
      && Sound(events, spans, k)
      && loops == Rounds(spans)
      && TracksRounds(events, spans, loops, k)
      && TracksHomes(events, spans, nodeToLoop, k)
      && TracksOpen(events, spans, openNodes, k)
    }

    /** The provider-call spans are the given calls, and so are the totals. */
    ghost predicate Accounts(calls: seq<Call>)
      reads this
    {
      Billed(spans) == calls && totalCost == Cost(calls) && providerCalls == |calls|
    }

    constructor (journal: seq<Event>, start: real, step: real)
      ensures events == journal && base == start && tick == step
      ensures Valid(0) && Accounts([])
    {
      events, base, tick := journal, start, step;
      spans := [Span(Run, "run", 0, 0, None)];
      times := [Times(None, None)];
      loops, nodeToLoop, openNodes := [], map[], map[];
      totalCost, providerCalls := 0.0, 0;
      new;
      times := [Times(Some(Clock(events, base, tick, FirstSequence(events))), None)];
      assert spans[..0] == [];
    }

    /** Appends a span to its parent's children. */
    method Add(s: Span, t: Times)
      requires |times| == |spans|
      modifies `spans, `times
      ensures spans == old(spans) + [s] && times == old(times) + [t]
    {
      spans, times := spans + [s], times + [t];
    }

    /** One provider-call span for a metered call, under its plan or its task. */
    method AddCall(k: nat, parent: nat, c: Call, ghost before: seq<Call>)
      requires k < |events| && |times| == |spans| && Sound(events, spans, k) && OnTime() && Accounts(before)
      requires parent < |spans| && c in CallsIn(events[k])
      requires BilledTo(events, Span(ProviderCall, "chat", parent, k, Some(c)), spans[parent])
      modifies `spans, `times, `totalCost, `providerCalls
      ensures |times| == |spans| && Sound(events, spans, k) && OnTime() && Accounts(before + [c])
      ensures spans == old(spans) + [Span(ProviderCall, "chat", parent, k, Some(c))] && old(times) <= times
      ensures Rounds(spans) == Rounds(old(spans))
    {
      var s := Span(ProviderCall, "chat", parent, k, Some(c));
      SoundGrows(events, spans, k, s);
      TablesGrow(spans, s);
      CostGrows(before, c);
      Add(s, CallTimes(c, Now(k), events[k].what.Patched?));
      totalCost, providerCalls := totalCost + c.cost, providerCalls + 1;
    }

    method AddCalls(k: nat, parent: nat, calls: seq<Call>, ghost before: seq<Call>)
      requires k < |events| && |times| == |spans| && Sound(events, spans, k) && OnTime() && Accounts(before)
      requires parent < |spans|
      requires forall c :: c in calls ==> c in CallsIn(events[k])
      requires forall c :: BilledTo(events, Span(ProviderCall, "chat", parent, k, Some(c)), spans[parent])
      modifies `spans, `times, `totalCost, `providerCalls
      ensures |times| == |spans| && Sound(events, spans, k) && OnTime() && Accounts(before + calls)
      ensures old(spans) <= spans && old(times) <= times && Rounds(spans) == Rounds(old(spans))
    {
      var i := 0;
      assert before + calls[..0] == before;
      while i < |calls|
        invariant i <= |calls| && |times| == |spans|
        invariant Sound(events, spans, k) && OnTime() && Accounts(before + calls[..i])
        invariant old(spans) <= spans && old(times) <= times && Rounds(spans) == Rounds(old(spans))
      {
        assert spans[parent] == old(spans)[parent];
        assert before + calls[..i + 1] == before + calls[..i] + [calls[i]];
        AddCall(k, parent, calls[i], before + calls[..i]);
        i := i + 1;
      }
      assert calls[..|calls|] == calls;
    }

    /** A planning round, its plan, and the planner's own calls. */
    method OnPatched(k: nat, ghost before: seq<Call>)
      requires k < |events| && Valid(k) && Accounts(before) && events[k].what.Patched?
      modifies this
      ensures Valid(k + 1) && Accounts(before + CallsIn(events[k]))
    {
      var loop := OpenRound(k, before);
      loops := loops + [loop];
      LoopOpened(events, old(spans), spans, old(loops), k);
      AdoptTasks(k, loop, old(spans));
    }

    /** The tasks a patch adds belong to the round it opened. */
    method AdoptTasks(k: nat, loop: nat, ghost was: seq<Span>)
      requires k < |events| && events[k].what.Patched? && was <= spans && loop == |was| < |spans|
      requires TracksHomes(events, was, nodeToLoop, k) && TracksOpen(events, was, openNodes, k)
      requires spans[loop].kind == AgentLoop && spans[loop].origin == k
      modifies `nodeToLoop
      ensures TracksHomes(events, spans, nodeToLoop, k + 1) && TracksOpen(events, spans, openNodes, k + 1)
    {
      ghost var homes := nodeToLoop;
      nodeToLoop := Assign(nodeToLoop, events[k].what.add, loop);
      RoundOpened(events, was, spans, homes, nodeToLoop, openNodes, k);
    }

    method OpenRound(k: nat, ghost before: seq<Call>) returns (loop: nat)
      requires k < |events| && |times| == |spans| && Sound(events, spans, k) && OnTime() && Accounts(before)
      requires events[k].what.Patched?
      modifies `spans, `times, `totalCost, `providerCalls
      ensures |times| == |spans| && Sound(events, spans, k) && OnTime() && Accounts(before + CallsIn(events[k]))
      ensures loop == |old(spans)| && old(spans) <= spans && Rounds(spans) == Rounds(old(spans)) + [loop]
      ensures loop < |spans| && spans[loop].kind == AgentLoop && spans[loop].origin == k
    {
      var clock := Now(k);
      loop := |spans|;
      AddSpan(Span(AgentLoop, "agent loop", 0, k, None), Times(Some(clock), None), k, before);
      AddSpan(Span(Plan, "plan", loop, k, None), Times(Some(clock), Some(clock)), k, before);
      ghost var placed := spans;
      AddCalls(k, loop + 1, events[k].what.calls, before);
      assert spans[loop] == placed[loop];
    }

    /** The latest round; a run that has none yet is given one. */
    method CurrentLoop(k: nat, ghost before: seq<Call>) returns (loop: nat)
      requires k < |events| && Valid(k) && Accounts(before) && !events[k].what.Patched?
      modifies `spans, `times, `loops
      ensures Valid(k) && Accounts(before) && old(spans) <= spans
      ensures loops != [] && loop == loops[|loops| - 1]
    {
      if loops == [] {
        AddSpan(Span(AgentLoop, "agent loop", 0, k, None), Times(Some(Now(k)), None), k, before);
        loops := [|spans| - 1];
        TracksGrow(events, old(spans), spans, nodeToLoop, openNodes, k);
      }
      loop := loops[|loops| - 1];
    }

    /** A new span of a task, in its round. */
    method AddNode(k: nat, id: string, ghost before: seq<Call>) returns (span: nat)
      requires k < |events| && Valid(k) && Accounts(before) && Names(events[k], id)
      modifies `spans, `times, `loops
      ensures Valid(k) && Accounts(before) && old(spans) <= spans
      ensures span == |spans| - 1
      ensures spans[span].kind == Node && spans[span].name == id && spans[span].origin == k
    {
      var parent;
      if id in nodeToLoop {
        parent := nodeToLoop[id];
      } else {
        parent := CurrentLoop(k, before);
      }
      HomeFound(events, spans, loops, nodeToLoop, k, id, parent);
      ghost var was := spans;
      span := |spans|;
      AddSpan(Span(Node, id, parent, k, None), Times(Some(Now(k)), None), k, before);
      TracksGrow(events, was, spans, nodeToLoop, openNodes, k);
      RoundsKept(events, was, spans, loops, k);
    }

    method OnStarted(k: nat, ghost before: seq<Call>)
      requires k < |events| && Valid(k) && Accounts(before) && events[k].what.Started? && events[k].what.node != ""
      modifies this
      ensures Valid(k + 1) && Accounts(before)
    {
      var id := events[k].what.node;
      var span := AddNode(k, id, before);
      TaskOpened(events, spans, spans, nodeToLoop, openNodes, k, id, span);
      RoundsStay(events, spans, spans, loops, k);
      openNodes := openNodes[id := span];
    }

    method SpanOfEnd(k: nat, id: string, ghost before: seq<Call>) returns (span: nat)
      requires k < |events| && Valid(k) && Accounts(before)
      requires events[k].what.Ended? && events[k].what.node == id && id != ""
      modifies `spans, `times, `loops
      ensures Valid(k) && Accounts(before) && old(spans) <= spans
      ensures span < |spans| && times[span].end == Some(Now(k))
      ensures forall c :: BilledTo(events, Span(ProviderCall, "chat", span, k, Some(c)), spans[span])
    {
      if id in openNodes {
        span := openNodes[id];
      } else {
        span := AddNode(k, id, before);
      }
      assert Placed(events, spans, span);
      Close(span, Now(k));
    }

    /** The span of the task that ended is closed; its calls go below it. */
    method EndSpan(k: nat, id: string, ghost before: seq<Call>)
      requires k < |events| && Valid(k) && Accounts(before)
      requires events[k].what.Ended? && events[k].what.node == id && id != ""
      modifies `spans, `times, `loops, `totalCost, `providerCalls
      ensures Valid(k) && Accounts(before + events[k].what.calls)
    {
      var span := SpanOfEnd(k, id, before);
      ghost var was := spans;
      AddCalls(k, span, events[k].what.calls, before);
      TracksGrow(events, was, spans, nodeToLoop, openNodes, k);
      RoundsKept(events, was, spans, loops, k);
    }

    /** The end of a task closes its span, or makes one for a task that never ran; then it is no longer open. */
    method OnEnded(k: nat, ghost before: seq<Call>)
      requires k < |events| && Valid(k) && Accounts(before) && events[k].what.Ended? && events[k].what.node != ""
      modifies this
      ensures Valid(k + 1) && Accounts(before + events[k].what.calls)
    {
      var id := events[k].what.node;
      EndSpan(k, id, before);
      TaskClosed(events, spans, spans, nodeToLoop, openNodes, k, id);
      RoundsStay(events, spans, spans, loops, k);
      openNodes := openNodes - {id};
    }

    /** One event of the journal. */
    method Step(k: nat, ghost before: seq<Call>)
      requires k < |events| && Valid(k) && Accounts(before)
      modifies this
      ensures Valid(k + 1) && Accounts(before + CallsIn(events[k]))
    {
      assert before + [] == before;
      match events[k].what {
        case Patched(_, _) =>
          OnPatched(k, before);
        case Started(node) =>
          if node != "" {
            OnStarted(k, before);
          } else {
            PassedOver(events, spans, loops, nodeToLoop, openNodes, k);
          }
        case Ended(node, _, _) =>
          if node != "" {
            OnEnded(k, before);
          } else {
            PassedOver(events, spans, loops, nodeToLoop, openNodes, k);
          }
        case Other =>
          PassedOver(events, spans, loops, nodeToLoop, openNodes, k);
      }
    }

    method ReadJournal()
      requires Valid(0) && Accounts([])
      modifies this
      ensures Valid(|events|) && Accounts(Metered(events, |events|))
    {
      ghost var calls := ReadEvents();
      ReadIsMetered(events, calls, |events|, |events|);
    }

    /** Event by event; `calls` is what has been billed after each. */
    method ReadEvents() returns (ghost calls: seq<seq<Call>>)
      requires Valid(0) && Accounts([])
      modifies this
      ensures Valid(|events|) && Reads(events, calls, |events|) && Accounts(calls[|events|])
    {
      calls := [[]];
      ghost var billed := [];
      for k := 0 to |events|
        invariant Valid(k) && Accounts(billed)
        invariant Reads(events, calls, k) && calls[k] == billed
      {
        Step(k, billed);
        ReadsMore(events, calls, k);
        billed := billed + CallsIn(events[k]);
        calls := calls + [billed];
      }
    }

    method Close(span: nat, end: int)
      requires span < |spans| == |times| && OnTime() && spans[span].kind == Node
      modifies `times
      ensures |times| == |spans| && OnTime() && times == old(times)[span := Times(old(times)[span].start, Some(end))]
    {
      times := times[span := times[span].(end := Some(end))];
    }

    /** Bottom-up bounds, in place: a parent covers its children, a leaf keeps its own. */
    method ResolveTimes(i: nat, fs: int, fe: int)
      requires Tree(spans) && i < |spans| == |times|
      modifies `times
      ensures |times| == |spans| && ResolvedUnder(spans, old(times), times, i)
      ensures times[i] == Bounds(old(times)[i], Earliest(spans, times, i, i + 1), Latest(spans, times, i, i + 1), fs, fe)
      decreases |spans| - i
    {
      var c := i + 1;
      while c < |spans|
        invariant i < c <= |spans| == |times|
        invariant times[i] == old(times)[i] && DoneUpTo(spans, old(times), times, i, c)
      {
        if spans[c].parent == i {
          ghost var mid := times;
          ResolveTimes(c, Or(times[i].start, fs), Or(times[i].end, fe));
          OneMoreChild(spans, old(times), mid, times, i, c);
          assert !Within(spans, i, c);
        } else {
          NoChildHere(spans, old(times), times, i, c);
        }
        c := c + 1;
      }
      var t := Bounds(times[i], Earliest(spans, times, i, i + 1), Latest(spans, times, i, i + 1), fs, fe);
      BoundSpan(spans, old(times), times, i, fs, fe);
      SameChildTimes(spans, times, times[i := t], i, i + 1);
      times := times[i := t];
    }

    method AddSpan(s: Span, t: Times, k: nat, ghost before: seq<Call>)
      requires k < |events| && |times| == |spans| && Sound(events, spans, k) && OnTime() && Accounts(before)
      requires s.origin == k && s.parent < |spans| && s.call.None?
      requires s.kind != Run && s.kind != ProviderCall && Fits(events, s, spans[s.parent])
      requires Timed(events, base, tick, s, t)
      modifies `spans, `times
      ensures |times| == |spans| && Sound(events, spans, k) && OnTime() && Accounts(before)
      ensures spans == old(spans) + [s] && times == old(times) + [t]
      ensures Rounds(spans) == Rounds(old(spans)) + if s.kind == AgentLoop then [|old(spans)|] else []
    {
      SoundGrows(events, spans, k, s);
      TablesGrow(spans, s);
      Add(s, t);
    }
  }

  /** Every task a patch adds belongs to its round. */
  method Assign(homes: map<string, nat>, added: seq<string>, loop: nat) returns (r: map<string, nat>)
    ensures forall id :: id in r <==> id in homes || id in added
    ensures forall id :: id in r ==> r[id] == if id in added then loop else homes[id]
  {
    r := homes;
    for i := 0 to |added|
      invariant forall id :: id in r <==> id in homes || id in added[..i]
      invariant forall id :: id in r ==> r[id] == if id in added[..i] then loop else homes[id]
    {
      r := r[added[i] := loop];
      assert added[..i + 1] == added[..i] + [added[i]];
    }
    assert added[..|added|] == added;
  }

  /** The earliest moment at which the meter saw a call start. */
  function FirstReal(events: seq<Event>, k: nat): Option<real>
    requires k <= |events|
  {
    if k == 0 then None
    else
      var seen := match events[k - 1].what {
          case Patched(_, calls) => EarliestStart(calls)
          case Ended(_, _, calls) => EarliestStart(calls)
          case _ => None
        };
      Earlier(FirstReal(events, k - 1), seen)
  }

  function EarliestStart(calls: seq<Call>): Option<real> {
    if calls == [] then None
    else
      var last := calls[|calls| - 1].started;
      Earlier(EarliestStart(calls[..|calls| - 1]), if last > 0.0 then Some(last) else None)
  }

  function Earlier(a: Option<real>, b: Option<real>): Option<real> {
    if a.None? then b else if b.None? || a.value <= b.value then a else b
  }

  /** Each provider-call span carries its call's own times, mended when they run backwards. */
  ghost predicate ShowsCallTimes(events: seq<Event>, base: real, tick: real, s: Span, t: Times) {
    s.call.Some? ==>
      && s.origin < |events|
      && t == Bounds(CallTimes(s.call.value, Clock(events, base, tick, events[s.origin].sequence),
                               events[s.origin].what.Patched?), None, None, 0, 0)
  }

  /** Nothing hangs below a call. */
  lemma CallsAreLeaves(events: seq<Event>, spans: seq<Span>, k: nat, m: nat)
    requires Sound(events, spans, k) && m < |spans| && spans[m].call.Some?
    ensures Leaf(spans, m)
  {
    assert Placed(events, spans, m);
    forall c: nat | c < |spans|
      ensures !ChildOf(spans, c, m)
    {
      assert Placed(events, spans, c);
    }
  }

  /** After resolving from the root: nested everywhere, and true to the meter. */
  lemma RootResolved(events: seq<Event>, base: real, tick: real, spans: seq<Span>, was: seq<Times>, now: seq<Times>, k: nat)
    requires Sound(events, spans, k) && |spans| == |was| == |now|
    requires AllTimed(events, base, tick, spans, was) && ResolvedUnder(spans, was, now, 0)
    ensures Settled(now[0])
    ensures forall m :: 0 < m < |spans| ==> Nested(spans, now, m)
    ensures forall m :: 0 <= m < |spans| ==> ShowsCallTimes(events, base, tick, spans[m], now[m])
  {
    RootHoldsAll(spans, 0);
    forall m | 0 < m < |spans|
      ensures Nested(spans, now, m)
    {
      RootHoldsAll(spans, m);
    }
    forall m | 0 <= m < |spans|
      ensures ShowsCallTimes(events, base, tick, spans[m], now[m])
    {
      RootHoldsAll(spans, m);
      assert Timed(events, base, tick, spans[m], was[m]) && Placed(events, spans, m);
      assert KeepsOwn(spans, was, now, m);
      if spans[m].call.Some? {
        CallsAreLeaves(events, spans, k, m);
      }
    }
  }

  /**
    The journal as a span tree: every metered call is billed to exactly one provider-call
    span, in journal order and in its place; the root's cost is their sum; and every
    interval lies in its parent's.
  */
  method BuildSpanTree(events: seq<Event>, now: real, tick: real) returns (t: TraceBuilder)
    ensures Sound(events, t.spans, |events|) && |t.times| == |t.spans|
    ensures Billed(t.spans) == Metered(events, |events|)
    ensures t.totalCost == Cost(Billed(t.spans)) && t.providerCalls == |Billed(t.spans)|
    ensures t.loops == Rounds(t.spans)
    ensures Settled(t.times[0]) && forall m :: 0 < m < |t.spans| ==> Nested(t.spans, t.times, m)
    ensures t.tick == tick && t.base == if FirstReal(events, |events|).Some? then FirstReal(events, |events|).value else now
    ensures forall m :: 0 <= m < |t.spans| ==> ShowsCallTimes(events, t.base, tick, t.spans[m], t.times[m])
  {
    var first := FirstReal(events, |events|);
    t := new TraceBuilder(events, if first.Some? then first.value else now, tick);
    t.ReadJournal();
    ghost var was := t.times;
    var from := Clock(events, t.base, tick, FirstSequence(events));
    var until := if events == [] then from else Clock(events, t.base, tick, events[|events| - 1].sequence);
    t.ResolveTimes(0, from, until);
    RootResolved(events, t.base, tick, t.spans, was, t.times, |events|);
  }
}
