/**
  The event history: deduplication that outlives compaction, and the window ledger in
  which a run claims its slot.  One writer; each method is one atomic replacement of
  the stored state.
*/
module EventStore {
  import opened Wrappers

  datatype Envelope = Envelope(source: string, id: string, kind: string, actor: string, body: string)

  datatype Decision = Decision(subscription: string, relevant: bool, text: string)

  datatype Record = Record(sequence: int, event: Envelope, decisions: seq<Decision>)

  function Key(source: string, id: string): string {
    source + "|" + id
  }

  function KeyOf(e: Envelope): string {
    Key(e.source, e.id)
  }

  /** The part of the stored state that deduplication uses; a version-1 history has no index. */
  datatype History = History(events: seq<Record>, next: int, index: Option<map<string, int>>, compactedBefore: int)

  const EMPTY := History([], 1, Some(map[]), 0)

  function Known(h: History, key: string): bool {
    h.index.Some? && key in h.index.value
  }

  /** Drops the oldest bodies over the limit, and no identity. */
  function Compacted(h: History, limit: int): History {
    var overflow := |h.events| - limit;
    if overflow <= 0 || h.events == [] then h
    else
      var cut := if overflow <= |h.events| then overflow else |h.events|;
      h.(events := h.events[cut..], compactedBefore := h.events[cut - 1].sequence + 1)
  }

  function Ingested(h: History, e: Envelope, limit: int): History {
    if h.index.None? || Known(h, KeyOf(e)) then h
    else
      Compacted(History(h.events + [Record(h.next, e, [])], h.next + 1,
                        Some(h.index.value[KeyOf(e) := h.next]), h.compactedBefore), limit)
  }

  /** Rebuilds the index of an old history from its bodies; a newer one is left alone. */
  function Rebuilt(events: seq<Record>): map<string, int> {
    if events == [] then map[]
    else Rebuilt(events[..|events| - 1])[KeyOf(events[|events| - 1].event) := events[|events| - 1].sequence]
  }

  function Migrated(h: History): History {
    if h.index.None? then h.(index := Some(Rebuilt(h.events))) else h
  }

  // ------------------------------------------------------------- what it remembers

  function Kept(limit: int, n: nat): nat {
    if limit < 0 then 0 else if n < limit then n else limit
  }

  ghost predicate NewKeys(accepted: seq<Envelope>) {
    forall i, j :: 0 <= i < j < |accepted| ==> KeyOf(accepted[i]) != KeyOf(accepted[j])
  }

  /**
    The history of the events accepted so far: the bodies of the last ones, numbered
    consecutively; the boundary below which bodies are gone; and every identity ever
    accepted, with its number.  How many bodies are kept is said beside it, since the
    limit may be another at each restart.
  */
  ghost predicate Remembers(h: History, accepted: seq<Envelope>) {
    && NewKeys(accepted)
    && h.next == |accepted| + 1
    && LastBodies(h.events, accepted)
    && h.compactedBefore == (if |h.events| == |accepted| then 0 else |accepted| - |h.events| + 1)
    && h.index.Some? && Indexes(h.index.value, accepted)
  }

  /** The bodies are the last of the accepted events, in order, numbered from one. */
  ghost predicate LastBodies(events: seq<Record>, accepted: seq<Envelope>) {
    && |events| <= |accepted|
    && forall i :: 0 <= i < |events| ==>
         && events[i].sequence == |accepted| - |events| + i + 1
         && events[i].event == accepted[|accepted| - |events| + i]
  }

  ghost predicate Indexes(index: map<string, int>, accepted: seq<Envelope>) {
    && (forall i :: 0 <= i < |accepted| ==> KeyOf(accepted[i]) in index && index[KeyOf(accepted[i])] == i + 1)
    && (forall key :: key in index ==> HasKey(accepted, key))
  }

  ghost predicate HasKey(accepted: seq<Envelope>, key: string) {
    exists i :: 0 <= i < |accepted| && KeyOf(accepted[i]) == key
  }

  lemma IndexesMore(index: map<string, int>, accepted: seq<Envelope>, e: Envelope)
    requires Indexes(index, accepted) && NewKeys(accepted) && KeyOf(e) !in index
    ensures Indexes(index[KeyOf(e) := |accepted| + 1], accepted + [e]) && NewKeys(accepted + [e])
  {
    var all, index' := accepted + [e], index[KeyOf(e) := |accepted| + 1];
    forall key | key in index'
      ensures HasKey(all, key)
    {
      if key == KeyOf(e) {
        assert KeyOf(all[|accepted|]) == key;
      } else {
        assert HasKey(accepted, key);
        var i :| 0 <= i < |accepted| && KeyOf(accepted[i]) == key;
        assert KeyOf(all[i]) == key;
      }
    }
    forall i | 0 <= i < |accepted|
      ensures KeyOf(all[i]) in index
    {
      assert all[i] == accepted[i];
    }
  }

  lemma EmptyRemembers()
    ensures Remembers(EMPTY, [])
  {
  }

  ghost function Accepted(h: History, accepted: seq<Envelope>, e: Envelope): seq<Envelope> {
    if Known(h, KeyOf(e)) then accepted else accepted + [e]
  }

  lemma IngestedRemembers(h: History, accepted: seq<Envelope>, e: Envelope, limit: int)
    requires Remembers(h, accepted)
    ensures Remembers(Ingested(h, e, limit), Accepted(h, accepted, e))
    ensures |Ingested(h, e, limit).events| == if Known(h, KeyOf(e)) then |h.events| else Kept(limit, |h.events| + 1)
  {
    if !Known(h, KeyOf(e)) {
      var all := accepted + [e];
      var grown := History(h.events + [Record(h.next, e, [])], h.next + 1,
                           Some(h.index.value[KeyOf(e) := h.next]), h.compactedBefore);
      IndexesMore(h.index.value, accepted, e);
      GrownInStep(h.events, accepted, e);
      CompactedKeeps(grown, all, limit);
      assert Ingested(h, e, limit) == Compacted(grown, limit);
    }
  }

  lemma GrownInStep(events: seq<Record>, accepted: seq<Envelope>, e: Envelope)
    requires LastBodies(events, accepted)
    ensures LastBodies(events + [Record(|accepted| + 1, e, [])], accepted + [e])
  {
  }

  /**
    Compaction, by however much the limit has shrunk, keeps the newest bodies within the
    limit with their numbers, sets the boundary just below them, and forgets no identity.
  */
  lemma CompactedKeeps(grown: History, all: seq<Envelope>, limit: int)
    requires grown.events != [] && LastBodies(grown.events, all)
    requires grown.compactedBefore == (if |grown.events| == |all| then 0 else |all| - |grown.events| + 1)
    ensures
      var h := Compacted(grown, limit);
      && h.index == grown.index && h.next == grown.next
      && |h.events| == Kept(limit, |grown.events|)
      && LastBodies(h.events, all)
      && h.compactedBefore == (if |h.events| == |all| then 0 else |all| - |h.events| + 1)
  {
  }

  // ------------------------------------------------------- whole delivery histories

  /** A delivery, and the limit of the process that receives it: a restart may change it. */
  datatype Delivery = Delivery(event: Envelope, limit: int)

  /** The store after a list of deliveries, whatever restarts fall between them. */
  ghost function After(ds: seq<Delivery>): History {
    if ds == [] then EMPTY
    else Migrated(Ingested(After(ds[..|ds| - 1]), ds[|ds| - 1].event, ds[|ds| - 1].limit))
  }

  ghost function AcceptedOf(ds: seq<Delivery>): seq<Envelope> {
    if ds == [] then []
    else Accepted(After(ds[..|ds| - 1]), AcceptedOf(ds[..|ds| - 1]), ds[|ds| - 1].event)
  }

  /** Whether the i-th delivery is new to the store. */
  ghost predicate FreshAt(ds: seq<Delivery>, i: nat)
    requires i < |ds|
  {
    !Known(After(ds[..i]), KeyOf(ds[i].event))
  }

  lemma {:induction false} AlwaysRemembers(ds: seq<Delivery>)
    ensures Remembers(After(ds), AcceptedOf(ds))
    decreases |ds|
  {
    if ds == [] {
      EmptyRemembers();
    } else {
      var front, last := ds[..|ds| - 1], ds[|ds| - 1];
      AlwaysRemembers(front);
      IngestedRemembers(After(front), AcceptedOf(front), last.event, last.limit);
    }
  }

  /** A delivery that is new leaves as many bodies as its own limit allows; any other leaves what there was. */
  lemma LimitBinds(front: seq<Delivery>, d: Delivery)
    ensures
      var n := |After(front).events|;
      |After(front + [d]).events| == if Known(After(front), KeyOf(d.event)) then n else Kept(d.limit, n + 1)
  {
    assert (front + [d])[..|front|] == front;
    AlwaysRemembers(front);
    IngestedRemembers(After(front), AcceptedOf(front), d.event, d.limit);
  }

  /** Under one limit for good, the bodies kept are the last min(n, limit) of the n accepted. */
  lemma {:induction false} OneLimitKeeps(ds: seq<Delivery>, limit: int)
    requires forall d :: d in ds ==> d.limit == limit
    ensures |After(ds).events| == Kept(limit, |AcceptedOf(ds)|)
    decreases |ds|
  {
    if ds != [] {
      var front, d := ds[..|ds| - 1], ds[|ds| - 1];
      assert forall x :: x in front ==> x in ds;
      OneLimitKeeps(front, limit);
      LimitBinds(front, d);
      assert ds == front + [d];
    }
  }

  lemma {:induction false} AlwaysKnows(ds: seq<Delivery>)
    ensures After(ds).index.Some?
    ensures forall d :: d in ds ==> Known(After(ds), KeyOf(d.event))
    ensures forall e :: e in AcceptedOf(ds) ==> exists j :: 0 <= j < |ds| && ds[j].event == e
    decreases |ds|
  {
    if ds != [] {
      var front, last := ds[..|ds| - 1], ds[|ds| - 1];
      AlwaysKnows(front);
      IngestedKnows(After(front), last.event, last.limit);
      assert ds == front + [last];
      forall e | e in AcceptedOf(ds)
        ensures exists j :: 0 <= j < |ds| && ds[j].event == e
      {
        if e in AcceptedOf(front) {
          var j :| 0 <= j < |front| && front[j].event == e;
          assert ds[j].event == e;
        } else {
          assert ds[|ds| - 1].event == e;
        }
      }
    }
  }

  lemma IngestedKnows(h: History, e: Envelope, limit: int)
    requires h.index.Some?
    ensures Known(Ingested(h, e, limit), KeyOf(e))
    ensures forall key :: Known(h, key) ==> Known(Ingested(h, e, limit), key)
  {
  }

  /**
    A delivery is fresh exactly when no earlier one had its key, however much has been
    compacted since, however often the process has restarted and under whatever limits.
  */
  lemma FreshIffFirst(ds: seq<Delivery>, i: nat)
    requires i < |ds|
    ensures FreshAt(ds, i) <==> forall j :: 0 <= j < i ==> KeyOf(ds[j].event) != KeyOf(ds[i].event)
  {
    var front := ds[..i];
    AlwaysRemembers(front);
    AlwaysKnows(front);
    var accepted := AcceptedOf(front);
    if Known(After(front), KeyOf(ds[i].event)) {
      assert HasKey(accepted, KeyOf(ds[i].event));
      var k :| 0 <= k < |accepted| && KeyOf(accepted[k]) == KeyOf(ds[i].event);
      assert accepted[k] in accepted;
      var j :| 0 <= j < |front| && front[j].event == accepted[k];
      assert ds[j] == front[j];
    } else {
      forall j | 0 <= j < i
        ensures KeyOf(ds[j].event) != KeyOf(ds[i].event)
      {
        assert front[j] in front && front[j] == ds[j];
      }
    }
  }

  /** The same event is fresh at most once. */
  lemma FreshAtMostOnce(ds: seq<Delivery>, i: nat, j: nat)
    requires i < j < |ds| && ds[i].event.source == ds[j].event.source && ds[i].event.id == ds[j].event.id
    ensures !FreshAt(ds, j)
  {
    FreshIffFirst(ds, j);
    assert KeyOf(ds[i].event) == KeyOf(ds[j].event);
  }

  /** Without a bar in the sources, keys tell events apart, and so a first delivery is always fresh. */
  lemma FirstDeliveryIsFresh(ds: seq<Delivery>, i: nat)
    requires i < |ds|
    requires forall d :: d in ds ==> '|' !in d.event.source
    requires forall j :: 0 <= j < i ==> ds[j].event.source != ds[i].event.source || ds[j].event.id != ds[i].event.id
    ensures FreshAt(ds, i)
  {
    FreshIffFirst(ds, i);
    forall j | 0 <= j < i
      ensures KeyOf(ds[j].event) != KeyOf(ds[i].event)
    {
      assert ds[j] in ds && ds[i] in ds;
      if KeyOf(ds[j].event) == KeyOf(ds[i].event) {
        KeyTellsApart(ds[j].event.source, ds[j].event.id, ds[i].event.source, ds[i].event.id);
      }
    }
  }

  lemma KeyTellsApart(s: string, x: string, t: string, y: string)
    requires '|' !in s && '|' !in t && Key(s, x) == Key(t, y)
    ensures s == t && x == y
  {
    FirstBar(s, x);
    FirstBar(t, y);
    var k := Key(s, x);
    assert s == k[..|s|] && t == k[..|t|];
    assert x == k[|s| + 1..] && y == k[|t| + 1..];
  }

  lemma FirstBar(s: string, x: string)
    requires '|' !in s
    ensures Key(s, x)[|s|] == '|' && forall i :: 0 <= i < |s| ==> Key(s, x)[i] != '|'
  {
    assert forall i :: 0 <= i < |s| ==> Key(s, x)[i] == s[i] && s[i] in s;
  }

  /** With one, two different events share a key and the second is taken for a duplicate. */
  lemma BarsCollide(limit: int, limit': int)
    ensures
      var a, b := Envelope("a|b", "c", "", "", ""), Envelope("a", "b|c", "", "", "");
      (a.source != b.source || a.id != b.id) && !FreshAt([Delivery(a, limit), Delivery(b, limit')], 1)
  {
    var a, b := Envelope("a|b", "c", "", "", ""), Envelope("a", "b|c", "", "", "");
    FreshIffFirst([Delivery(a, limit), Delivery(b, limit')], 1);
    assert KeyOf(a) == "a|b|c" == KeyOf(b);
  }

  /** An old history that kept every body loses nothing in migration, however many there are. */
  lemma MigrationRemembers(h: History, accepted: seq<Envelope>)
    requires h.index.None? && NewKeys(accepted) && h.next == |accepted| + 1 && h.compactedBefore == 0
    requires |h.events| == |accepted|
    requires forall i :: 0 <= i < |accepted| ==> h.events[i].sequence == i + 1 && h.events[i].event == accepted[i]
    ensures Remembers(Migrated(h), accepted)
  {
    RebuiltIndex(h.events, accepted);
    AllBodies(h.events, accepted);
    assert Migrated(h) == h.(index := Some(Rebuilt(h.events)));
  }

  lemma AllBodies(events: seq<Record>, accepted: seq<Envelope>)
    requires |events| == |accepted|
    requires forall i :: 0 <= i < |accepted| ==> events[i].sequence == i + 1 && events[i].event == accepted[i]
    ensures LastBodies(events, accepted)
  {
  }

  lemma {:induction false} RebuiltIndex(events: seq<Record>, accepted: seq<Envelope>)
    requires |events| == |accepted| && NewKeys(accepted)
    requires forall i :: 0 <= i < |accepted| ==> events[i].sequence == i + 1 && events[i].event == accepted[i]
    ensures Indexes(Rebuilt(events), accepted)
    decreases |events|
  {
    if events != [] {
      var n := |events| - 1;
      var front := accepted[..n];
      RebuiltIndex(events[..n], front);
      assert KeyOf(accepted[n]) !in Rebuilt(events[..n]);
      IndexesMore(Rebuilt(events[..n]), front, accepted[n]);
      assert accepted == front + [accepted[n]];
    }
  }

  // ------------------------------------------------------------------- the store

  datatype WindowKey = WindowKey(subscription: string, day: string, kind: string)

  datatype Window = Window(count: int, usd: real)

  datatype RefusalNote = RefusalNote(control: string, source: string, id: string, decision: Option<Decision>)

  function WindowAt(windows: map<WindowKey, Window>, k: WindowKey): Window {
    if k in windows then windows[k] else Window(0, 0.0)
  }

  function Credit(usd: real): real {
    if usd > 0.0 then usd else 0.0
  }

  /** The first retained record of an event. */
  function FindRecord(events: seq<Record>, source: string, id: string): (r: Option<nat>)
    ensures r.Some? ==> r.value < |events| && events[r.value].event.source == source && events[r.value].event.id == id
    ensures r.None? ==> forall i :: 0 <= i < |events| ==> events[i].event.source != source || events[i].event.id != id
  {
    if events == [] then None
    else
      var front := FindRecord(events[..|events| - 1], source, id);
      if front.Some? then front
      else if events[|events| - 1].event.source == source && events[|events| - 1].event.id == id then Some(|events| - 1)
      else
        assert forall i :: 0 <= i < |events| - 1 ==> events[i] == events[..|events| - 1][i];
        None
  }

  /** A subscription decides on an event once. */
  ghost predicate OneDecisionEach(events: seq<Record>) {
    forall r, i, j :: r in events && 0 <= i < j < |r.decisions| ==>
      r.decisions[i].subscription != r.decisions[j].subscription
  }

  lemma IngestedDecisions(h: History, e: Envelope, limit: int)
    requires OneDecisionEach(h.events)
    ensures OneDecisionEach(Ingested(h, e, limit).events)
  {
    var grown := h.events + [Record(h.next, e, [])];
    assert forall r :: r in grown ==> r in h.events || r.decisions == [];
    assert forall r :: r in Ingested(h, e, limit).events ==> r in grown;
  }

  /** Filing a decision disturbs neither what is remembered nor the one-decision rule. */
  lemma FiledKeeps(h: History, accepted: seq<Envelope>, i: nat, d: Decision)
    requires Remembers(h, accepted) && OneDecisionEach(h.events) && i < |h.events|
    requires forall x :: x in h.events[i].decisions ==> x.subscription != d.subscription
    ensures
      var r := h.events[i];
      var events := h.events[i := r.(decisions := r.decisions + [d])];
      Remembers(h.(events := events), accepted) && OneDecisionEach(events)
  {
    var r := h.events[i];
    var filed := r.(decisions := r.decisions + [d]);
    var events := h.events[i := filed];
    assert r in h.events;
    FiledOnce(r, d);
    forall x | x in events
      ensures x == filed || x in h.events
    {
    }
  }

  lemma FiledOnce(r: Record, d: Decision)
    requires OneDecisionEach([r]) && forall x :: x in r.decisions ==> x.subscription != d.subscription
    ensures OneDecisionEach([r.(decisions := r.decisions + [d])])
  {
    assert r in [r];
    var all := r.decisions + [d];
    forall i, j | 0 <= i < j < |all|
      ensures all[i].subscription != all[j].subscription
    {
      if j == |r.decisions| {
        assert r.decisions[i] in r.decisions;
      }
    }
  }

  class EventStore {
    const historyLimit: int
    var history: History
    var windows: map<WindowKey, Window>
    var refusals: seq<RefusalNote>
    ghost var accepted: seq<Envelope>

    ghost predicate Valid()
      reads this
    {
      Remembers(history, accepted) && OneDecisionEach(history.events)
    }

    constructor (historyLimit: int)
      ensures Valid() && this.historyLimit == historyLimit && history == EMPTY && accepted == []
      ensures windows == map[] && refusals == []
    {
      this.historyLimit := historyLimit;
      history, windows, refusals, accepted := EMPTY, map[], [], [];
    }

    /** A restart on what is on disk, an old history included, under any new limit. */
    constructor Reopen(historyLimit: int, stored: History, windows: map<WindowKey, Window>, refusals: seq<RefusalNote>,
                       ghost accepted: seq<Envelope>)
      requires Remembers(Migrated(stored), accepted) && OneDecisionEach(stored.events)
      ensures Valid() && this.historyLimit == historyLimit && history == Migrated(stored)
      ensures this.accepted == accepted && this.windows == windows && this.refusals == refusals
    {
      this.historyLimit := historyLimit;
      history, this.windows, this.refusals := Migrated(stored), windows, refusals;
      this.accepted := accepted;
    }

    /** Persists a new event; a known one, body retained or not, changes nothing. */
    method Ingest(e: Envelope) returns (sequence: int, isNew: bool)
      requires Valid()
      modifies this`history, this`accepted
      ensures Valid()
      ensures isNew <==> !Known(old(history), KeyOf(e))
      ensures history == Ingested(old(history), e, historyLimit)
      ensures accepted == Accepted(old(history), old(accepted), e)
      ensures 1 <= sequence <= |accepted| && KeyOf(accepted[sequence - 1]) == KeyOf(e)
    {
      IngestedRemembers(history, accepted, e, historyLimit);
      IngestedDecisions(history, e, historyLimit);
      ghost var before := history;
      var key := KeyOf(e);
      var index := history.index.value;
      if key in index {
        assert HasKey(accepted, key);
        return index[key], false;
      }
      var record := Record(history.next, e, []);
      sequence := record.sequence;
      var grown := History(history.events + [record], history.next + 1, Some(index[key := sequence]), history.compactedBefore);
      history := Compact(grown, historyLimit);
      accepted := accepted + [e];
      assert history == Ingested(before, e, historyLimit);
      return sequence, true;
    }

    /** Files a decision with its event once; one that comes too late is kept in the open. */
    method AddDecision(source: string, id: string, d: Decision)
      requires Valid()
      modifies this`history, this`refusals
      ensures Valid()
      ensures
        match FindRecord(old(history).events, source, id)
        case None =>
          history == old(history) && refusals == old(refusals) + [RefusalNote("orphan_decision", source, id, Some(d))]
        case Some(i) =>
          var r := old(history).events[i];
          && refusals == old(refusals)
          && history == old(history).(events :=
               if exists x :: x in r.decisions && x.subscription == d.subscription then old(history).events
               else old(history).events[i := r.(decisions := r.decisions + [d])])
    {
      var found := FindRecord(history.events, source, id);
      if found.None? {
        refusals := refusals + [RefusalNote("orphan_decision", source, id, Some(d))];
        return;
      }
      var r := history.events[found.value];
      if exists x :: x in r.decisions && x.subscription == d.subscription {
        return;
      }
      FiledKeeps(history, accepted, found.value, d);
      history := history.(events := history.events[found.value := r.(decisions := r.decisions + [d])]);
    }

    method WindowRecord(k: WindowKey, usd: real, count: int)
      modifies this`windows
      ensures windows == old(windows)[k := Window(WindowAt(old(windows), k).count + count,
                                                  WindowAt(old(windows), k).usd + Credit(usd))]
    {
      var entry := WindowAt(windows, k);
      windows := windows[k := Window(entry.count + count, entry.usd + Credit(usd))];
    }

    /** Checks the ceiling and claims the slot in one step; nothing is saved when it is full. */
    method WindowReserve(k: WindowKey, limit: Option<int>) returns (reserved: bool, count: int)
      modifies this`windows
      ensures reserved <==> limit.None? || WindowAt(old(windows), k).count < limit.value
      ensures count == WindowAt(windows, k).count
      ensures windows == if reserved
                         then old(windows)[k := WindowAt(old(windows), k).(count := WindowAt(old(windows), k).count + 1)]
                         else old(windows)
    {
      var entry := WindowAt(windows, k);
      if limit.Some? && entry.count >= limit.value {
        return false, entry.count;
      }
      windows := windows[k := Window(entry.count + 1, entry.usd)];
      return true, entry.count + 1;
    }
  }

  method Compact(h: History, limit: int) returns (r: History)
    requires h.events != []
    ensures r == Compacted(h, limit)
  {
    var overflow := |h.events| - limit;
    if overflow <= 0 {
      return h;
    }
    var cut := if overflow <= |h.events| then overflow else |h.events|;
    var dropped, kept := h.events[..cut], h.events[cut..];
    return h.(events := kept, compactedBefore := dropped[|dropped| - 1].sequence + 1);
  }
}
