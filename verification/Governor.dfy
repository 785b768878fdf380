/**
  The ceilings of a subscription's day, and the engine held to them as a machine of
  atomic steps: any number of events, each subscription deciding in one of a fixed number
  of slots, with two awaits during which any other decider may move.
*/
module Governor {
  import opened Wrappers
  import opened Budget
  import opened EventStore

  /** Ceilings are positive where they are set. */
  datatype Subscription = Subscription(
    id: string, budget: Option<real>, dailyBudget: Option<real>, maxRunsPerDay: Option<int>,
    dailyTriageBudget: Option<real>)

  ghost predicate Positive(s: Subscription) {
    && (s.budget.Some? ==> s.budget.value > 0.0)
    && (s.dailyBudget.Some? ==> s.dailyBudget.value > 0.0)
    && (s.maxRunsPerDay.Some? ==> s.maxRunsPerDay.value > 0)
    && (s.dailyTriageBudget.Some? ==> s.dailyTriageBudget.value > 0.0)
  }

  datatype RunVerdict = Admitted(effective: Option<real>) | Denied(control: string)

  function TriageAllowed(s: Subscription, triage: Window): bool {
    s.dailyTriageBudget.None? || triage.usd < s.dailyTriageBudget.value
  }

  /** Spend first, then the slot, then the smaller of the per-run ceiling and what the window still holds. */
  function RunAllowed(s: Subscription, runs: Window): RunVerdict {
    if s.dailyBudget.Some? && runs.usd >= s.dailyBudget.value then Denied("daily_budget")
    else if s.maxRunsPerDay.Some? && runs.count >= s.maxRunsPerDay.value then Denied("max_runs_per_day")
    else if s.dailyBudget.None? then Admitted(None)
    else
      var left := s.dailyBudget.value - runs.usd;
      Admitted(Some(if s.budget.Some? then Min(s.budget.value, left) else left))
  }

  /** The most any run of a budgeted subscription is handed. */
  function LargestRun(s: Subscription): real
    requires s.dailyBudget.Some?
  {
    if s.budget.Some? then Min(s.budget.value, s.dailyBudget.value) else s.dailyBudget.value
  }

  function RunKey(s: string, day: string): WindowKey {
    WindowKey(s, day, "run")
  }

  function TriageKey(s: string, day: string): WindowKey {
    WindowKey(s, day, "triage")
  }

  class AutonomyGovernor {
    const store: EventStore

    constructor (store: EventStore)
      ensures this.store == store
    {
      this.store := store;
    }

    method AdmitTriage(s: Subscription, day: string) returns (admitted: bool)
      ensures admitted == TriageAllowed(s, WindowAt(store.windows, TriageKey(s.id, day)))
    {
      if s.dailyTriageBudget.None? {
        return true;
      }
      return !(WindowAt(store.windows, TriageKey(s.id, day)).usd >= s.dailyTriageBudget.value);
    }

    /** Claims the run's slot as it admits; a refusal, for money above all, claims none. */
    method AdmitRun(s: Subscription, day: string) returns (v: RunVerdict)
      modifies store`windows
      ensures v == RunAllowed(s, WindowAt(old(store.windows), RunKey(s.id, day)))
      ensures store.windows == Claimed(old(store.windows), RunKey(s.id, day), v)
    {
      var key := RunKey(s.id, day);
      var spent := WindowAt(store.windows, key).usd;
      var left: Option<real> := None;
      if s.dailyBudget.Some? {
        if spent >= s.dailyBudget.value {
          return Denied("daily_budget");
        }
        left := Some(s.dailyBudget.value - spent);
      }
      var reserved, runs := store.WindowReserve(key, s.maxRunsPerDay);
      if !reserved {
        return Denied("max_runs_per_day");
      }
      if left.Some? {
        var perRun := if s.budget.Some? then s.budget.value else left.value;
        return Admitted(Some(Min(perRun, left.value)));
      }
      return Admitted(None);
    }
  }

  function Claimed(windows: map<WindowKey, Window>, key: WindowKey, v: RunVerdict): map<WindowKey, Window> {
    if v.Admitted? then windows[key := Window(WindowAt(windows, key).count + 1, WindowAt(windows, key).usd)] else windows
  }

  // -------------------------------------------------------------------- the engine

  /** One of the engine's slots. */
  datatype Slot =
    | Idle
    | Triaging(subscription: string, day: string)
    | Working(subscription: string, day: string, effective: Option<real>)

  /** The engine between awaits; `starts` logs the runs it has started. */
  datatype Engine = Engine(windows: map<WindowKey, Window>, slots: seq<Slot>, starts: seq<(string, string)>)

  datatype EngineStep =
    | Enter(slot: nat, subscription: string, day: string)
    | Judge(slot: nat, usd: real, relevant: bool)
    | Finish(slot: nat, usd: real)
    | Break(slot: nat)

  function Spent(windows: map<WindowKey, Window>, k: WindowKey, usd: real, count: int): map<WindowKey, Window> {
    windows[k := Window(WindowAt(windows, k).count + count, WindowAt(windows, k).usd + Credit(usd))]
  }

  /**
    What a decider does between two awaits.  A relevant event is recorded, admitted and
    launched in one go; a run keeps to the budget it was handed, and a triage call to
    `dearest`; whatever raises releases its slot and records nothing.
  */
  ghost predicate EngineNext(
    subs: map<string, Subscription>, dearest: real, e: Engine, step: EngineStep, e': Engine)
  {
    && step.slot < |e.slots|
    && match step
       case Enter(i, s, day) =>
         && e.slots[i].Idle? && s in subs && subs[s].id == s
         && TriageAllowed(subs[s], WindowAt(e.windows, TriageKey(s, day)))
         && e' == e.(slots := e.slots[i := Triaging(s, day)])
       case Judge(i, usd, relevant) =>
         && e.slots[i].Triaging? && e.slots[i].subscription in subs && Credit(usd) <= dearest
         && var (s, day) := (e.slots[i].subscription, e.slots[i].day);
            var windows := Spent(e.windows, TriageKey(s, day), usd, 1);
            var v := RunAllowed(subs[s], WindowAt(windows, RunKey(s, day)));
            e' == if relevant && v.Admitted?
                  then Engine(Claimed(windows, RunKey(s, day), v), e.slots[i := Working(s, day, v.effective)],
                              e.starts + [(s, day)])
                  else e.(windows := windows, slots := e.slots[i := Idle])
       case Finish(i, usd) =>
         && e.slots[i].Working? && (e.slots[i].effective.Some? ==> Credit(usd) <= e.slots[i].effective.value)
         && var (s, day) := (e.slots[i].subscription, e.slots[i].day);
            e' == e.(windows := Spent(e.windows, RunKey(s, day), usd, 0), slots := e.slots[i := Idle])
       case Break(i) => !e.slots[i].Idle? && e' == e.(slots := e.slots[i := Idle])
  }

  ghost function RunsOf(starts: seq<(string, string)>, s: string, day: string): nat {
    if starts == [] then 0
    else RunsOf(starts[..|starts| - 1], s, day) + if starts[|starts| - 1] == (s, day) then 1 else 0
  }

  function Hold(slot: Slot, s: string, day: string): real {
    if slot.Working? && slot.subscription == s && slot.day == day && slot.effective.Some? then slot.effective.value
    else 0.0
  }

  function Asking(slot: Slot, s: string, day: string): nat {
    if slot.Triaging? && slot.subscription == s && slot.day == day then 1 else 0
  }

  /** The budgets handed to a window's runs that have not reported yet. */
  ghost function Held(slots: seq<Slot>, s: string, day: string): real {
    if slots == [] then 0.0 else Held(slots[..|slots| - 1], s, day) + Hold(slots[|slots| - 1], s, day)
  }

  ghost function Asked(slots: seq<Slot>, s: string, day: string): nat {
    if slots == [] then 0 else Asked(slots[..|slots| - 1], s, day) + Asking(slots[|slots| - 1], s, day)
  }

  lemma {:induction false} HeldUpdate(slots: seq<Slot>, i: nat, x: Slot, s: string, day: string)
    requires i < |slots|
    ensures Held(slots[i := x], s, day) == Held(slots, s, day) - Hold(slots[i], s, day) + Hold(x, s, day)
    ensures Asked(slots[i := x], s, day) == Asked(slots, s, day) - Asking(slots[i], s, day) + Asking(x, s, day)
    decreases |slots|
  {
    var front, last := slots[..|slots| - 1], slots[|slots| - 1];
    if i < |front| {
      HeldUpdate(front, i, x, s, day);
      assert slots[i := x][..|front|] == front[i := x];
    } else {
      assert slots[i := x][..|front|] == front;
    }
  }

  /** The slots other than an idle-handed one hold at most one largest run each. */
  lemma {:induction false} HeldBound(slots: seq<Slot>, s: string, day: string, largest: real, free: int)
    requires largest >= 0.0
    requires forall i :: 0 <= i < |slots| ==> Hold(slots[i], s, day) <= largest
    requires 0 <= free < |slots| ==> Hold(slots[free], s, day) == 0.0
    ensures Held(slots, s, day) <= Times(if 0 <= free < |slots| then |slots| - 1 else |slots|, largest)
    decreases |slots|
  {
    if slots != [] {
      var front := slots[..|slots| - 1];
      HeldBound(front, s, day, largest, free);
    }
  }

  lemma {:induction false} AskedBound(slots: seq<Slot>, s: string, day: string)
    ensures Asked(slots, s, day) <= |slots|
  {
    if slots != [] {
      AskedBound(slots[..|slots| - 1], s, day);
    }
  }

  /** The run ceiling of one subscription on one day, and that its count is its admissions. */
  ghost predicate RunsBounded(subs: map<string, Subscription>, e: Engine, s: string, day: string)
    requires s in subs
  {
    var runs := WindowAt(e.windows, RunKey(s, day)).count;
    runs == RunsOf(e.starts, s, day) && (subs[s].maxRunsPerDay.Some? ==> runs <= subs[s].maxRunsPerDay.value)
  }

  /** The window's spend with all that is promised: over its budget by the other slots' runs at most. */
  ghost predicate SpendBounded(subs: map<string, Subscription>, e: Engine, s: string, day: string)
    requires s in subs
  {
    subs[s].dailyBudget.Some? ==>
      && |e.slots| >= 1
      && (forall i :: 0 <= i < |e.slots| && e.slots[i].Working? && e.slots[i].subscription == s && e.slots[i].day == day ==>
            e.slots[i].effective.Some? && 0.0 <= e.slots[i].effective.value <= LargestRun(subs[s]))
      && WindowAt(e.windows, RunKey(s, day)).usd >= 0.0
      && WindowAt(e.windows, RunKey(s, day)).usd + Held(e.slots, s, day)
         <= subs[s].dailyBudget.value + Times(|e.slots| - 1, LargestRun(subs[s]))
  }

  /** Being awake: over its ceiling by one call for each slot at most. */
  ghost predicate TriageBounded(subs: map<string, Subscription>, dearest: real, e: Engine, s: string, day: string)
    requires s in subs
  {
    subs[s].dailyTriageBudget.Some? ==>
      WindowAt(e.windows, TriageKey(s, day)).usd + Times(Asked(e.slots, s, day), dearest)
      <= subs[s].dailyTriageBudget.value + Times(|e.slots|, dearest)
  }

  lemma RunsStep(subs: map<string, Subscription>, dearest: real, e: Engine, step: EngineStep, e': Engine, s: string, day: string)
    requires s in subs && RunsBounded(subs, e, s, day) && EngineNext(subs, dearest, e, step, e')
    ensures RunsBounded(subs, e', s, day)
  {
    match step
    case Enter(_, _, _) =>
    case Judge(i, usd, relevant) =>
      RunsJudged(subs, e, e.slots[i].subscription, e.slots[i].day, usd, s, day);
      if e'.starts != e.starts {
        OneMoreStart(e.starts, (e.slots[i].subscription, e.slots[i].day), s, day);
      }
    case Finish(i, usd) => SpendingCounts(e.windows, RunKey(e.slots[i].subscription, e.slots[i].day), usd, s, day);
    case Break(_) =>
  }

  lemma OneMoreStart(starts: seq<(string, string)>, start: (string, string), s: string, day: string)
    ensures RunsOf(starts + [start], s, day) == RunsOf(starts, s, day) + if start == (s, day) then 1 else 0
  {
    assert (starts + [start])[..|starts|] == starts;
  }

  /** A triage call moves no run window, and an admission claims one slot of its own. */
  lemma RunsJudged(
    subs: map<string, Subscription>, e: Engine, judged: string, on: string, usd: real, s: string, day: string)
    requires judged in subs && s in subs
    ensures
      var windows := Spent(e.windows, TriageKey(judged, on), usd, 1);
      var v := RunAllowed(subs[judged], WindowAt(windows, RunKey(judged, on)));
      var runs := WindowAt(e.windows, RunKey(s, day)).count;
      && WindowAt(windows, RunKey(s, day)) == WindowAt(e.windows, RunKey(s, day))
      && WindowAt(Claimed(windows, RunKey(judged, on), v), RunKey(s, day)).count ==
         (if v.Admitted? && (judged, on) == (s, day) then runs + 1 else runs)
      && (v.Admitted? && (judged, on) == (s, day) && subs[s].maxRunsPerDay.Some? ==> runs < subs[s].maxRunsPerDay.value)
  {
    assert TriageKey(judged, on).kind != RunKey(s, day).kind;
  }

  /** Recording what a run spent claims no slot. */
  lemma SpendingCounts(windows: map<WindowKey, Window>, key: WindowKey, usd: real, s: string, day: string)
    ensures WindowAt(Spent(windows, key, usd, 0), RunKey(s, day)).count == WindowAt(windows, RunKey(s, day)).count
  {
  }

  lemma SpendStep(subs: map<string, Subscription>, dearest: real, e: Engine, step: EngineStep, e': Engine, s: string, day: string)
    requires s in subs && Positive(subs[s])
    requires SpendBounded(subs, e, s, day) && EngineNext(subs, dearest, e, step, e')
    ensures SpendBounded(subs, e', s, day)
  {
    if subs[s].dailyBudget.Some? {
      HeldUpdate(e.slots, step.slot, e'.slots[step.slot], s, day);
      assert e'.slots == e.slots[step.slot := e'.slots[step.slot]];
      match step
      case Enter(_, _, _) =>
      case Judge(i, usd, relevant) => SpendJudged(subs, dearest, e, i, usd, relevant, e', s, day);
      case Finish(i, usd) => SpendFinished(subs, dearest, e, i, usd, e', s, day);
      case Break(_) =>
    }
  }

  /** An admission promises no more than its window still holds, over what the other slots hold. */
  lemma SpendJudged(
    subs: map<string, Subscription>, dearest: real, e: Engine, i: nat, usd: real, relevant: bool, e': Engine,
    s: string, day: string)
    requires s in subs && Positive(subs[s]) && subs[s].dailyBudget.Some?
    requires SpendBounded(subs, e, s, day) && EngineNext(subs, dearest, e, Judge(i, usd, relevant), e')
    requires Held(e'.slots, s, day) ==
             Held(e.slots, s, day) - Hold(e.slots[i], s, day) + Hold(e'.slots[i], s, day)
    ensures SpendBounded(subs, e', s, day)
  {
    assert TriageKey(e.slots[i].subscription, e.slots[i].day) != RunKey(s, day);
    assert WindowAt(e'.windows, RunKey(s, day)).usd == WindowAt(e.windows, RunKey(s, day)).usd;
    if e'.slots[i].Working? {
      HeldBound(e.slots, s, day, LargestRun(subs[s]), i);
    }
  }

  /** What a run reports was promised to it. */
  lemma SpendFinished(
    subs: map<string, Subscription>, dearest: real, e: Engine, i: nat, usd: real, e': Engine, s: string, day: string)
    requires s in subs && Positive(subs[s]) && subs[s].dailyBudget.Some?
    requires SpendBounded(subs, e, s, day) && EngineNext(subs, dearest, e, Finish(i, usd), e')
    requires Held(e'.slots, s, day) ==
             Held(e.slots, s, day) - Hold(e.slots[i], s, day) + Hold(e'.slots[i], s, day)
    ensures SpendBounded(subs, e', s, day)
  {
    assert (e.slots[i].subscription, e.slots[i].day) != (s, day) ==>
        WindowAt(e'.windows, RunKey(s, day)) == WindowAt(e.windows, RunKey(s, day));
  }

  lemma TriageStep(subs: map<string, Subscription>, dearest: real, e: Engine, step: EngineStep, e': Engine, s: string, day: string)
    requires s in subs && dearest >= 0.0
    requires TriageBounded(subs, dearest, e, s, day) && EngineNext(subs, dearest, e, step, e')
    ensures TriageBounded(subs, dearest, e', s, day)
  {
    HeldUpdate(e.slots, step.slot, e'.slots[step.slot], s, day);
    assert e'.slots == e.slots[step.slot := e'.slots[step.slot]];
    AskedBound(e'.slots, s, day);
    TimesGrows(Asked(e'.slots, s, day), |e.slots|, dearest);
  }

  lemma {:induction false} TimesGrows(a: nat, b: nat, x: real)
    requires a <= b && x >= 0.0
    ensures Times(a, x) <= Times(b, x)
    decreases b
  {
    if a < b {
      TimesGrows(a, b - 1, x);
    }
  }

  ghost predicate EngineRun(
    subs: map<string, Subscription>, dearest: real, slots: nat, states: seq<Engine>, steps: seq<EngineStep>)
  {
    && |states| == |steps| + 1
    && states[0].windows == map[] && states[0].starts == []
    && |states[0].slots| == slots && (forall i :: 0 <= i < slots ==> states[0].slots[i] == Idle)
    && (forall i :: 0 <= i < |steps| ==> EngineNext(subs, dearest, states[i], steps[i], states[i + 1]))
  }

  lemma {:induction false} SlotsStay(
    subs: map<string, Subscription>, dearest: real, slots: nat, states: seq<Engine>, steps: seq<EngineStep>, k: nat)
    requires EngineRun(subs, dearest, slots, states, steps) && k < |states|
    ensures |states[k].slots| == slots
    decreases k
  {
    if k > 0 {
      SlotsStay(subs, dearest, slots, states, steps, k - 1);
      assert EngineNext(subs, dearest, states[k - 1], steps[k - 1], states[k]);
    }
  }

  lemma {:induction false} IdleHoldsNothing(slots: seq<Slot>, s: string, day: string)
    requires forall i :: 0 <= i < |slots| ==> slots[i] == Idle
    ensures Held(slots, s, day) == 0.0 && Asked(slots, s, day) == 0
  {
    if slots != [] {
      IdleHoldsNothing(slots[..|slots| - 1], s, day);
    }
  }

  /** Under every interleaving of every decider, the three ceilings of every window hold at every moment. */
  lemma {:induction false} WindowsHold(
    subs: map<string, Subscription>, dearest: real, slots: nat, states: seq<Engine>, steps: seq<EngineStep>, k: nat,
    s: string, day: string)
    requires EngineRun(subs, dearest, slots, states, steps) && k < |states|
    requires s in subs && Positive(subs[s]) && slots >= 1 && dearest >= 0.0
    ensures RunsBounded(subs, states[k], s, day)
    ensures SpendBounded(subs, states[k], s, day)
    ensures TriageBounded(subs, dearest, states[k], s, day)
    decreases k
  {
    if k == 0 {
      IdleHoldsNothing(states[0].slots, s, day);
      TimesGrows(0, slots, dearest);
      if subs[s].dailyBudget.Some? {
        TimesGrows(0, slots - 1, LargestRun(subs[s]));
      }
    } else {
      WindowsHold(subs, dearest, slots, states, steps, k - 1, s, day);
      assert EngineNext(subs, dearest, states[k - 1], steps[k - 1], states[k]);
      RunsStep(subs, dearest, states[k - 1], steps[k - 1], states[k], s, day);
      SpendStep(subs, dearest, states[k - 1], steps[k - 1], states[k], s, day);
      TriageStep(subs, dearest, states[k - 1], steps[k - 1], states[k], s, day);
    }
  }

  /** What the ceilings come to: runs within their number, money within its budget and the other slots' runs. */
  lemma WindowCeilings(
    subs: map<string, Subscription>, dearest: real, slots: nat, states: seq<Engine>, steps: seq<EngineStep>, k: nat,
    s: string, day: string)
    requires EngineRun(subs, dearest, slots, states, steps) && k < |states|
    requires s in subs && Positive(subs[s]) && slots >= 1 && dearest >= 0.0
    ensures subs[s].maxRunsPerDay.Some? ==> RunsOf(states[k].starts, s, day) <= subs[s].maxRunsPerDay.value
    ensures WindowAt(states[k].windows, RunKey(s, day)).count == RunsOf(states[k].starts, s, day)
    ensures subs[s].dailyBudget.Some? ==>
              WindowAt(states[k].windows, RunKey(s, day)).usd
              <= subs[s].dailyBudget.value + Times(slots - 1, LargestRun(subs[s]))
    ensures subs[s].dailyTriageBudget.Some? ==>
              WindowAt(states[k].windows, TriageKey(s, day)).usd
              <= subs[s].dailyTriageBudget.value + Times(slots, dearest)
  {
    WindowsHold(subs, dearest, slots, states, steps, k, s, day);
    SlotsStay(subs, dearest, slots, states, steps, k);
    TimesGrows(0, Asked(states[k].slots, s, day), dearest);
    if subs[s].dailyBudget.Some? {
      HeldNonNegative(states[k].slots, s, day);
    }
  }

  /** What a step reports as spent by a run of this window. */
  function Reports(e: Engine, step: EngineStep, s: string, day: string): real {
    if step.Finish? && step.slot < |e.slots| && e.slots[step.slot].Working?
       && e.slots[step.slot].subscription == s && e.slots[step.slot].day == day
    then Credit(step.usd)
    else 0.0
  }

  /** The spending that the runs of a window have reported in the first `k` steps. */
  ghost function Reported(states: seq<Engine>, steps: seq<EngineStep>, k: nat, s: string, day: string): real
    requires k <= |steps| <= |states|
  {
    if k == 0 then 0.0
    else Reported(states, steps, k - 1, s, day) + Reports(states[k - 1], steps[k - 1], s, day)
  }

  /** A daily budget is drawn on by what runs report when they finish and by nothing else. */
  lemma {:induction false} WindowIsReported(
    subs: map<string, Subscription>, dearest: real, slots: nat, states: seq<Engine>, steps: seq<EngineStep>, k: nat,
    s: string, day: string)
    requires EngineRun(subs, dearest, slots, states, steps) && k < |states|
    ensures WindowAt(states[k].windows, RunKey(s, day)).usd == Reported(states, steps, k, s, day)
    decreases k
  {
    if k > 0 {
      WindowIsReported(subs, dearest, slots, states, steps, k - 1, s, day);
      assert EngineNext(subs, dearest, states[k - 1], steps[k - 1], states[k]);
      ReportStep(subs, dearest, states[k - 1], steps[k - 1], states[k], s, day);
    }
  }

  lemma ReportStep(
    subs: map<string, Subscription>, dearest: real, e: Engine, step: EngineStep, e': Engine, s: string, day: string)
    requires EngineNext(subs, dearest, e, step, e')
    ensures WindowAt(e'.windows, RunKey(s, day)).usd ==
            WindowAt(e.windows, RunKey(s, day)).usd + Reports(e, step, s, day)
  {
    assert forall other, on :: TriageKey(other, on) != RunKey(s, day);
    if step.Finish? {
      var slot := e.slots[step.slot];
      assert RunKey(slot.subscription, slot.day) == RunKey(s, day) <==> slot.subscription == s && slot.day == day;
    }
  }

  lemma {:induction false} SomeReport(states: seq<Engine>, steps: seq<EngineStep>, k: nat, s: string, day: string)
    requires k <= |steps| <= |states|
    ensures Reported(states, steps, k, s, day) >= 0.0
    ensures Reported(states, steps, k, s, day) > 0.0 <==>
            exists j :: 0 <= j < k && Reports(states[j], steps[j], s, day) > 0.0
  {
    if k > 0 {
      SomeReport(states, steps, k - 1, s, day);
      assert Reports(states[k - 1], steps[k - 1], s, day) >= 0.0;
    }
  }

  /**
    Exactly when the window is drawn on: some run of it has reported a spend.  And
    exactly when a run is denied for money: the reports have reached the daily budget.
  */
  lemma DrawnOnIff(
    subs: map<string, Subscription>, dearest: real, slots: nat, states: seq<Engine>, steps: seq<EngineStep>, k: nat,
    s: string, day: string)
    requires EngineRun(subs, dearest, slots, states, steps) && k < |states| && s in subs
    ensures WindowAt(states[k].windows, RunKey(s, day)).usd > 0.0 <==>
            exists j :: 0 <= j < k && Reports(states[j], steps[j], s, day) > 0.0
    ensures RunAllowed(subs[s], WindowAt(states[k].windows, RunKey(s, day))) == Denied("daily_budget") <==>
            subs[s].dailyBudget.Some? && Reported(states, steps, k, s, day) >= subs[s].dailyBudget.value
  {
    WindowIsReported(subs, dearest, slots, states, steps, k, s, day);
    SomeReport(states, steps, k, s, day);
    assert "daily_budget" != "max_runs_per_day" by {
      assert |"daily_budget"| != |"max_runs_per_day"|;
    }
  }

  /** No run that ended has reported any spending. */
  ghost predicate NothingReported(steps: seq<EngineStep>) {
    forall i :: 0 <= i < |steps| && steps[i].Finish? ==> Credit(steps[i].usd) == 0.0
  }

  /** Under a runtime that reports no spending the window stays empty, and no run is ever denied for money. */
  lemma SilentRunsAreFree(
    subs: map<string, Subscription>, dearest: real, slots: nat, states: seq<Engine>, steps: seq<EngineStep>, k: nat,
    s: string, day: string)
    requires EngineRun(subs, dearest, slots, states, steps) && NothingReported(steps) && k < |states|
    requires s in subs && Positive(subs[s])
    ensures WindowAt(states[k].windows, RunKey(s, day)).usd == 0.0
    ensures RunAllowed(subs[s], WindowAt(states[k].windows, RunKey(s, day))) != Denied("daily_budget")
  {
    WindowIsReported(subs, dearest, slots, states, steps, k, s, day);
    SomeReport(states, steps, k, s, day);
    DrawnOnIff(subs, dearest, slots, states, steps, k, s, day);
  }

  const ONE_RUN_A_TIME := Subscription("s", Some(1.0), Some(2.0), None, None)

  /** A run handed a whole unit of money that reports nothing: its slot is claimed, its window not drawn on. */
  lemma OneSilentRun() returns (states: seq<Engine>, steps: seq<EngineStep>)
    ensures EngineRun(map["s" := ONE_RUN_A_TIME], 0.0, 1, states, steps) && |steps| == 3
    ensures states[2].slots == [Working("s", "d", Some(1.0))] && steps[2] == Finish(0, 0.0)
    ensures WindowAt(states[3].windows, RunKey("s", "d")) == Window(1, 0.0)
  {
    var triage, runs := TriageKey("s", "d"), RunKey("s", "d");
    var judged := map[triage := Window(1, 0.0), runs := Window(1, 0.0)];
    states := [
      Engine(map[], [Idle], []),
      Engine(map[], [Triaging("s", "d")], []),
      Engine(judged, [Working("s", "d", Some(1.0))], [("s", "d")]),
      Engine(judged, [Idle], [("s", "d")])];
    steps := [Enter(0, "s", "d"), Judge(0, 0.0, true), Finish(0, 0.0)];
    assert triage.kind != runs.kind;
    SilentSteps(states, steps, judged);
  }

  lemma SilentSteps(states: seq<Engine>, steps: seq<EngineStep>, judged: map<WindowKey, Window>)
    requires TriageKey("s", "d") != RunKey("s", "d")
    requires judged == map[TriageKey("s", "d") := Window(1, 0.0), RunKey("s", "d") := Window(1, 0.0)]
    requires
      states == [
        Engine(map[], [Idle], []),
        Engine(map[], [Triaging("s", "d")], []),
        Engine(judged, [Working("s", "d", Some(1.0))], [("s", "d")]),
        Engine(judged, [Idle], [("s", "d")])]
    requires steps == [Enter(0, "s", "d"), Judge(0, 0.0, true), Finish(0, 0.0)]
    ensures EngineRun(map["s" := ONE_RUN_A_TIME], 0.0, 1, states, steps)
  {
    var subs := map["s" := ONE_RUN_A_TIME];
    assert EngineNext(subs, 0.0, states[0], steps[0], states[1]);
    var windows := Spent(map[], TriageKey("s", "d"), 0.0, 1);
    assert RunAllowed(ONE_RUN_A_TIME, WindowAt(windows, RunKey("s", "d"))) == Admitted(Some(1.0));
    assert EngineNext(subs, 0.0, states[1], steps[1], states[2]);
    assert Spent(judged, RunKey("s", "d"), 0.0, 0) == judged;
    assert EngineNext(subs, 0.0, states[2], steps[2], states[3]);
  }

  lemma {:induction false} HeldNonNegative(slots: seq<Slot>, s: string, day: string)
    requires forall i :: 0 <= i < |slots| ==> Hold(slots[i], s, day) >= 0.0
    ensures Held(slots, s, day) >= 0.0
  {
    if slots != [] {
      HeldNonNegative(slots[..|slots| - 1], s, day);
    }
  }

  /** The engine's own code between awaits, each piece a step of the machine above. */
  class AutonomousEventEngine {
    const governor: AutonomyGovernor
    const subs: map<string, Subscription>
    var slots: seq<Slot>
    var starts: seq<(string, string)>

    constructor (governor: AutonomyGovernor, subs: map<string, Subscription>, maxConcurrent: nat)
      ensures this.governor == governor && this.subs == subs
      ensures slots == seq(maxConcurrent, i => Idle) && starts == []
    {
      this.governor, this.subs := governor, subs;
      slots, starts := seq(maxConcurrent, i => Idle), [];
    }

    function Now(): Engine
      reads this, governor.store
    {
      Engine(governor.store.windows, slots, starts)
    }

    /** Up to the first await: a slot taken and the triage call allowed, or nothing changed. */
    method BeginTriage(i: nat, s: string, day: string) returns (asked: bool)
      requires i < |slots| && slots[i].Idle? && s in subs && subs[s].id == s
      modifies this`slots
      ensures asked ==> EngineNext(subs, 0.0, old(Now()), Enter(i, s, day), Now())
      ensures !asked ==> Now() == old(Now()) && !TriageAllowed(subs[s], WindowAt(Now().windows, TriageKey(s, day)))
    {
      asked := governor.AdmitTriage(subs[s], day);
      if asked {
        slots := slots[i := Triaging(s, day)];
      }
    }

    /** Between the awaits: the reply is paid for, and a relevant event becomes a run if the window allows it. */
    method JudgeReply(i: nat, usd: real, relevant: bool) returns (run: Option<RunVerdict>)
      requires i < |slots| && slots[i].Triaging? && slots[i].subscription in subs
      requires subs[slots[i].subscription].id == slots[i].subscription
      modifies this`slots, this`starts, governor.store`windows
      ensures EngineNext(subs, Credit(usd), old(Now()), Judge(i, usd, relevant), Now())
      ensures run.Some? <==> relevant
      ensures (run.Some? && run.value.Admitted?) <==> |starts| > |old(starts)|
    {
      var s, day := slots[i].subscription, slots[i].day;
      governor.store.WindowRecord(TriageKey(s, day), usd, 1);
      slots := slots[i := Idle];
      if !relevant {
        return None;
      }
      var v := governor.AdmitRun(subs[s], day);
      if v.Admitted? {
        slots := slots[i := Working(s, day, v.effective)];
        starts := starts + [(s, day)];
      }
      return Some(v);
    }

    /** After the run: only its spend is still to be recorded, its slot was claimed at admission. */
    method FinishRun(i: nat, usd: real)
      requires i < |slots| && slots[i].Working?
      requires slots[i].effective.Some? ==> Credit(usd) <= slots[i].effective.value
      modifies this`slots, governor.store`windows
      ensures EngineNext(subs, 0.0, old(Now()), Finish(i, usd), Now())
    {
      governor.store.WindowRecord(RunKey(slots[i].subscription, slots[i].day), usd, 0);
      slots := slots[i := Idle];
    }
  }
}
