/**
  Labelled pairs and the thresholds they support: a sweep of confusion matrices, whether
  any threshold is safe, which point of a sweep is best, and where its knee is.
*/
module Pairs {
  import opened Reals
  import opened Wrappers

  /** A pair is positive when its two prompts want the same answer. */
  datatype Pair = Pair(id: string, positive: bool, family: Option<string>)

  datatype Scored = Scored(pair: Pair, score: real)

  datatype Operating = Operating(threshold: real, truePositives: nat, falseNegatives: nat,
                                 falsePositives: nat, trueNegatives: nat)
  {
    function Positives(): nat { truePositives + falseNegatives }

    function Negatives(): nat { falsePositives + trueNegatives }

    function Tpr(): real { Rate(truePositives, Positives()) }

    function Fpr(): real { Rate(falsePositives, Negatives()) }
  }

  function Rate(part: nat, whole: nat): real {
    if whole == 0 then 0.0 else part as real / whole as real
  }

  // ------------------------------------------------------------------------ counts

  /** How many pairs with the given label are on the given side of the threshold. */
  function Count(scored: seq<Scored>, t: real, positive: bool, hit: bool): nat {
    if scored == [] then 0
    else
      var last := scored[|scored| - 1];
      Count(scored[..|scored| - 1], t, positive, hit)
      + if last.pair.positive == positive && (last.score >= t) == hit then 1 else 0
  }

  function Labelled(scored: seq<Scored>, positive: bool): nat {
    if scored == [] then 0
    else Labelled(scored[..|scored| - 1], positive) + if scored[|scored| - 1].pair.positive == positive then 1 else 0
  }

  function Confusion(scored: seq<Scored>, t: real): Operating {
    Operating(t, Count(scored, t, true, true), Count(scored, t, true, false),
              Count(scored, t, false, true), Count(scored, t, false, false))
  }

  /** The confusion matrix at every threshold of a grid. */
  method Sweep(scored: seq<Scored>, grid: seq<real>) returns (out: seq<Operating>)
    ensures |out| == |grid|
    ensures forall i :: 0 <= i < |grid| ==> out[i] == Confusion(scored, grid[i])
  {
    out := [];
    for i := 0 to |grid|
      invariant |out| == i
      invariant forall k :: 0 <= k < i ==> out[k] == Confusion(scored, grid[k])
    {
      var tp, fn, fp, tn := 0, 0, 0, 0;
      for j := 0 to |scored|
        invariant Operating(grid[i], tp, fn, fp, tn) == Confusion(scored[..j], grid[i])
      {
        assert scored[..j + 1][..j] == scored[..j];
        var hit := scored[j].score >= grid[i];
        if scored[j].pair.positive {
          if hit { tp := tp + 1; } else { fn := fn + 1; }
        } else {
          if hit { fp := fp + 1; } else { tn := tn + 1; }
        }
      }
      assert scored[..|scored|] == scored;
      out := out + [Operating(grid[i], tp, fn, fp, tn)];
    }
  }

  /** The four counts part the set by label, whatever the threshold. */
  lemma {:induction false} CountsPartition(scored: seq<Scored>, t: real)
    ensures Confusion(scored, t).Positives() == Labelled(scored, true)
    ensures Confusion(scored, t).Negatives() == Labelled(scored, false)
    ensures Labelled(scored, true) + Labelled(scored, false) == |scored|
  {
    if scored != [] {
      CountsPartition(scored[..|scored| - 1], t);
    }
  }

  /** A higher threshold never admits more, of either label. */
  lemma {:induction false} SweepIsMonotone(scored: seq<Scored>, t: real, u: real, positive: bool)
    requires t <= u
    ensures Count(scored, u, positive, true) <= Count(scored, t, positive, true)
    ensures Count(scored, t, positive, false) <= Count(scored, u, positive, false)
  {
    if scored != [] {
      SweepIsMonotone(scored[..|scored| - 1], t, u, positive);
    }
  }

  lemma {:induction false} NoneCounted(scored: seq<Scored>, t: real, positive: bool, hit: bool)
    ensures Count(scored, t, positive, hit) == 0
            <==> forall s :: s in scored && s.pair.positive == positive ==> (s.score >= t) != hit
  {
    if scored != [] {
      var front, last := scored[..|scored| - 1], scored[|scored| - 1];
      NoneCounted(front, t, positive, hit);
      assert scored == front + [last];
    }
  }

  // ------------------------------------------------------------------ separability

  function LowestPositive(scored: seq<Scored>): (r: Option<real>)
    ensures r.None? <==> forall s :: s in scored ==> !s.pair.positive
    ensures r.Some? ==> (exists s :: s in scored && s.pair.positive && s.score == r.value)
    ensures r.Some? ==> forall s :: s in scored && s.pair.positive ==> r.value <= s.score
  {
    if scored == [] then None
    else
      var front, last := scored[..|scored| - 1], scored[|scored| - 1];
      assert scored == front + [last];
      var r := LowestPositive(front);
      if last.pair.positive && (r.None? || last.score < r.value) then Some(last.score) else r
  }

  /** The first of the negatives that score highest. */
  function HighestNegative(scored: seq<Scored>): (r: Option<Scored>)
    ensures r.None? <==> forall s :: s in scored ==> s.pair.positive
    ensures r.Some? ==> r.value in scored && !r.value.pair.positive
    ensures r.Some? ==> forall s :: s in scored && !s.pair.positive ==> s.score <= r.value.score
  {
    if scored == [] then None
    else
      var front, last := scored[..|scored| - 1], scored[|scored| - 1];
      assert scored == front + [last];
      var r := HighestNegative(front);
      if !last.pair.positive && (r.None? || r.value.score < last.score) then Some(last) else r
  }

  datatype Verdict =
    | NeedsBothLabels
    | Compared(separable: bool, lowestPositive: real, highestNegative: real, highestNegativeId: string, margin: real)

  function Separable(scored: seq<Scored>): Verdict {
    match (LowestPositive(scored), HighestNegative(scored))
    case (Some(worst), Some(dearest)) =>
      Compared(worst > dearest.score, worst, dearest.score, dearest.pair.id, worst - dearest.score)
    case _ => NeedsBothLabels
  }

  /** A threshold that admits every positive and no negative. */
  predicate Safe(scored: seq<Scored>, t: real) {
    Confusion(scored, t).falseNegatives == 0 && Confusion(scored, t).falsePositives == 0
  }

  predicate SaysSeparable(scored: seq<Scored>) {
    Separable(scored).Compared? && Separable(scored).separable
  }

  /** With both labels present, the verdict is whether any threshold is safe; the lowest positive then is one. */
  lemma SeparableIffSomeSafe(scored: seq<Scored>)
    ensures SaysSeparable(scored) <==>
            Labelled(scored, true) > 0 && Labelled(scored, false) > 0 && exists t :: Safe(scored, t)
    ensures SaysSeparable(scored) ==> Safe(scored, Separable(scored).lowestPositive)
  {
    SomeLabelled(scored, true);
    SomeLabelled(scored, false);
    if SaysSeparable(scored) {
      SafeIff(scored, Separable(scored).lowestPositive);
    } else if Separable(scored).Compared? {
      forall t
        ensures !Safe(scored, t)
      {
        SafeIff(scored, t);
      }
    }
  }

  /** The safe thresholds are those above every negative and at or below every positive. */
  lemma SafeIff(scored: seq<Scored>, t: real)
    ensures Safe(scored, t) <==> forall s :: s in scored ==> (s.pair.positive <==> s.score >= t)
  {
    NoneCounted(scored, t, true, false);
    NoneCounted(scored, t, false, true);
  }

  lemma {:induction false} SomeLabelled(scored: seq<Scored>, positive: bool)
    ensures Labelled(scored, positive) > 0 <==> exists s :: s in scored && s.pair.positive == positive
  {
    if scored != [] {
      var front, last := scored[..|scored| - 1], scored[|scored| - 1];
      assert scored == front + [last];
      SomeLabelled(front, positive);
    }
  }

  // --------------------------------------------------------------------- best point

  /** The order of the sort key: recall, then fewer collisions, then the stricter threshold. */
  predicate AtLeastAsGood(a: Operating, b: Operating) {
    || a.Tpr() > b.Tpr()
    || (a.Tpr() == b.Tpr() && (a.Fpr() < b.Fpr() || (a.Fpr() == b.Fpr() && a.threshold >= b.threshold)))
  }

  predicate Clean(p: Operating) {
    p.falsePositives == 0
  }

  /** The points the choice is made from: the clean ones, or all of them when none is. */
  ghost predicate Eligible(operating: seq<Operating>, p: Operating) {
    p in operating && (Clean(p) || forall q :: q in operating ==> !Clean(q))
  }

  /** The first best point of the pool. */
  method BestOperating(operating: seq<Operating>) returns (best: Option<Operating>)
    ensures best.None? <==> operating == []
    ensures best.Some? ==> Eligible(operating, best.value)
    ensures best.Some? ==> forall p :: Eligible(operating, p) ==> AtLeastAsGood(best.value, p)
  {
    if operating == [] {
      return None;
    }
    var clean := CleanOnes(operating);
    var pool := if clean != [] then clean else operating;
    var r := pool[0];
    for i := 1 to |pool|
      invariant r in pool
      invariant forall p :: p in pool[..i] ==> AtLeastAsGood(r, p)
    {
      assert pool[..i + 1] == pool[..i] + [pool[i]];
      if !AtLeastAsGood(r, pool[i]) {
        r := pool[i];
      }
    }
    assert pool[..|pool|] == pool;
    best := Some(r);
  }

  method CleanOnes(operating: seq<Operating>) returns (clean: seq<Operating>)
    ensures forall p :: p in clean <==> p in operating && Clean(p)
  {
    clean := [];
    for i := 0 to |operating|
      invariant forall p :: p in clean <==> p in operating[..i] && Clean(p)
    {
      assert operating[..i + 1] == operating[..i] + [operating[i]];
      if Clean(operating[i]) {
        clean := clean + [operating[i]];
      }
    }
    assert operating[..|operating|] == operating;
  }

  lemma RateOrder(a: nat, b: nat, whole: nat)
    requires whole > 0
    ensures Rate(a, whole) <= Rate(b, whole) <==> a <= b
  {
    var w := whole as real;
    assert Rate(a, whole) * w == a as real && Rate(b, whole) * w == b as real;
    if a < b {
      assert Rate(a, whole) * w < Rate(b, whole) * w;
    } else if b < a {
      assert Rate(b, whole) * w < Rate(a, whole) * w;
    }
  }

  /**
    What the best point of a sweep is: when some threshold of the grid admits no negative,
    it admits none, catches as many positives as any such threshold, and is the strictest
    that catches so many.
  */
  lemma BestIsSafest(scored: seq<Scored>, grid: seq<real>, operating: seq<Operating>, best: Operating, t: real)
    requires |operating| == |grid| && forall i :: 0 <= i < |grid| ==> operating[i] == Confusion(scored, grid[i])
    requires Eligible(operating, best) && forall p :: Eligible(operating, p) ==> AtLeastAsGood(best, p)
    requires t in grid && Count(scored, t, false, true) == 0
    ensures best.falsePositives == 0 && best.threshold in grid && best == Confusion(scored, best.threshold)
    ensures Count(scored, t, true, true) <= best.truePositives
    ensures Count(scored, t, true, true) == best.truePositives ==> t <= best.threshold
  {
    var p := Confusion(scored, t);
    var i :| 0 <= i < |grid| && grid[i] == t;
    assert p == operating[i] && p in operating && Clean(p);
    assert Clean(best);
    var j :| 0 <= j < |operating| && operating[j] == best;
    CountsPartition(scored, t);
    CountsPartition(scored, best.threshold);
    if Labelled(scored, true) > 0 {
      RateOrder(best.truePositives, p.truePositives, Labelled(scored, true));
      RateOrder(p.truePositives, best.truePositives, Labelled(scored, true));
    }
    assert Eligible(operating, p);
  }

  /** On a separable set, a grid that reaches between the two labels makes the best point perfect. */
  lemma SeparableMakesPerfect(scored: seq<Scored>, grid: seq<real>, operating: seq<Operating>, best: Operating, t: real)
    requires |operating| == |grid| && forall i :: 0 <= i < |grid| ==> operating[i] == Confusion(scored, grid[i])
    requires Eligible(operating, best) && forall p :: Eligible(operating, p) ==> AtLeastAsGood(best, p)
    requires SaysSeparable(scored) && t in grid
    requires Separable(scored).highestNegative < t <= Separable(scored).lowestPositive
    ensures Safe(scored, best.threshold) && best.Tpr() == 1.0 && best.Fpr() == 0.0
  {
    SafeBetween(scored, t);
    BestIsSafest(scored, grid, operating, best, t);
    PerfectRates(scored, t, best);
  }

  lemma PerfectRates(scored: seq<Scored>, t: real, best: Operating)
    requires Safe(scored, t) && Labelled(scored, true) > 0
    requires best == Confusion(scored, best.threshold) && best.falsePositives == 0
    requires Count(scored, t, true, true) <= best.truePositives
    ensures Safe(scored, best.threshold) && best.Tpr() == 1.0 && best.Fpr() == 0.0
  {
    CountsPartition(scored, t);
    CountsPartition(scored, best.threshold);
    FullRate(best.Positives() as real);
  }

  lemma FullRate(n: real)
    requires n != 0.0
    ensures n / n == 1.0
  {
  }

  lemma SafeBetween(scored: seq<Scored>, t: real)
    requires SaysSeparable(scored)
    requires Separable(scored).highestNegative < t <= Separable(scored).lowestPositive
    ensures Safe(scored, t) && Labelled(scored, true) > 0
  {
    SafeIff(scored, t);
    SeparableIffSomeSafe(scored);
  }

  // --------------------------------------------------------------------------- knee

  function Drop(operating: seq<Operating>, i: nat): real
    requires i + 1 < |operating|
  {
    operating[i].Fpr() - operating[i + 1].Fpr()
  }

  /** Whether the step at `i` comes before the step at `j` in the search for the steepest. */
  predicate SteeperOrLower(operating: seq<Operating>, i: nat, j: nat)
    requires i + 1 < |operating| && j + 1 < |operating|
  {
    || Drop(operating, i) > Drop(operating, j)
    || (Drop(operating, i) == Drop(operating, j) && operating[i].threshold <= operating[j].threshold)
  }

  lemma StillSteepest(operating: seq<Operating>, k: nat, i: nat)
    requires k < i < |operating| - 1 && !SteeperOrLower(operating, k, i)
    requires forall j :: 0 <= j < i ==> SteeperOrLower(operating, k, j)
    ensures forall j :: 0 <= j <= i ==> SteeperOrLower(operating, i, j)
  {
    forall j | 0 <= j < i
      ensures SteeperOrLower(operating, i, j)
    {
      assert SteeperOrLower(operating, k, j);
    }
  }

  /** The step across which the collision rate falls furthest; of equals, the one at the lowest threshold. */
  method SteepestFprDrop(operating: seq<Operating>) returns (knee: Option<nat>)
    ensures knee.None? <==> |operating| < 2
    ensures knee.Some? ==> knee.value + 1 < |operating|
    ensures knee.Some? ==> forall j :: 0 <= j < |operating| - 1 ==> SteeperOrLower(operating, knee.value, j)
  {
    if |operating| < 2 {
      return None;
    }
    var k := 0;
    for i := 1 to |operating| - 1
      invariant k < i
      invariant forall j :: 0 <= j < i ==> SteeperOrLower(operating, k, j)
    {
      if !SteeperOrLower(operating, k, i) {
        StillSteepest(operating, k, i);
        k := i;
      }
    }
    knee := Some(k);
  }

  /** On a rising grid the curve only falls, so it is flat at its steepest exactly when no step changes a count. */
  lemma FlatIffNothingChanges(scored: seq<Scored>, grid: seq<real>, operating: seq<Operating>, knee: nat)
    requires |operating| == |grid| && forall i :: 0 <= i < |grid| ==> operating[i] == Confusion(scored, grid[i])
    requires forall i :: 0 <= i < |grid| - 1 ==> grid[i] <= grid[i + 1]
    requires knee + 1 < |operating| && forall j :: 0 <= j < |operating| - 1 ==> SteeperOrLower(operating, knee, j)
    ensures Drop(operating, knee) >= 0.0
    ensures Drop(operating, knee) <= 0.0 <==>
            operating[0].falsePositives == operating[|operating| - 1].falsePositives
  {
    forall i | 0 <= i < |operating| - 1
      ensures Drop(operating, i) >= 0.0
      ensures Drop(operating, i) == 0.0 <==> operating[i].falsePositives == operating[i + 1].falsePositives
    {
      StepFalls(scored, grid[i], grid[i + 1]);
    }
    if Drop(operating, knee) <= 0.0 {
      forall i | 0 <= i < |operating| - 1
        ensures operating[i].falsePositives == operating[i + 1].falsePositives
      {
        assert SteeperOrLower(operating, knee, i);
      }
      AllEqual(operating, |operating| - 1);
    } else {
      StepFalls(scored, grid[knee], grid[knee + 1]);
      Falls(scored, grid, 0, knee);
      Falls(scored, grid, knee + 1, |grid| - 1);
    }
  }

  lemma StepFalls(scored: seq<Scored>, t: real, u: real)
    requires t <= u
    ensures Confusion(scored, u).falsePositives <= Confusion(scored, t).falsePositives
    ensures Confusion(scored, u).Fpr() <= Confusion(scored, t).Fpr()
    ensures Confusion(scored, t).Fpr() == Confusion(scored, u).Fpr()
            <==> Confusion(scored, t).falsePositives == Confusion(scored, u).falsePositives
  {
    SweepIsMonotone(scored, t, u, false);
    CountsPartition(scored, t);
    CountsPartition(scored, u);
    var n := Labelled(scored, false);
    if n > 0 {
      RateOrder(Confusion(scored, u).falsePositives, Confusion(scored, t).falsePositives, n);
      RateOrder(Confusion(scored, t).falsePositives, Confusion(scored, u).falsePositives, n);
    }
  }

  lemma {:induction false} AllEqual(operating: seq<Operating>, k: nat)
    requires k < |operating|
    requires forall i :: 0 <= i < |operating| - 1 ==> operating[i].falsePositives == operating[i + 1].falsePositives
    ensures operating[0].falsePositives == operating[k].falsePositives
  {
    if k > 0 {
      AllEqual(operating, k - 1);
    }
  }

  lemma {:induction false} Falls(scored: seq<Scored>, grid: seq<real>, a: nat, b: nat)
    requires a <= b < |grid| && forall i :: 0 <= i < |grid| - 1 ==> grid[i] <= grid[i + 1]
    ensures Confusion(scored, grid[b]).falsePositives <= Confusion(scored, grid[a]).falsePositives
    decreases b
  {
    if a < b {
      Falls(scored, grid, a, b - 1);
      StepFalls(scored, grid[b - 1], grid[b]);
    }
  }

  // --------------------------------------------------------------------------- grid

  datatype Grid = Grid(values: seq<real>) | StepNotPositive | EmptyRange

  const TOLERANCE := 0.000000001
  const MILLION := 1000000.0

  /** Millionths, rounded to the nearest, a half to the even one. */
  function Ticks(x: real): int {
    var below := (x * MILLION).Floor;
    var rest := x * MILLION - below as real;
    if rest < 0.5 || (rest == 0.5 && below % 2 == 0) then below else below + 1
  }

  /** `round(x, 6)`. */
  function Round6(x: real): real {
    Ticks(x) as real / MILLION
  }

  /** How many steps from `low` stay within `high`, floored with a tolerance. */
  function StepCount(low: real, high: real, step: real): int
    requires step > 0.0
  {
    ((high - low) / step + TOLERANCE).Floor
  }

  /** A value of the grid before it is rounded. */
  function Unrounded(low: real, step: real, i: int): real {
    low + i as real * step
  }

  /** The thresholds from `low` to `high`, to six digits. */
  function Thresholds(low: real, high: real, step: real): Grid {
    if step <= 0.0 then StepNotPositive
    else if high < low then EmptyRange
    else
      StepsNonNegative(high - low, step);
      Grid(seq(StepCount(low, high, step) + 1, i => Round6(Unrounded(low, step, i))))
  }

  lemma StepsNonNegative(width: real, step: real)
    requires width >= 0.0 && step > 0.0
    ensures width / step >= 0.0
  {
  }

  lemma TicksRise(x: real, y: real)
    requires x <= y
    ensures Ticks(x) <= Ticks(y)
  {
    var a, b := x * MILLION, y * MILLION;
    assert a <= b;
    assert a.Floor <= b.Floor;
  }

  /** Rounding lands within a bound exactly when the value is less than half a tick over the bound's own, or just half over an even one. */
  predicate LandsWithin(x: real, bound: real) {
    var over := x * MILLION - (bound * MILLION).Floor as real;
    over < 0.5 || (over == 0.5 && (bound * MILLION).Floor % 2 == 0)
  }

  lemma RoundWithinIff(x: real, bound: real)
    ensures Round6(x) <= bound <==> LandsWithin(x, bound)
  {
    var ticks, top := Ticks(x), (bound * MILLION).Floor;
    assert Round6(x) * MILLION == ticks as real;
    assert Round6(x) <= bound <==> ticks as real <= bound * MILLION;
    assert ticks as real <= bound * MILLION <==> ticks <= top;
    NearestWithin(x * MILLION, ticks, top);
  }

  lemma NearestWithin(y: real, nearest: int, top: int)
    requires nearest == (if y - y.Floor as real < 0.5 || (y - y.Floor as real == 0.5 && y.Floor % 2 == 0)
                         then y.Floor else y.Floor + 1)
    ensures nearest <= top <==> y - top as real < 0.5 || (y - top as real == 0.5 && top % 2 == 0)
  {
  }

  /**
    The grid begins at `low`, rounded, and never falls; all of it stays within `high`
    exactly when its last step, before rounding, is one that rounding brings within.
  */
  lemma GridStaysInRangeIff(low: real, high: real, step: real)
    requires Thresholds(low, high, step).Grid?
    ensures
      var g := Thresholds(low, high, step).values;
      && g != [] && g[0] == Round6(low)
      && (forall i :: 0 <= i < |g| - 1 ==> g[i] <= g[i + 1])
      && ((forall i :: 0 <= i < |g| ==> g[i] <= high) <==>
          LandsWithin(Unrounded(low, step, StepCount(low, high, step)), high))
  {
    var g, count := Thresholds(low, high, step).values, StepCount(low, high, step);
    StepsNonNegative(high - low, step);
    assert |g| == count + 1;
    assert Unrounded(low, step, 0) == low;
    forall i, j | 0 <= i <= j < |g|
      ensures g[i] <= g[j]
    {
      StepRises(low, step, i, j);
    }
    RoundWithinIff(Unrounded(low, step, count), high);
    LastIsHighest(g, high);
  }

  lemma StepRises(low: real, step: real, i: int, j: int)
    requires step > 0.0 && i <= j
    ensures Round6(Unrounded(low, step, i)) <= Round6(Unrounded(low, step, j))
  {
    UnroundedRises(low, step, i, j);
    TicksRise(Unrounded(low, step, i), Unrounded(low, step, j));
  }

  lemma UnroundedRises(low: real, step: real, i: int, j: int)
    requires step > 0.0 && i <= j
    ensures Unrounded(low, step, i) <= Unrounded(low, step, j)
  {
    Scaled(i as real, j as real, step);
    Shifted(low, i as real * step, j as real * step);
  }

  lemma Shifted(base: real, a: real, b: real)
    requires a <= b
    ensures base + a <= base + b
  {
  }

  lemma LastIsHighest(g: seq<real>, high: real)
    requires g != [] && forall i, j :: 0 <= i <= j < |g| ==> g[i] <= g[j]
    ensures (forall i :: 0 <= i < |g| ==> g[i] <= high) <==> g[|g| - 1] <= high
  {
    forall i | 0 <= i < |g|
      ensures g[i] <= g[|g| - 1]
    {
    }
  }

  predicate SixDigits(x: real) {
    (x * MILLION).Floor as real == x * MILLION
  }

  lemma Exact(x: real)
    requires SixDigits(x)
    ensures Round6(x) == x
  {
  }

  /** On six-digit inputs with a step under a thousand neither the tolerance nor the rounding does any harm. */
  lemma SixDigitGridStays(low: real, high: real, step: real)
    requires Thresholds(low, high, step).Grid? && SixDigits(low) && SixDigits(high) && SixDigits(step) && step < 1000.0
    ensures
      var g := Thresholds(low, high, step).values;
      forall i :: 0 <= i < |g| ==> g[i] == Unrounded(low, step, i) && g[i] <= high
  {
    var g, count := Thresholds(low, high, step).values, StepCount(low, high, step);
    StepsNonNegative(high - low, step);
    var l, h, s := (low * MILLION).Floor, (high * MILLION).Floor, (step * MILLION).Floor;
    CountTicks(low, high, step, count);
    forall i | 0 <= i < |g|
      ensures g[i] == Unrounded(low, step, i) && g[i] <= high
    {
      UnroundedTicks(low, step, i, l, s);
      Exact(Unrounded(low, step, i));
      TicksBelow(l, h, s, i, count);
      assert Unrounded(low, step, i) * MILLION <= high * MILLION;
    }
  }

  lemma UnroundedTicks(low: real, step: real, i: int, l: int, s: int)
    requires l as real == low * MILLION && s as real == step * MILLION
    ensures Unrounded(low, step, i) * MILLION == (l + i * s) as real
    ensures SixDigits(Unrounded(low, step, i))
  {
    Regrouped(i as real, step, MILLION);
    Spread(low, i as real * step, MILLION);
    WholeProduct(i, s);
    WholeTicks(Unrounded(low, step, i), l + i * s);
  }

  lemma Spread(a: real, b: real, c: real)
    ensures (a + b) * c == a * c + b * c
  {
  }

  lemma WholeProduct(i: int, s: int)
    ensures (i * s) as real == i as real * s as real
  {
  }

  lemma WholeTicks(x: real, n: int)
    requires x * MILLION == n as real
    ensures SixDigits(x)
  {
  }

  /** In whole ticks the tolerance is too small to buy a step. */
  lemma CountTicks(low: real, high: real, step: real, count: int)
    requires step > 0.0 && step < 1000.0 && count == StepCount(low, high, step)
    requires SixDigits(low) && SixDigits(high) && SixDigits(step)
    ensures (low * MILLION).Floor + count * (step * MILLION).Floor <= (high * MILLION).Floor
  {
    var l, h, s := (low * MILLION).Floor, (high * MILLION).Floor, (step * MILLION).Floor;
    var steps := (high - low) / step;
    DivideBack(high - low, step);
    Scaled(count as real, steps + TOLERANCE, step);
    assert count as real * step <= high - low + TOLERANCE * step;
    UnroundedTicks(low, step, count, l, s);
    assert Unrounded(low, step, count) * MILLION <= high * MILLION + TOLERANCE * step * MILLION;
  }

  lemma TicksBelow(l: int, h: int, s: int, i: int, count: int)
    requires 0 <= i <= count && s >= 0 && l + count * s <= h
    ensures l + i * s <= h
  {
    assert (count - i) * s >= 0;
  }

  lemma Scaled(a: real, b: real, step: real)
    requires step > 0.0 && a <= b
    ensures a * step <= b * step
  {
    assert (b - a) * step >= 0.0;
  }

  /** The tolerance alone can pass the end: the range is a hair short of one step. */
  lemma ToleranceOvershoots()
    ensures
      var g := Thresholds(0.0, 0.9999999995, 1.0);
      g.Grid? && g.values[|g.values| - 1] > 0.9999999995
  {
    assert StepCount(0.0, 0.9999999995, 1.0) == 1;
    assert Ticks(1.0) == 1000000;
  }

  /** Rounding alone can pass the end: the range is one value, and rounds up. */
  lemma RoundingOvershoots()
    ensures
      var g := Thresholds(0.0000006, 0.0000006, 1.0);
      g.Grid? && g.values[|g.values| - 1] > 0.0000006
  {
    assert StepCount(0.0000006, 0.0000006, 1.0) == 0;
    assert Ticks(0.0000006) == 1;
  }
}
