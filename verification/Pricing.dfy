/** The price table, and the only way money is computed.  Amounts are exact reals. */
module Pricing {
  import opened Reals
  import opened Wrappers

  datatype ModelPrice = ModelPrice(input: real, output: real)

  datatype Pricing = Pricing(
    unitTokens: int, default: ModelPrice, models: map<string, ModelPrice>, cacheRead: real, cacheWrite: real)

  /** A configuration without negative prices; the unit is checked when it is read. */
  ghost predicate NonNegative(p: Pricing) {
    && p.unitTokens > 0
    && p.default.input >= 0.0 && p.default.output >= 0.0
    && (forall m :: m in p.models ==> p.models[m].input >= 0.0 && p.models[m].output >= 0.0)
    && p.cacheRead >= 0.0 && p.cacheWrite >= 0.0
  }

  function Candidates(p: Pricing, model: string): set<string> {
    set name | name in p.models && name <= model
  }

  predicate Longest(names: set<string>, best: string) {
    best in names && forall n :: n in names ==> |n| <= |best|
  }

  lemma {:induction false} LongestExists(names: set<string>)
    requires names != {}
    ensures exists best :: Longest(names, best)
    decreases names
  {
    var n :| n in names;
    if names == {n} {
      assert Longest(names, n);
    } else {
      LongestExists(names - {n});
      var best :| Longest(names - {n}, best);
      assert Longest(names, if |n| > |best| then n else best);
    }
  }

  /** Two prefixes of one name with the same length are one prefix. */
  lemma LongestIsUnique(p: Pricing, model: string, a: string, b: string)
    requires Longest(Candidates(p, model), a) && Longest(Candidates(p, model), b)
    ensures a == b
  {
    assert a == model[..|a|] && b == model[..|b|];
  }

  /** Exact match first, then the longest configured prefix, then the default row. */
  function PriceFor(p: Pricing, model: Option<string>): ModelPrice {
    if model.None? || model.value == "" then p.default
    else if model.value in p.models then p.models[model.value]
    else if Candidates(p, model.value) == {} then p.default
    else
      LongestExists(Candidates(p, model.value));
      assert forall a, b :: Longest(Candidates(p, model.value), a) && Longest(Candidates(p, model.value), b) ==> a == b by {
        forall a, b | Longest(Candidates(p, model.value), a) && Longest(Candidates(p, model.value), b) {
          LongestIsUnique(p, model.value, a, b);
        }
      }
      var best :| best in Candidates(p, model.value) && Longest(Candidates(p, model.value), best);
      p.models[best]
  }

  /** A model the table decorates with a longer name is priced by that row, never by a shorter one. */
  lemma PrefixPricing(p: Pricing, model: string, name: string)
    requires model != "" && model !in p.models && name in p.models && name <= model
    requires forall other :: other in p.models && other <= model ==> |other| <= |name|
    ensures PriceFor(p, Some(model)) == p.models[name]
  {
    assert Longest(Candidates(p, model), name);
    forall other | Longest(Candidates(p, model), other)
      ensures other == name
    {
      LongestIsUnique(p, model, other, name);
    }
  }

  function Clip(tokens: int): real {
    if tokens > 0 then tokens as real else 0.0
  }

  datatype Usage = Usage(input: int, output: int, cacheRead: int, cacheWrite: int)

  function Cost(p: Pricing, model: Option<string>, u: Usage): real
    requires p.unitTokens > 0
  {
    var row := PriceFor(p, model);
    var perIn, perOut := row.input / p.unitTokens as real, row.output / p.unitTokens as real;
    Billed(perIn, perOut, p.cacheRead, p.cacheWrite, u)
  }

  function Billed(perIn: real, perOut: real, cacheRead: real, cacheWrite: real, u: Usage): real {
    Clip(u.input) * perIn + Clip(u.output) * perOut
    + Clip(u.cacheRead) * perIn * cacheRead + Clip(u.cacheWrite) * perIn * cacheWrite
  }

  lemma RowNonNegative(p: Pricing, model: Option<string>)
    requires NonNegative(p)
    ensures PriceFor(p, model).input >= 0.0 && PriceFor(p, model).output >= 0.0
  {
  }

  lemma Product(a: real, b: real, c: real)
    requires 0.0 <= a <= b && c >= 0.0
    ensures 0.0 <= a * c <= b * c
  {
    assert (b - a) * c >= 0.0;
  }

  lemma Quotient(a: real, n: int)
    requires a >= 0.0 && n > 0
    ensures a / n as real >= 0.0
  {
  }

  /**
    What makes a projection an upper bound: a call that uses no more input and output
    than projected, touches no cache and is billed against the projected model costs
    no more than the projection.
  */
  lemma ProjectionBounds(p: Pricing, model: Option<string>, actual: Usage, projected: Usage)
    requires NonNegative(p)
    requires actual.input <= projected.input && actual.output <= projected.output
    requires actual.cacheRead <= 0 && actual.cacheWrite <= 0
    requires projected.cacheRead == 0 && projected.cacheWrite == 0
    ensures 0.0 <= Cost(p, model, actual) <= Cost(p, model, projected)
  {
    var row := PriceFor(p, model);
    RowNonNegative(p, model);
    Quotient(row.input, p.unitTokens);
    Quotient(row.output, p.unitTokens);
    BilledBounds(row.input / p.unitTokens as real, row.output / p.unitTokens as real, p.cacheRead, p.cacheWrite,
      actual, projected);
  }

  lemma BilledBounds(perIn: real, perOut: real, cacheRead: real, cacheWrite: real, actual: Usage, projected: Usage)
    requires perIn >= 0.0 && perOut >= 0.0
    requires actual.input <= projected.input && actual.output <= projected.output
    requires actual.cacheRead <= 0 && actual.cacheWrite <= 0
    requires projected.cacheRead == 0 && projected.cacheWrite == 0
    ensures 0.0 <= Billed(perIn, perOut, cacheRead, cacheWrite, actual)
              <= Billed(perIn, perOut, cacheRead, cacheWrite, projected)
  {
    NoCache(perIn, perOut, cacheRead, cacheWrite, actual);
    NoCache(perIn, perOut, cacheRead, cacheWrite, projected);
    var a, b := Clip(actual.input), Clip(projected.input);
    var c, d := Clip(actual.output), Clip(projected.output);
    Product(a, b, perIn);
    Product(c, d, perOut);
    Added(a * perIn, b * perIn, c * perOut, d * perOut);
  }

  lemma Added(a: real, b: real, c: real, d: real)
    requires 0.0 <= a <= b && 0.0 <= c <= d
    ensures 0.0 <= a + c <= b + d
  {
  }

  lemma NoCache(perIn: real, perOut: real, cacheRead: real, cacheWrite: real, u: Usage)
    requires u.cacheRead <= 0 && u.cacheWrite <= 0
    ensures Billed(perIn, perOut, cacheRead, cacheWrite, u) == Clip(u.input) * perIn + Clip(u.output) * perOut
  {
    assert Clip(u.cacheRead) * perIn == 0.0 && Clip(u.cacheWrite) * perIn == 0.0;
  }

  lemma CostNonNegative(p: Pricing, model: Option<string>, u: Usage)
    requires NonNegative(p)
    ensures Cost(p, model, u) >= 0.0
  {
    var row := PriceFor(p, model);
    RowNonNegative(p, model);
    Quotient(row.input, p.unitTokens);
    Quotient(row.output, p.unitTokens);
    BilledNonNegative(row.input / p.unitTokens as real, row.output / p.unitTokens as real, p.cacheRead, p.cacheWrite, u);
  }

  lemma BilledNonNegative(perIn: real, perOut: real, cacheRead: real, cacheWrite: real, u: Usage)
    requires perIn >= 0.0 && perOut >= 0.0 && cacheRead >= 0.0 && cacheWrite >= 0.0
    ensures Billed(perIn, perOut, cacheRead, cacheWrite, u) >= 0.0
  {
    Product(0.0, Clip(u.input), perIn);
    Product(0.0, Clip(u.output), perOut);
    CacheNonNegative(Clip(u.cacheRead), perIn, cacheRead);
    CacheNonNegative(Clip(u.cacheWrite), perIn, cacheWrite);
  }

  lemma CacheNonNegative(tokens: real, perIn: real, factor: real)
    requires tokens >= 0.0 && perIn >= 0.0 && factor >= 0.0
    ensures tokens * perIn * factor >= 0.0
  {
    Product(0.0, tokens, perIn);
    Product(0.0, tokens * perIn, factor);
  }

  // ------------------------------------------- when a projection is an upper bound

  function PerInput(p: Pricing, model: Option<string>): real
    requires p.unitTokens > 0
  {
    PriceFor(p, model).input / p.unitTokens as real
  }

  function PerOutput(p: Pricing, model: Option<string>): real
    requires p.unitTokens > 0
  {
    PriceFor(p, model).output / p.unitTokens as real
  }

  /** A projection: so many tokens in and out, no cache, at the price of the model asked for. */
  function Projection(p: Pricing, model: Option<string>, input: int, output: int): real
    requires p.unitTokens > 0
  {
    Cost(p, model, Usage(input, output, 0, 0))
  }

  /**
    The most a reply may use, its output up to the ceiling sent, costs no more with the
    model billed than was projected, with the ceiling priced, for the model asked for.
  */
  predicate NoDearer(p: Pricing, billed: Option<string>, asked: Option<string>, input: int, sent: int, priced: int)
    requires p.unitTokens > 0
  {
    Projection(p, billed, input, sent) <= Projection(p, asked, input, priced)
  }

  /** Tokens served from or written to the cache are free at the price billed. */
  predicate CacheFree(p: Pricing, billed: Option<string>)
    requires p.unitTokens > 0
  {
    PerInput(p, billed) * p.cacheRead == 0.0 && PerInput(p, billed) * p.cacheWrite == 0.0
  }

  ghost predicate Within(u: Usage, input: int, output: int) {
    u.input <= input && u.output <= output
  }

  /**
    Over calls that touch no cache, the projection bounds every call within the input
    estimated and the output ceiling sent exactly when the dearest of them is no dearer.
  */
  lemma BoundWithoutCacheIff(
    p: Pricing, billed: Option<string>, asked: Option<string>, input: int, sent: int, priced: int)
    requires NonNegative(p)
    ensures (forall u :: Within(u, input, sent) && u.cacheRead <= 0 && u.cacheWrite <= 0 ==>
               Cost(p, billed, u) <= Projection(p, asked, input, priced))
            <==> NoDearer(p, billed, asked, input, sent, priced)
  {
    var full := Usage(input, sent, 0, 0);
    if NoDearer(p, billed, asked, input, sent, priced) {
      forall u | Within(u, input, sent) && u.cacheRead <= 0 && u.cacheWrite <= 0
        ensures Cost(p, billed, u) <= Projection(p, asked, input, priced)
      {
        ProjectionBounds(p, billed, u, full);
      }
    } else {
      assert Within(full, input, sent) && !(Cost(p, billed, full) <= Projection(p, asked, input, priced));
    }
  }

  /** Over all calls, cached ones included, cache tokens must be free as well. */
  lemma BoundWithCacheIff(
    p: Pricing, billed: Option<string>, asked: Option<string>, input: int, sent: int, priced: int)
    requires NonNegative(p)
    ensures (forall u :: Within(u, input, sent) ==> Cost(p, billed, u) <= Projection(p, asked, input, priced))
            <==> NoDearer(p, billed, asked, input, sent, priced) && CacheFree(p, billed)
  {
    BoundWithoutCacheIff(p, billed, asked, input, sent, priced);
    if CacheFree(p, billed) {
      forall u | Within(u, input, sent)
        ensures Cost(p, billed, u) == Cost(p, billed, u.(cacheRead := 0, cacheWrite := 0))
      {
        FreeCache(p, billed, u);
      }
      if NoDearer(p, billed, asked, input, sent, priced) {
        forall u | Within(u, input, sent)
          ensures Cost(p, billed, u) <= Projection(p, asked, input, priced)
        {
          assert Within(u.(cacheRead := 0, cacheWrite := 0), input, sent);
        }
      }
    } else {
      var u := DearCache(p, billed, input, sent, Projection(p, asked, input, priced));
      assert Within(u, input, sent);
    }
  }

  /**
    The input projected is an estimate that no provider is held to.  Over calls with any
    input at all the projection is a bound only where input is free.
  */
  lemma BoundWithAnyInputIff(
    p: Pricing, billed: Option<string>, asked: Option<string>, input: int, sent: int, priced: int)
    requires NonNegative(p)
    ensures (forall u: Usage :: u.output <= sent && u.cacheRead <= 0 && u.cacheWrite <= 0 ==>
               Cost(p, billed, u) <= Projection(p, asked, input, priced))
            <==> NoDearer(p, billed, asked, input, sent, priced) && PerInput(p, billed) == 0.0
  {
    var bound := Projection(p, asked, input, priced);
    if PerInput(p, billed) == 0.0 {
      forall u: Usage | u.output <= sent && u.cacheRead <= 0 && u.cacheWrite <= 0
        ensures Cost(p, billed, u) <= Projection(p, billed, input, sent)
      {
        FreeInput(p, billed, u, input, sent);
      }
      assert Usage(input, sent, 0, 0).output <= sent;
    } else {
      var u := DearInput(p, billed, sent, bound);
    }
  }

  lemma FreeInput(p: Pricing, model: Option<string>, u: Usage, input: int, sent: int)
    requires NonNegative(p) && PerInput(p, model) == 0.0
    requires u.output <= sent && u.cacheRead <= 0 && u.cacheWrite <= 0
    ensures Cost(p, model, u) <= Projection(p, model, input, sent)
  {
    OutputOnly(p, model, u);
    OutputOnly(p, model, Usage(input, sent, 0, 0));
    RowNonNegative(p, model);
    Quotient(PriceFor(p, model).output, p.unitTokens);
    Product(Clip(u.output), Clip(sent), PerOutput(p, model));
  }

  lemma OutputOnly(p: Pricing, model: Option<string>, u: Usage)
    requires p.unitTokens > 0 && PerInput(p, model) == 0.0 && u.cacheRead <= 0 && u.cacheWrite <= 0
    ensures Cost(p, model, u) == Clip(u.output) * PerOutput(p, model)
  {
    NoCache(PerInput(p, model), PerOutput(p, model), p.cacheRead, p.cacheWrite, u);
  }

  /** With a price on input, a prompt long enough passes any bound. */
  lemma DearInput(p: Pricing, model: Option<string>, sent: int, bound: real) returns (u: Usage)
    requires NonNegative(p) && PerInput(p, model) != 0.0
    ensures u.output <= sent && u.cacheRead <= 0 && u.cacheWrite <= 0 && Cost(p, model, u) > bound
  {
    RowNonNegative(p, model);
    Quotient(PriceFor(p, model).input, p.unitTokens);
    Quotient(PriceFor(p, model).output, p.unitTokens);
    var n := Enough(PerInput(p, model), bound);
    u := Usage(n, sent, 0, 0);
    NoCache(PerInput(p, model), PerOutput(p, model), p.cacheRead, p.cacheWrite, u);
    Product(0.0, Clip(sent), PerOutput(p, model));
  }

  /** Where output has a price and the model billed is the one asked for, the ceiling sent must be the one priced. */
  lemma CeilingSentIff(p: Pricing, model: Option<string>, input: int, sent: int, priced: int)
    requires NonNegative(p) && PerOutput(p, model) > 0.0
    ensures NoDearer(p, model, model, input, sent, priced) <==> sent <= priced || sent <= 0
  {
    ProjectionFormula(p, model, input, sent);
    ProjectionFormula(p, model, input, priced);
    Ordered(Clip(input) * PerInput(p, model), Clip(sent), Clip(priced), PerOutput(p, model));
  }

  lemma Ordered(base: real, a: real, b: real, unit: real)
    requires 0.0 <= a && 0.0 <= b && unit > 0.0
    ensures base + a * unit <= base + b * unit <==> a <= b
  {
    if a <= b {
      Product(a, b, unit);
    } else {
      Surpasses(a, b, unit);
    }
  }

  /** What a projection comes to: its tokens, each at its price. */
  lemma ProjectionFormula(p: Pricing, model: Option<string>, input: int, output: int)
    requires p.unitTokens > 0
    ensures Projection(p, model, input, output) ==
            Clip(input) * PerInput(p, model) + Clip(output) * PerOutput(p, model)
  {
    NoCache(PerInput(p, model), PerOutput(p, model), p.cacheRead, p.cacheWrite, Usage(input, output, 0, 0));
  }

  lemma FreeCache(p: Pricing, model: Option<string>, u: Usage)
    requires p.unitTokens > 0 && CacheFree(p, model)
    ensures Cost(p, model, u) == Cost(p, model, u.(cacheRead := 0, cacheWrite := 0))
  {
    Regrouped(Clip(u.cacheRead), PerInput(p, model), p.cacheRead);
    Regrouped(Clip(u.cacheWrite), PerInput(p, model), p.cacheWrite);
    ProjectionFormula(p, model, u.input, u.output);
  }

  /** With a price on cache tokens, some number of them passes any bound. */
  lemma DearCache(p: Pricing, model: Option<string>, input: int, output: int, bound: real) returns (u: Usage)
    requires NonNegative(p) && !CacheFree(p, model)
    ensures Within(u, input, output) && Cost(p, model, u) > bound
  {
    var perIn, perOut := PerInput(p, model), PerOutput(p, model);
    RowNonNegative(p, model);
    Quotient(PriceFor(p, model).input, p.unitTokens);
    Quotient(PriceFor(p, model).output, p.unitTokens);
    var read := perIn * p.cacheRead != 0.0;
    var factor := if read then p.cacheRead else p.cacheWrite;
    Product(0.0, perIn, factor);
    var n := Enough(perIn * factor, bound);
    u := if read then Usage(input, output, n, 0) else Usage(input, output, 0, n);
    Regrouped(n as real, perIn, factor);
    CacheCounts(perIn, perOut, p.cacheRead, p.cacheWrite, u);
  }

  lemma CacheCounts(perIn: real, perOut: real, cacheRead: real, cacheWrite: real, u: Usage)
    requires perIn >= 0.0 && perOut >= 0.0 && cacheRead >= 0.0 && cacheWrite >= 0.0
    ensures Billed(perIn, perOut, cacheRead, cacheWrite, u) >= Clip(u.cacheRead) * perIn * cacheRead
    ensures Billed(perIn, perOut, cacheRead, cacheWrite, u) >= Clip(u.cacheWrite) * perIn * cacheWrite
  {
    Product(0.0, Clip(u.input), perIn);
    Product(0.0, Clip(u.output), perOut);
    CacheNonNegative(Clip(u.cacheRead), perIn, cacheRead);
    CacheNonNegative(Clip(u.cacheWrite), perIn, cacheWrite);
  }

  lemma Enough(unit: real, bound: real) returns (n: int)
    requires unit > 0.0
    ensures n > 0 && n as real * unit > bound
  {
    var times := bound / unit;
    assert times * unit == bound;
    n := if times < 0.0 then 1 else times.Floor + 1;
    Surpasses(n as real, times, unit);
  }

  lemma Surpasses(a: real, b: real, unit: real)
    requires a > b && unit > 0.0
    ensures a * unit > b * unit
  {
    assert (a - b) * unit > 0.0;
  }

  /** One token read from the cache, in a call projected to use nothing, costs more than its projection. */
  lemma CachePassesProjection()
    ensures
      var p := Pricing(1, ModelPrice(1.0, 1.0), map[], 1.0, 1.0);
      NonNegative(p) && Cost(p, None, Usage(0, 0, 1, 0)) > Projection(p, None, 0, 0)
  {
    var p := Pricing(1, ModelPrice(1.0, 1.0), map[], 1.0, 1.0);
    assert PriceFor(p, None) == ModelPrice(1.0, 1.0);
  }

  /** A reply from a dearer model than the one asked for costs more than its projection, within its tokens. */
  lemma ModelPassesProjection() returns (p: Pricing)
    ensures NonNegative(p) && Cost(p, Some("dear"), Usage(1, 0, 0, 0)) > Projection(p, None, 1, 0)
  {
    p := DearModel();
    OneToken(p, Some("dear"));
    OneToken(p, None);
  }

  lemma OneToken(p: Pricing, model: Option<string>)
    requires p.unitTokens > 0
    ensures Cost(p, model, Usage(1, 0, 0, 0)) == PerInput(p, model)
    ensures Projection(p, model, 1, 0) == PerInput(p, model)
  {
    ProjectionFormula(p, model, 1, 0);
    assert Clip(1) * PerInput(p, model) == PerInput(p, model) && Clip(0) * PerOutput(p, model) == 0.0;
  }

  lemma DearModel() returns (p: Pricing)
    ensures NonNegative(p) && PerInput(p, None) == 1.0 && PerInput(p, Some("dear")) == 2.0
  {
    p := Pricing(1, ModelPrice(1.0, 1.0), map["dear" := ModelPrice(2.0, 2.0)], 0.0, 0.0);
  }
}
