/**
  The capability ladder, cheapest rung first, and the stamp every new task gets with
  the tier its role declares.
*/
module Tiers {
  import opened Wrappers
  import opened LiveGraph

  datatype Tier = Tier(
    name: string, rank: nat, requestModel: Option<string>, maxTokens: Option<int>, priceModel: Option<string>,
    projectedInput: int, projectedOutput: int)

  /** The model a tier is billed against. */
  function BilledModel(t: Tier): Option<string> {
    if t.priceModel.Some? && t.priceModel.value != "" then t.priceModel else t.requestModel
  }

  /** The output that admission prices: the tier's ceiling; without one, its configured projection. */
  function MaxOutput(t: Tier): int {
    if t.maxTokens.Some? && t.maxTokens.value != 0 then t.maxTokens.value else t.projectedOutput
  }

  /** The fields of a request that bear on its cost; those left out are the next layer's business. */
  datatype Request = Request(model: Option<string>, maxTokens: Option<int>)

  /** The request of a tier, the caller's own fields winning. */
  function RequestFor(t: Tier, overrides: Request): Request {
    Request(if overrides.model.Some? then overrides.model else t.requestModel,
            if overrides.maxTokens.Some? then overrides.maxTokens else t.maxTokens)
  }

  datatype TierLadder = TierLadder(
    tiers: map<string, Tier>, order: seq<string>, roleTiers: map<string, string>, fallback: string)

  /** What construction from a configuration with distinct names guarantees. */
  ghost predicate Ladder(l: TierLadder) {
    && |l.order| > 0
    && (forall name :: name in l.tiers <==> name in l.order)
    && (forall i :: 0 <= i < |l.order| ==> l.order[i] in l.tiers && l.tiers[l.order[i]].rank == i)
    && (forall name :: name in l.tiers ==> l.tiers[name].name == name)
    && l.fallback in l.tiers
  }

  function Rung(l: TierLadder, i: nat): Tier
    requires Ladder(l) && i < |l.order|
  {
    l.tiers[l.order[i]]
  }

  function TierNamed(l: TierLadder, name: string): Tier
    requires Ladder(l)
  {
    if name in l.tiers then l.tiers[name] else l.tiers[l.fallback]
  }

  function ForRole(l: TierLadder, role: string): Tier
    requires Ladder(l)
  {
    if role != "" && role in l.roleTiers then TierNamed(l, l.roleTiers[role])
    else if "default" in l.roleTiers then TierNamed(l, l.roleTiers["default"])
    else l.tiers[l.fallback]
  }

  /** A tier of this ladder: what every lookup returns. */
  ghost predicate On(l: TierLadder, t: Tier)
    requires Ladder(l)
  {
    t.rank < |l.order| && Rung(l, t.rank) == t
  }

  lemma LookupsStayOnLadder(l: TierLadder, name: string)
    requires Ladder(l)
    ensures On(l, TierNamed(l, name)) && On(l, ForRole(l, name))
  {
    forall n | n in l.tiers
      ensures On(l, l.tiers[n])
    {
      var i :| 0 <= i < |l.order| && l.order[i] == n;
    }
  }

  /** One rung cheaper, if there is one. */
  function Downgrade(l: TierLadder, t: Tier): Option<Tier>
    requires Ladder(l) && On(l, t)
  {
    if t.rank > 0 then Some(Rung(l, t.rank - 1)) else None
  }

  /** Every rung below the first `n`, most capable first. */
  function BelowRank(l: TierLadder, n: nat): (ts: seq<Tier>)
    requires Ladder(l) && n <= |l.order|
    ensures |ts| == n && forall i :: 0 <= i < n ==> ts[i] == Rung(l, n - 1 - i)
  {
    if n == 0 then [] else [Rung(l, n - 1)] + BelowRank(l, n - 1)
  }

  function CheaperThan(l: TierLadder, t: Tier): seq<Tier>
    requires Ladder(l) && On(l, t)
  {
    BelowRank(l, t.rank)
  }

  datatype LadderError = NoTiers | UnknownDefault

  /** A configured tier before it is ranked; one without a row of its own is blank. */
  function Row(rows: map<string, Tier>, name: string): Tier {
    if name in rows then rows[name].(name := name) else Tier(name, 0, None, None, None, 0, 0)
  }

  /** The default a configuration names, or its default role's, or the first tier. */
  function DefaultOf(names: seq<string>, roleTiers: map<string, string>, named: Option<string>): string
    requires names != []
  {
    if named.Some? && named.value != "" then named.value
    else if "default" in roleTiers && roleTiers["default"] != "" then roleTiers["default"]
    else names[0]
  }

  predicate NoRepeats(names: seq<string>) {
    forall i, j :: 0 <= i < j < |names| ==> names[i] != names[j]
  }

  /** Whether the name at `i` is not listed again before `k`. */
  predicate LastAt(names: seq<string>, i: int, k: int)
    requires k <= |names|
  {
    0 <= i < k && forall j :: i < j < k ==> names[j] != names[i]
  }

  /**
    The ladder read from a configuration.  A name listed twice is ranked where it is
    listed last, and only then is the result no proper ladder.
  */
  method FromMapping(
    names: seq<string>, rows: map<string, Tier>, roleTiers: map<string, string>, named: Option<string>)
    returns (r: Result<TierLadder, LadderError>)
    ensures r.Success? <==> names != [] && DefaultOf(names, roleTiers, named) in names
    ensures r.Success? ==>
              var l := r.value;
              && l.order == names && l.roleTiers == roleTiers && l.fallback == DefaultOf(names, roleTiers, named)
              && (forall name :: name in l.tiers <==> name in names)
              && (forall i :: LastAt(names, i, |names|) ==>
                    l.tiers[names[i]] == Row(rows, names[i]).(rank := i))
              && (Ladder(l) <==> NoRepeats(names))
  {
    if names == [] {
      return Failure(NoTiers);
    }
    var tiers := RankAll(names, rows);
    var fallback := DefaultOf(names, roleTiers, named);
    if fallback !in tiers {
      return Failure(UnknownDefault);
    }
    var l := TierLadder(tiers, names, roleTiers, fallback);
    LadderIffNoRepeats(l, rows);
    return Success(l);
  }

  method RankAll(names: seq<string>, rows: map<string, Tier>) returns (tiers: map<string, Tier>)
    ensures forall name :: name in tiers <==> name in names
    ensures forall i :: LastAt(names, i, |names|) ==>
              tiers[names[i]] == Row(rows, names[i]).(rank := i)
    ensures forall name :: name in tiers ==> tiers[name].name == name
  {
    tiers := map[];
    for k := 0 to |names|
      invariant forall name :: name in tiers <==> name in names[..k]
      invariant forall i :: LastAt(names, i, k) ==>
                  tiers[names[i]] == Row(rows, names[i]).(rank := i)
      invariant forall name :: name in tiers ==> tiers[name].name == name
    {
      assert names[..k + 1] == names[..k] + [names[k]];
      assert forall i :: LastAt(names, i, k + 1) ==> i == k || (LastAt(names, i, k) && names[i] != names[k]);
      tiers := tiers[names[k] := Row(rows, names[k]).(rank := k)];
    }
    assert names[..|names|] == names;
  }

  /** A repeated name has one rank, and two places to be at. */
  lemma LadderIffNoRepeats(l: TierLadder, rows: map<string, Tier>)
    requires l.order != [] && l.fallback in l.tiers
    requires forall name :: name in l.tiers <==> name in l.order
    requires forall i :: LastAt(l.order, i, |l.order|) ==>
               l.tiers[l.order[i]] == Row(rows, l.order[i]).(rank := i)
    requires forall name :: name in l.tiers ==> l.tiers[name].name == name
    ensures Ladder(l) <==> NoRepeats(l.order)
  {
    if NoRepeats(l.order) {
      forall i | 0 <= i < |l.order|
        ensures LastAt(l.order, i, |l.order|)
      {
      }
    } else {
      var i, j :| 0 <= i < j < |l.order| && l.order[i] == l.order[j];
      assert l.tiers[l.order[i]].rank != i || l.tiers[l.order[j]].rank != j;
    }
  }

  // -------------------------------------------------------------- stamping tasks

  function Declared(l: TierLadder, t: TaskSpec): TaskSpec
    requires Ladder(l)
  {
    if t.metadata.tier.Some? && t.metadata.tier.value != "" then t
    else
      var agent := t.metadata.agent;
      var role := if agent.Some? && agent.value != "" then agent.value else t.skill;
      t.(metadata := t.metadata.(tier := Some(ForRole(l, role).name)))
  }

  function DeclaredAll(l: TierLadder, ts: seq<TaskSpec>): (r: seq<TaskSpec>)
    requires Ladder(l)
    ensures |r| == |ts| && forall i :: 0 <= i < |ts| ==> r[i] == Declared(l, ts[i])
  {
    seq(|ts|, i requires 0 <= i < |ts| => Declared(l, ts[i]))
  }

  /** Stamps every added task; a tier asked for explicitly stays. */
  method DeclareTiers(p: GraphPatch, l: TierLadder) returns (r: GraphPatch)
    requires Ladder(l)
    ensures r == p.(add := DeclaredAll(l, p.add))
  {
    if p.add == [] {
      assert DeclaredAll(l, p.add) == p.add;
      return p;
    }
    var annotated, i := [], 0;
    while i < |p.add|
      invariant i <= |p.add| && annotated == DeclaredAll(l, p.add)[..i]
    {
      annotated := annotated + [Declared(l, p.add[i])];
      i := i + 1;
    }
    return GraphPatch(annotated, p.connect, p.cancel, p.wait, p.resume, p.finish, p.reason, p.metadata);
  }

  /** Stamping changes tiers and nothing that the graph depends on. */
  lemma DeclaringKeepsTheGraph(l: TierLadder, p: GraphPatch)
    requires Ladder(l)
    ensures AddIds(p.(add := DeclaredAll(l, p.add))) == AddIds(p)
    ensures forall i :: 0 <= i < |p.add| ==>
              var d := DeclaredAll(l, p.add)[i];
              && d.id == p.add[i].id && d.skill == p.add[i].skill && d.input == p.add[i].input
              && d.metadata.sideEffect == p.add[i].metadata.sideEffect
              && d.metadata.tier.Some?
              && (p.add[i].metadata.tier.Some? && p.add[i].metadata.tier.value != "" ==>
                    d.metadata.tier == p.add[i].metadata.tier)
  {
  }
}
