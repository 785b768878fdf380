/**
  The seam every paid call passes through: admit, call, meter.  Nothing is held back
  between admission and charge, so the ceiling is exact for one caller and carries a
  term for the others in flight when there are several.
*/
module Gateway {
  import opened Wrappers
  import opened Tiers
  import opened Pricing
  import opened Budget
  import opened Policy

  // ------------------------------------------------------------------- projection

  /** A pessimistic token count for the text about to be sent. */
  function EstimateTokens(th: Thresholds, characters: nat): int {
    (characters as real / Max(th.charsPerToken, 0.1) * Max(th.inputSafety, 1.0)).Floor + 1
  }

  function Project(p: Pricing, t: Tier, inputTokens: int): real
    requires p.unitTokens > 0
  {
    Cost(p, BilledModel(t), Usage(inputTokens, MaxOutput(t), 0, 0))
  }

  /** What the client asks for when a request names no ceiling. */
  const CLIENT_CEILING := 1600

  /** The output ceiling that reaches the provider. */
  function Sent(t: Tier, overrides: Request): int {
    var ceiling := RequestFor(t, overrides).maxTokens;
    if ceiling.Some? then ceiling.value else CLIENT_CEILING
  }

  /**
    Exactly when the projection of a call bounds its cost, over every reply within the
    estimated input and the ceiling sent.  Admission prices the tier's own ceiling, so for
    the tier's own model, where output has a price, a caller that overrides it upwards is
    out of bounds; a tier whose own ceiling is sent is not.
  */
  lemma ProjectionHoldsIff(p: Pricing, t: Tier, overrides: Request, billed: Option<string>, tokens: int)
    requires NonNegative(p)
    ensures (forall u :: Within(u, tokens, Sent(t, overrides)) && u.cacheRead <= 0 && u.cacheWrite <= 0 ==>
               Cost(p, billed, u) <= Project(p, t, tokens))
            <==> NoDearer(p, billed, BilledModel(t), tokens, Sent(t, overrides), MaxOutput(t))
    ensures (forall u :: Within(u, tokens, Sent(t, overrides)) ==> Cost(p, billed, u) <= Project(p, t, tokens))
            <==> NoDearer(p, billed, BilledModel(t), tokens, Sent(t, overrides), MaxOutput(t)) && CacheFree(p, billed)
    ensures billed == BilledModel(t) && PerOutput(p, billed) > 0.0 ==>
              (NoDearer(p, billed, BilledModel(t), tokens, Sent(t, overrides), MaxOutput(t)) <==>
               Sent(t, overrides) <= MaxOutput(t) || Sent(t, overrides) <= 0)
    ensures overrides.maxTokens.None? && t.maxTokens.Some? && t.maxTokens.value != 0 ==>
              Sent(t, overrides) == MaxOutput(t)
  {
    var asked, sent, priced := BilledModel(t), Sent(t, overrides), MaxOutput(t);
    assert Project(p, t, tokens) == Projection(p, asked, tokens, priced);
    BoundWithoutCacheIff(p, billed, asked, tokens, sent, priced);
    BoundWithCacheIff(p, billed, asked, tokens, sent, priced);
    if billed == asked && PerOutput(p, billed) > 0.0 {
      CeilingSentIff(p, billed, tokens, sent, priced);
    }
  }

  const FLAT := Pricing(1, ModelPrice(1.0, 1.0), map[], 0.0, 0.0)

  /** A ceiling of 4000 over a tier of 1024, and a reply that uses it: over the projection, at the tier's own model. */
  lemma OverridePassesProjection()
    ensures
      var t, overrides := Tier("standard", 0, None, Some(1024), None, 0, 0), Request(None, Some(4000));
      var u := Usage(0, 4000, 0, 0);
      NonNegative(FLAT) && Within(u, 0, Sent(t, overrides)) && Cost(FLAT, BilledModel(t), u) > Project(FLAT, t, 0)
  {
    FlatCost(None, Usage(0, 4000, 0, 0));
    FlatCost(None, Usage(0, 1024, 0, 0));
  }

  /** A tier without a ceiling, priced by its projection of 100 tokens and sent with the client's own ceiling. */
  lemma UncappedPassesProjection()
    ensures
      var t, u := Tier("standard", 0, None, None, None, 0, 100), Usage(0, 1600, 0, 0);
      Within(u, 0, Sent(t, Request(None, None))) && Cost(FLAT, BilledModel(t), u) > Project(FLAT, t, 0)
  {
    FlatCost(None, Usage(0, 1600, 0, 0));
    FlatCost(None, Usage(0, 100, 0, 0));
  }

  /** The input half is an estimate: a prompt that the provider counts as longer passes it. */
  lemma InputPassesProjection()
    ensures
      var t, u := Tier("standard", 0, None, Some(1024), None, 0, 0), Usage(2, 1024, 0, 0);
      u.output <= Sent(t, Request(None, None)) && Cost(FLAT, BilledModel(t), u) > Project(FLAT, t, 1)
  {
    FlatCost(None, Usage(2, 1024, 0, 0));
    FlatCost(None, Usage(1, 1024, 0, 0));
  }

  lemma FlatCost(model: Option<string>, u: Usage)
    requires u.cacheRead <= 0 && u.cacheWrite <= 0
    ensures Cost(FLAT, model, u) == Clip(u.input) + Clip(u.output)
  {
    assert PriceFor(FLAT, model) == ModelPrice(1.0, 1.0);
  }

  lemma ProjectNonNegative(l: TierLadder, p: Pricing, tokens: int, cost: Tier -> real)
    requires Ladder(l) && NonNegative(p)
    requires forall t :: cost(t) == Project(p, t, tokens)
    ensures CostsNonNegative(l, cost)
  {
    forall i | 0 <= i < |l.order|
      ensures cost(Rung(l, i)) >= 0.0
    {
      CostNonNegative(p, BilledModel(Rung(l, i)), Usage(tokens, MaxOutput(Rung(l, i)), 0, 0));
    }
  }

  /** What an admission promises: a projection within the run's remainder, and calls left under both ceilings. */
  lemma AdmissionIsBounded(
    l: TierLadder, th: Thresholds, cost: Tier -> real, b: Ledger, node: string, requested: Tier)
    requires Ladder(l) && On(l, requested) && CostsNonNegative(l, cost) && Headroom(th, b) >= 0.0
    ensures
      var v := Rebased(l, th, cost, b, node, requested);
      && v.Decided?
      && (v.decision.tier.Some? <==> !v.decision.action.Refuse?)
      && (v.decision.tier.Some? ==>
            && 0.0 <= v.decision.projected <= Remaining(b) - Headroom(th, b)
            && v.decision.projected == cost(v.decision.tier.value)
            && !RunCeiling(th, b) && !NodeCeiling(th, b, node))
  {
    var best := MostCapableThatFits(l, cost, Read(th, b, node), node, requested);
    if Branches(Decide(l, th, cost, b, node, requested)) {
      BranchAlwaysAdmits(l, th, cost, b, node, requested);
      ReleaseFrees(th, b, node);
      var again := MostCapableThatFits(l, cost, Read(th, Released(b, node), node), node, requested);
    }
  }

  // --------------------------------------------------------------------- the seam

  datatype Response = Response(model: Option<string>, usage: Usage)

  datatype GatewayError = NegativeCost | Refused(reason: Decision) | TransportFailed

  class MeteredTransport {
    var calls: nat
    var failures: nat
    var requests: seq<Request>

    constructor ()
      ensures calls == 0 && failures == 0 && requests == []
    {
      calls, failures, requests := 0, 0, [];
    }

    /** A provider call: any response, or a failure that consumed nothing that could be reported. */
    method Chat(request: Request) returns (r: Option<Response>)
      modifies this
      ensures requests == old(requests) + [request]
      ensures r.Some? ==> calls == old(calls) + 1 && failures == old(failures)
      ensures r.None? ==> calls == old(calls) && failures == old(failures) + 1
    {
      requests := requests + [request];
      var fails: bool := *;
      if fails {
        failures := failures + 1;
        return None;
      }
      var response: Response := *;
      calls := calls + 1;
      return Some(response);
    }
  }

  class BudgetedGateway {
    const transport: MeteredTransport
    const budget: RunBudget
    const ladder: TierLadder
    const th: Thresholds
    const pricing: Pricing
    var decisions: seq<Decision>

    constructor (transport: MeteredTransport, budget: RunBudget, ladder: TierLadder, th: Thresholds, pricing: Pricing)
      ensures this.transport == transport && this.budget == budget && this.ladder == ladder
      ensures this.th == th && this.pricing == pricing && decisions == []
    {
      this.transport, this.budget, this.ladder, this.th, this.pricing := transport, budget, ladder, th, pricing;
      decisions := [];
    }

    ghost predicate Valid()
      reads this, budget
    {
      budget.Valid() && Ladder(ladder) && NonNegative(pricing) && th.headroomFraction >= 0.0
    }

    /** Decides, and applies a branch by dropping the node's slice and deciding again. */
    method DecideFor(node: string, requested: Tier, cost: Tier -> real) returns (v: Verdict)
      requires Valid() && On(ladder, requested) && CostsNonNegative(ladder, cost)
      modifies budget`reservations
      ensures Valid()
      ensures v == Rebased(ladder, th, cost, old(budget.Now()), node, requested)
      ensures budget.Now() == if Branches(Decide(ladder, th, cost, old(budget.Now()), node, requested))
                              then Released(old(budget.Now()), node) else old(budget.Now())
    {
      v := Judge(ladder, cost, Read(th, budget.Now(), node), node, requested);
      if v.NegativeProjection? || v.decision.action != Branch {
        return;
      }
      budget.Release(node);
      var again := Judge(ladder, cost, Read(th, budget.Now(), node), node, requested);
      if again.NegativeProjection? || again.decision.action == Refuse {
        return again;
      }
      return Decided(again.decision.(action := Branch));
    }

    /**
      One call.  Every response is charged before it can be used, a refusal reaches no
      provider, and a reply that costs no more than was projected never takes the run
      past its total.  What is projected is the tier decided on; what is sent is its
      request with the caller's overrides.
    */
    method Complete(node: string, role: string, tier: string, characters: nat, overrides: Request)
      returns (r: Result<Charge, GatewayError>)
      requires Valid()
      modifies this, budget, transport
      ensures Valid()
      ensures |budget.charges| - |old(budget.charges)| == transport.calls - old(transport.calls)
      ensures |decisions| == |old(decisions)| + 1 && old(decisions) <= decisions
      ensures budget.total == old(budget.total)
      ensures Decided(decisions[|old(decisions)|]) ==
              Rebased(ladder, th, Costing(pricing, EstimateTokens(th, characters)), old(budget.Now()), node,
                      Requested(ladder, role, tier))
      ensures budget.Now() ==
              Settled(Asked(ladder, th, old(budget.Now()), node, Requested(ladder, role, tier),
                            Costing(pricing, EstimateTokens(th, characters))), node, r)
      ensures
        match r
        case Success(charge) =>
          && budget.charges == old(budget.charges) + [charge]
          && budget.spent == old(budget.spent) + charge.cost
          && charge.node == node
          && Honoured(th, old(budget.Now()), charge)
          && decisions[|old(decisions)|].tier.Some?
          && var t := decisions[|old(decisions)|].tier.value;
             && transport.requests == old(transport.requests) + [RequestFor(t, overrides)]
             && charge.tier == t.name
             && charge.projected == Project(pricing, t, EstimateTokens(th, characters))
             && charge.cost == Cost(pricing, charge.model, charge.usage)
        case Failure(Refused(d)) =>
          && d.action == Refuse && transport.calls == old(transport.calls) && transport.failures == old(transport.failures)
          && transport.requests == old(transport.requests)
          && budget.spent == old(budget.spent) && |budget.refusals| == |old(budget.refusals)| + 1
        case Failure(TransportFailed) =>
          budget.spent == old(budget.spent) && transport.failures == old(transport.failures) + 1
        case Failure(NegativeCost) => false
    {
      var d := Ask(node, role, tier, characters);
      r := Carry(node, role, d, overrides);
      if r.Success? {
        AdmissionHonoured(th, old(budget.Now()), d, r.value);
      }
    }

    /** Measures the prompt, then decides; only reservations may change. */
    method Ask(node: string, role: string, tier: string, characters: nat) returns (d: Decision)
      requires Valid()
      modifies budget`reservations
      ensures Valid()
      ensures WithinRun(th, old(budget.Now()), d)
      ensures d.tier.Some? ==> d.projected == Project(pricing, d.tier.value, EstimateTokens(th, characters))
      ensures Decided(d) == Rebased(ladder, th, Costing(pricing, EstimateTokens(th, characters)), old(budget.Now()),
                                    node, Requested(ladder, role, tier))
      ensures budget.Now() == Asked(ladder, th, old(budget.Now()), node, Requested(ladder, role, tier),
                                    Costing(pricing, EstimateTokens(th, characters)))
    {
      var requested := Requested(ladder, role, tier);
      var cost := Costing(pricing, EstimateTokens(th, characters));
      ProjectNonNegative(ladder, pricing, EstimateTokens(th, characters), cost);
      HeadroomNonNegative(th, budget.Now());
      AdmissionIsBounded(ladder, th, cost, budget.Now(), node, requested);
      var v := DecideFor(node, requested, cost);
      d := v.decision;
    }

    /** Carries out a decision: refuse, or call and meter. */
    method Carry(node: string, role: string, d: Decision, overrides: Request) returns (r: Result<Charge, GatewayError>)
      requires Valid() && (d.tier.Some? <==> !d.action.Refuse?)
      modifies this, budget, transport
      ensures Valid()
      ensures |budget.charges| - |old(budget.charges)| == transport.calls - old(transport.calls)
      ensures decisions == old(decisions) + [d] && budget.total == old(budget.total)
      ensures budget.Now() == Settled(old(budget.Now()), node, r)
      ensures
        match r
        case Success(charge) =>
          && budget.charges == old(budget.charges) + [charge]
          && budget.spent == old(budget.spent) + charge.cost
          && charge.node == node && charge.projected == d.projected && !d.action.Refuse?
          && transport.requests == old(transport.requests) + [RequestFor(d.tier.value, overrides)]
          && charge.tier == d.tier.value.name && charge.cost == Cost(pricing, charge.model, charge.usage)
        case Failure(Refused(reason)) =>
          && reason == d && d.action == Refuse
          && transport.calls == old(transport.calls) && transport.failures == old(transport.failures)
          && transport.requests == old(transport.requests)
          && budget.spent == old(budget.spent) && |budget.refusals| == |old(budget.refusals)| + 1
        case Failure(TransportFailed) =>
          budget.spent == old(budget.spent) && transport.failures == old(transport.failures) + 1
        case Failure(NegativeCost) => false
    {
      decisions := decisions + [d];
      if d.action == Refuse {
        budget.RecordRefusal(node, "refused");
        return Failure(Refused(d));
      }
      var reply := transport.Chat(RequestFor(d.tier.value, overrides));
      if reply.None? {
        return Failure(TransportFailed);
      }
      var model := if reply.value.model.Some? && reply.value.model.value != "" then reply.value.model
                   else BilledModel(d.tier.value);
      var charge := budget.ChargeCall(pricing, node, role, d.tier.value.name, model, reply.value.usage, d.projected,
        if d.action == Branch then "branch" else if d.action == Downgraded then "downgrade" else "proceed");
      return Success(charge);
    }
  }

  /** The ledger once a call has been decided on: a branch has dropped its node's slice. */
  function Asked(l: TierLadder, th: Thresholds, b: Ledger, node: string, requested: Tier, cost: Tier -> real): Ledger
    requires Ladder(l) && On(l, requested)
  {
    if Branches(Decide(l, th, cost, b, node, requested)) then Released(b, node) else b
  }

  /** The ledger once a call has come to its end: charged, or noted as refused, or left alone. */
  function Settled(b: Ledger, node: string, r: Result<Charge, GatewayError>): Ledger {
    match r
    case Success(charge) => Charged(b, charge)
    case Failure(Refused(_)) => b.(refusals := b.refusals + [Refusal(node, "refused", b.spent, Remaining(b))])
    case Failure(_) => b
  }

  /** An admission's projection fits what the run still holds, headroom aside. */
  ghost predicate WithinRun(th: Thresholds, b: Ledger, d: Decision) {
    && (d.tier.Some? <==> !d.action.Refuse?)
    && (d.tier.Some? ==> 0.0 <= d.projected <= Remaining(b) - Headroom(th, b) && Headroom(th, b) >= 0.0)
  }

  /** The charge of an admitted call: projected within the run, and if it keeps to its projection, so is the spend. */
  ghost predicate Honoured(th: Thresholds, b: Ledger, c: Charge) {
    && 0.0 <= c.projected <= Remaining(b) - Headroom(th, b)
    && (c.cost <= c.projected && b.spent <= b.total ==> b.spent + c.cost <= b.total)
  }

  lemma AdmissionHonoured(th: Thresholds, b: Ledger, d: Decision, c: Charge)
    requires WithinRun(th, b, d) && !d.action.Refuse? && c.projected == d.projected
    ensures Honoured(th, b, c)
  {
    var held := Headroom(th, b);
    assert c.cost <= c.projected && b.spent <= b.total ==> c.cost <= b.total - b.spent - held;
  }

  function Requested(l: TierLadder, role: string, tier: string): (t: Tier)
    requires Ladder(l)
    ensures On(l, t)
  {
    LookupsStayOnLadder(l, tier);
    LookupsStayOnLadder(l, role);
    if tier != "" then TierNamed(l, tier) else ForRole(l, role)
  }

  function Costing(p: Pricing, tokens: int): (cost: Tier -> real)
    requires p.unitTokens > 0
    ensures forall t :: cost(t) == Project(p, t, tokens)
  {
    (t: Tier) => if p.unitTokens > 0 then Project(p, t, tokens) else 0.0
  }

  lemma HeadroomNonNegative(th: Thresholds, b: Ledger)
    requires th.headroomFraction >= 0.0 && b.total >= 0.0
    ensures Headroom(th, b) >= 0.0
  {
  }

  // ------------------------------------------------------------------ many callers

  /** A gateway between awaits: the ledger, and the projections of the calls now with providers. */
  datatype Gate = Gate(ledger: Ledger, inFlight: seq<real>)

  datatype GateStep =
    | Admit(node: string, requested: Tier, cost: Tier -> real)
    | Reply(call: nat, charge: Charge)
    | Fail(call: nat)
    | Reallocate(nodes: set<string>, fraction: real)
    | Drop(node: string)
    | Decline(refusal: Refusal)

  function Removed(s: seq<real>, i: nat): seq<real>
    requires i < |s|
  {
    s[..i] + s[i + 1..]
  }

  ghost predicate GateNext(
    l: TierLadder, th: Thresholds, workers: nat, most: real, s: Gate, step: GateStep, s': Gate)
    requires Ladder(l)
  {
    match step
    case Admit(node, requested, cost) =>
      && |s.inFlight| < workers && On(l, requested) && CostsNonNegative(l, cost)
      && var v := Rebased(l, th, cost, s.ledger, node, requested);
         && v.Decided? && v.decision.tier.Some? && v.decision.projected <= most
         && s'.inFlight == s.inFlight + [v.decision.projected]
         && s'.ledger == (if Branches(Decide(l, th, cost, s.ledger, node, requested))
                          then Released(s.ledger, node) else s.ledger)
    case Reply(i, charge) =>
      && i < |s.inFlight| && 0.0 <= charge.cost <= s.inFlight[i]
      && s' == Gate(Charged(s.ledger, charge), Removed(s.inFlight, i))
    case Fail(i) => i < |s.inFlight| && s' == Gate(s.ledger, Removed(s.inFlight, i))
    case Reallocate(nodes, fraction) => s' == Gate(Allocated(s.ledger, nodes, fraction), s.inFlight)
    case Drop(node) => s' == Gate(Released(s.ledger, node), s.inFlight)
    case Decline(refusal) => s' == Gate(s.ledger.(refusals := s.ledger.refusals + [refusal]), s.inFlight)
  }

  /** Up to the await, a call that was admitted takes the admission step, whatever else is in flight. */
  lemma AskingIsAdmission(
    l: TierLadder, th: Thresholds, workers: nat, most: real, b: Ledger, inFlight: seq<real>, node: string,
    requested: Tier, cost: Tier -> real, d: Decision)
    requires Ladder(l) && On(l, requested) && CostsNonNegative(l, cost)
    requires Decided(d) == Rebased(l, th, cost, b, node, requested) && d.tier.Some?
    requires |inFlight| < workers && d.projected <= most
    ensures GateNext(l, th, workers, most, Gate(b, inFlight), Admit(node, requested, cost),
                     Gate(Asked(l, th, b, node, requested, cost), inFlight + [d.projected]))
  {
  }

  /** After the await it takes the reply step, if it kept to its projection, or the failing one; a refusal is noted. */
  lemma SettlingIsStep(
    l: TierLadder, th: Thresholds, workers: nat, most: real, b: Ledger, inFlight: seq<real>, i: nat, node: string,
    r: Result<Charge, GatewayError>)
    requires Ladder(l) && i < |inFlight|
    ensures
      var s, landed := Gate(b, inFlight), Gate(Settled(b, node, r), Removed(inFlight, i));
      match r
      case Success(c) => 0.0 <= c.cost <= inFlight[i] ==> GateNext(l, th, workers, most, s, Reply(i, c), landed)
      case Failure(Refused(_)) =>
        GateNext(l, th, workers, most, s, Decline(Refusal(node, "refused", b.spent, Remaining(b))),
                 Gate(Settled(b, node, r), inFlight))
      case Failure(_) => GateNext(l, th, workers, most, s, Fail(i), landed)
  {
  }

  ghost function Sum(s: seq<real>): real {
    if s == [] then 0.0 else Sum(s[..|s| - 1]) + s[|s| - 1]
  }

  lemma {:induction false} SumAppend(s: seq<real>, x: real)
    ensures Sum(s + [x]) == Sum(s) + x
  {
    assert (s + [x])[..|s|] == s;
  }

  lemma {:induction false} SumRemoved(s: seq<real>, i: nat)
    requires i < |s|
    ensures Sum(Removed(s, i)) == Sum(s) - s[i]
    decreases |s|
  {
    var front := s[..|s| - 1];
    if i < |front| {
      SumRemoved(front, i);
      assert Removed(s, i) == Removed(front, i) + [s[|s| - 1]];
      SumAppend(Removed(front, i), s[|s| - 1]);
    } else {
      assert Removed(s, i) == front;
    }
  }

  lemma {:induction false} SumBound(s: seq<real>, most: real, k: nat)
    requires |s| <= k && most >= 0.0 && forall i :: 0 <= i < |s| ==> s[i] <= most
    ensures Sum(s) <= Times(k, most)
    decreases k
  {
    if s != [] {
      SumBound(s[..|s| - 1], most, k - 1);
    } else if k > 0 {
      SumBound(s, most, k - 1);
    }
  }

  /** What holds between any two steps of any callers. */
  ghost predicate GateSafe(th: Thresholds, workers: nat, most: real, s: Gate) {
    && workers >= 1 && most >= 0.0 && s.ledger.total >= 0.0 && Headroom(th, s.ledger) >= 0.0
    && Balanced(s.ledger)
    && |s.inFlight| <= workers && (forall i :: 0 <= i < |s.inFlight| ==> 0.0 <= s.inFlight[i] <= most)
    && s.ledger.spent + Sum(s.inFlight) <= s.ledger.total + Times(workers - 1, most)
    && (th.maxCallsPerRun > 0 ==> |s.ledger.charges| + |s.inFlight| <= th.maxCallsPerRun + workers - 1)
  }

  lemma AdmitSafe(th: Thresholds, workers: nat, most: real, s: Gate, projected: real, s': Gate)
    requires GateSafe(th, workers, most, s) && |s.inFlight| < workers
    requires 0.0 <= projected <= most && projected <= Remaining(s.ledger) - Headroom(th, s.ledger)
    requires !RunCeiling(th, s.ledger)
    requires s'.inFlight == s.inFlight + [projected]
    requires exists reservations :: s'.ledger == s.ledger.(reservations := reservations)
    ensures GateSafe(th, workers, most, s')
  {
    SumAppend(s.inFlight, projected);
    SumBound(s.inFlight, most, workers - 1);
    assert Headroom(th, s'.ledger) == Headroom(th, s.ledger);
  }

  lemma ReplySafe(th: Thresholds, workers: nat, most: real, s: Gate, i: nat, charge: Charge)
    requires GateSafe(th, workers, most, s) && i < |s.inFlight| && 0.0 <= charge.cost <= s.inFlight[i]
    ensures GateSafe(th, workers, most, Gate(Charged(s.ledger, charge), Removed(s.inFlight, i)))
  {
    SumRemoved(s.inFlight, i);
    ChargedBalanced(s.ledger, charge);
    SameHeadroom(th, s.ledger, Charged(s.ledger, charge));
  }

  lemma FailSafe(th: Thresholds, workers: nat, most: real, s: Gate, i: nat)
    requires GateSafe(th, workers, most, s) && i < |s.inFlight|
    ensures GateSafe(th, workers, most, Gate(s.ledger, Removed(s.inFlight, i)))
  {
    SumRemoved(s.inFlight, i);
  }

  /** What is set aside for whom, and what was refused, is no part of either ceiling. */
  lemma SetAsideSafe(th: Thresholds, workers: nat, most: real, s: Gate, b: Ledger)
    requires GateSafe(th, workers, most, s)
    requires b == s.ledger.(reservations := b.reservations, refusals := b.refusals)
    ensures GateSafe(th, workers, most, Gate(b, s.inFlight))
  {
    SameHeadroom(th, s.ledger, b);
    assert forall n :: NodeCalls(b, n) == NodeCalls(s.ledger, n);
  }

  lemma SameHeadroom(th: Thresholds, b: Ledger, b': Ledger)
    requires b'.total == b.total
    ensures Headroom(th, b') == Headroom(th, b)
  {
  }

  lemma AdmittedSafe(
    l: TierLadder, th: Thresholds, workers: nat, most: real, s: Gate, node: string, requested: Tier, cost: Tier -> real,
    s': Gate)
    requires Ladder(l) && GateSafe(th, workers, most, s)
    requires GateNext(l, th, workers, most, s, Admit(node, requested, cost), s')
    ensures GateSafe(th, workers, most, s')
  {
    AdmissionIsBounded(l, th, cost, s.ledger, node, requested);
    var projected := Rebased(l, th, cost, s.ledger, node, requested).decision.projected;
    assert s'.ledger == s.ledger.(reservations := s'.ledger.reservations);
    AdmitSafe(th, workers, most, s, projected, s');
  }

  lemma GateKeepsSafe(l: TierLadder, th: Thresholds, workers: nat, most: real, s: Gate, step: GateStep, s': Gate)
    requires Ladder(l) && GateSafe(th, workers, most, s) && GateNext(l, th, workers, most, s, step, s')
    ensures GateSafe(th, workers, most, s')
  {
    match step
    case Admit(node, requested, cost) => AdmittedSafe(l, th, workers, most, s, node, requested, cost, s');
    case Reply(i, charge) => ReplySafe(th, workers, most, s, i, charge);
    case Fail(i) => FailSafe(th, workers, most, s, i);
    case Reallocate(_, _) => SetAsideSafe(th, workers, most, s, s'.ledger);
    case Drop(_) => SetAsideSafe(th, workers, most, s, s'.ledger);
    case Decline(_) => SetAsideSafe(th, workers, most, s, s'.ledger);
  }

  /** A run of the gateway: states linked by steps, from an untouched ledger. */
  ghost predicate GateRun(
    l: TierLadder, th: Thresholds, workers: nat, most: real, states: seq<Gate>, steps: seq<GateStep>)
    requires Ladder(l)
  {
    && |states| == |steps| + 1
    && states[0].inFlight == [] && states[0].ledger.spent == 0.0
    && states[0].ledger.charges == [] && states[0].ledger.callsByNode == map[]
    && states[0].ledger.total >= 0.0 && Headroom(th, states[0].ledger) >= 0.0
    && (forall i :: 0 <= i < |steps| ==> GateNext(l, th, workers, most, states[i], steps[i], states[i + 1]))
  }

  /**
    The ceiling under concurrency: with at most `workers` calls overlapping, none
    projected above `most` and none costing more than its projection, spending never
    passes the total by more than the other workers' calls, nor the number of calls
    its ceiling by more than those workers.  With one worker both ceilings are exact.
  */
  lemma {:induction false} ConcurrentCeiling(
    l: TierLadder, th: Thresholds, workers: nat, most: real, states: seq<Gate>, steps: seq<GateStep>, k: nat)
    requires Ladder(l) && workers >= 1 && most >= 0.0 && GateRun(l, th, workers, most, states, steps)
    requires k < |states|
    ensures GateSafe(th, workers, most, states[k])
    ensures states[k].ledger.spent <= states[k].ledger.total + Times(workers - 1, most)
    ensures workers == 1 ==> states[k].ledger.spent <= states[k].ledger.total
    ensures states[k].ledger.spent == SumCosts(states[k].ledger.charges)
    decreases k
  {
    if k == 0 {
      TimesNonNegative(workers - 1, most);
    } else {
      ConcurrentCeiling(l, th, workers, most, states, steps, k - 1);
      GateKeepsSafe(l, th, workers, most, states[k - 1], steps[k - 1], states[k]);
    }
    SumNonNegative(states[k].inFlight);
  }

  lemma {:induction false} TimesNonNegative(k: nat, x: real)
    requires x >= 0.0
    ensures Times(k, x) >= 0.0
  {
    if k > 0 {
      TimesNonNegative(k - 1, x);
    }
  }

  lemma {:induction false} SumNonNegative(s: seq<real>)
    requires forall i :: 0 <= i < |s| ==> 0.0 <= s[i]
    ensures Sum(s) >= 0.0
  {
    if s != [] {
      SumNonNegative(s[..|s| - 1]);
    }
  }

  // ----------------------------------------------------------- the bound is attained

  function Repeat(x: real, k: nat): (s: seq<real>)
    ensures |s| == k && forall i :: 0 <= i < k ==> s[i] == x
  {
    if k == 0 then [] else Repeat(x, k - 1) + [x]
  }

  ghost function Flat(price: real): Tier -> real {
    (t: Tier) => price
  }

  /** Thresholds that hold nothing back, and a run that holds the price of exactly one call. */
  ghost predicate OneCallLeft(l: TierLadder, th: Thresholds, price: real, b: Ledger) {
    && Ladder(l) && price > 0.0 && b.total == price && b.reservations == map[]
    && th.headroomFraction == 0.0 && th.refuseAt > 0.0 && th.downgradeAt > 0.0
    && th.maxCallsPerRun == 0 && th.maxCallsPerNode == 0
  }

  lemma LastCallAdmitted(l: TierLadder, th: Thresholds, price: real, b: Ledger, node: string)
    requires OneCallLeft(l, th, price, b) && b.spent == 0.0
    ensures
      var v := Rebased(l, th, Flat(price), b, node, Rung(l, 0));
      && v.Decided? && v.decision.tier.Some? && v.decision.projected == price
      && !Branches(Decide(l, th, Flat(price), b, node, Rung(l, 0)))
  {
    var g := Read(th, b, node);
    assert g == Gauge(false, false, price, price, 0.0, 0.0);
    var best := MostCapableThatFits(l, Flat(price), g, node, Rung(l, 0));
    assert RungFits(l, Flat(price), g, 0);
  }

  /** As many callers as there are workers, each admitted on money none has spent yet. */
  lemma {:induction false} AllAdmitted(l: TierLadder, th: Thresholds, workers: nat, price: real, b: Ledger, k: nat)
    returns (states: seq<Gate>, steps: seq<GateStep>)
    requires OneCallLeft(l, th, price, b) && b == Ledger(price, 0.0, map[], [], [], map[]) && k <= workers
    ensures GateRun(l, th, workers, price, states, steps)
    ensures states[|steps|] == Gate(b, Repeat(price, k))
    decreases k
  {
    if k == 0 {
      states, steps := [Gate(b, [])], [];
    } else {
      states, steps := AllAdmitted(l, th, workers, price, b, k - 1);
      LastCallAdmitted(l, th, price, b, "");
      var step, next := Admit("", Rung(l, 0), Flat(price)), Gate(b, Repeat(price, k));
      states, steps := Extended(l, th, workers, price, states, steps, step, next);
    }
  }

  lemma Extended(
    l: TierLadder, th: Thresholds, workers: nat, most: real, states: seq<Gate>, steps: seq<GateStep>, step: GateStep,
    next: Gate)
    returns (states': seq<Gate>, steps': seq<GateStep>)
    requires Ladder(l) && GateRun(l, th, workers, most, states, steps)
    requires GateNext(l, th, workers, most, states[|steps|], step, next)
    ensures GateRun(l, th, workers, most, states', steps')
    ensures states'[|steps'|] == next
  {
    states', steps' := states + [next], steps + [step];
    forall i | 0 <= i < |steps'|
      ensures GateNext(l, th, workers, most, states'[i], steps'[i], states'[i + 1])
    {
      if i < |steps| {
        assert states'[i] == states[i] && steps'[i] == steps[i] && states'[i + 1] == states[i + 1];
      }
    }
  }

  lemma {:induction false} AllReplied(l: TierLadder, th: Thresholds, workers: nat, price: real, b: Ledger, k: nat)
    returns (states: seq<Gate>, steps: seq<GateStep>)
    requires OneCallLeft(l, th, price, b) && b == Ledger(price, 0.0, map[], [], [], map[]) && k <= workers
    ensures GateRun(l, th, workers, price, states, steps)
    ensures states[|steps|].inFlight == Repeat(price, workers - k)
    ensures states[|steps|].ledger.spent == Times(k, price) && states[|steps|].ledger.total == price
    decreases k
  {
    if k == 0 {
      states, steps := AllAdmitted(l, th, workers, price, b, workers);
    } else {
      states, steps := AllReplied(l, th, workers, price, b, k - 1);
      var last := states[|steps|];
      var charge := Charge("", "", "", None, Usage(0, 0, 0, 0), price, price, "proceed");
      var next := Gate(Charged(last.ledger, charge), Removed(last.inFlight, 0));
      assert next.inFlight == Repeat(price, workers - k);
      states, steps := Extended(l, th, workers, price, states, steps, Reply(0, charge), next);
    }
  }

  /**
    The worker term is needed: for every number of workers and every ladder there is a
    run that spends the total and one more call for each further worker.
  */
  lemma CeilingIsAttained(l: TierLadder, th: Thresholds, workers: nat, price: real)
    returns (states: seq<Gate>, steps: seq<GateStep>)
    requires workers >= 1 && OneCallLeft(l, th, price, Ledger(price, 0.0, map[], [], [], map[]))
    ensures GateRun(l, th, workers, price, states, steps)
    ensures
      var end := states[|steps|].ledger;
      end.spent == states[0].ledger.total + Times(workers - 1, price)
  {
    var b := Ledger(price, 0.0, map[], [], [], map[]);
    states, steps := AllReplied(l, th, workers, price, b, workers);
    TotalsStay(l, th, workers, price, states, steps, |steps|);
    assert states[0].ledger.total == price by {
      assert states[|steps|].ledger.total == states[0].ledger.total;
    }
  }

  lemma {:induction false} TotalsStay(
    l: TierLadder, th: Thresholds, workers: nat, most: real, states: seq<Gate>, steps: seq<GateStep>, k: nat)
    requires Ladder(l) && GateRun(l, th, workers, most, states, steps) && k <= |steps|
    ensures states[k].ledger.total == states[0].ledger.total
    decreases k
  {
    if k > 0 {
      TotalsStay(l, th, workers, most, states, steps, k - 1);
      assert GateNext(l, th, workers, most, states[k - 1], steps[k - 1], states[k]);
    }
  }
}
