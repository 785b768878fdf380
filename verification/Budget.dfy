/** A run's allowance: what is spent, what is set aside for whom, and the ledger behind both. */
module Budget {
  import opened Wrappers
  import opened Pricing
  import opened Reals

  datatype Charge = Charge(
    node: string, role: string, tier: string, model: Option<string>, usage: Usage, cost: real,
    projected: real, decision: string)

  datatype Refusal = Refusal(node: string, reason: string, spent: real, remaining: real)

  /** The budget's fields at one moment. */
  datatype Ledger = Ledger(
    total: real, spent: real, reservations: map<string, real>, charges: seq<Charge>, refusals: seq<Refusal>,
    callsByNode: map<string, nat>)

  function Max(a: real, b: real): real {
    if a < b then b else a
  }

  function Min(a: real, b: real): real {
    if a < b then a else b
  }

  function Remaining(b: Ledger): real {
    Max(0.0, b.total - b.spent)
  }

  /** Spend ratio, in [0, 1]. */
  function Pressure(b: Ledger): real {
    if b.total <= 0.0 then 1.0 else Min(1.0, b.spent / b.total)
  }

  function Allowance(b: Ledger, node: string): real {
    if node !in b.reservations then Remaining(b)
    else Max(0.0, Min(b.reservations[node], Remaining(b)))
  }

  /** `None` stands for the error a negative projection raises. */
  function CanAdmit(b: Ledger, node: string, projected: real, headroom: real): Option<bool> {
    if projected < 0.0 then None
    else if projected > Remaining(b) - headroom then Some(false)
    else Some(projected <= Allowance(b, node))
  }

  function NodeCalls(b: Ledger, node: string): nat {
    if node in b.callsByNode then b.callsByNode[node] else 0
  }

  function Spendable(b: Ledger, fraction: real): real {
    Max(0.0, Remaining(b) - b.total * fraction)
  }

  function Shares(b: Ledger, nodes: set<string>, fraction: real): map<string, real> {
    if nodes == {} then map[]
    else map n | n in nodes :: Spendable(b, fraction) / |nodes| as real
  }

  function Allocated(b: Ledger, nodes: set<string>, fraction: real): Ledger {
    b.(reservations := Shares(b, nodes, fraction))
  }

  function Released(b: Ledger, node: string): Ledger {
    b.(reservations := b.reservations - {node})
  }

  function Charged(b: Ledger, c: Charge): Ledger {
    b.(spent := b.spent + c.cost, charges := b.charges + [c],
       callsByNode := b.callsByNode[c.node := NodeCalls(b, c.node) + 1])
  }

  // -------------------------------------------------------------- the audit trail

  ghost function SumCosts(charges: seq<Charge>): real {
    if charges == [] then 0.0 else SumCosts(charges[..|charges| - 1]) + charges[|charges| - 1].cost
  }

  ghost function CallsOf(charges: seq<Charge>, node: string): nat {
    if charges == [] then 0
    else CallsOf(charges[..|charges| - 1], node) + if charges[|charges| - 1].node == node then 1 else 0
  }

  /** The ledger explains every cent and every counted call. */
  ghost predicate Balanced(b: Ledger) {
    && b.spent == SumCosts(b.charges)
    && (forall n :: NodeCalls(b, n) == CallsOf(b.charges, n))
  }

  lemma ChargedBalanced(b: Ledger, c: Charge)
    requires Balanced(b)
    ensures Balanced(Charged(b, c))
  {
    assert (b.charges + [c])[..|b.charges|] == b.charges;
  }

  // ------------------------------------------------------------------- allocation

  ghost function SumShares(m: map<string, real>): real {
    if m == map[] then 0.0
    else
      var n :| n in m;
      m[n] + SumShares(m - {n})
  }

  ghost function Times(k: nat, share: real): real {
    if k == 0 then 0.0 else share + Times(k - 1, share)
  }

  lemma {:induction false} TimesIsProduct(k: nat, share: real)
    ensures Times(k, share) == k as real * share
  {
    if k > 0 {
      TimesIsProduct(k - 1, share);
      var before := (k - 1) as real;
      assert k as real == before + 1.0;
      assert (before + 1.0) * share == before * share + share;
    }
  }

  lemma Picked(m: map<string, real>) returns (n: string)
    requires m != map[]
    ensures n in m && SumShares(m) == m[n] + SumShares(m - {n})
  {
    n :| n in m && SumShares(m) == m[n] + SumShares(m - {n});
  }

  lemma {:induction false} EvenSum(m: map<string, real>, share: real)
    requires forall n :: n in m ==> m[n] == share
    ensures SumShares(m) == Times(|m|, share)
    decreases |m|
  {
    if m != map[] {
      var n := Picked(m);
      var rest := m - {n};
      assert m.Keys == rest.Keys + {n};
      assert |m| == |rest| + 1;
      EvenSum(rest, share);
    }
  }

  /**
    Allocation gives away the spendable remainder, to the last cent and no further:
    over any frontier the shares are equal, none negative, and add up to it.
  */
  lemma AllocationConserves(b: Ledger, nodes: set<string>, fraction: real)
    requires nodes != {}
    ensures Shares(b, nodes, fraction).Keys == nodes
    ensures SumShares(Shares(b, nodes, fraction)) == Spendable(b, fraction)
    ensures forall n :: n in nodes ==> 0.0 <= Shares(b, nodes, fraction)[n]
    ensures b.total >= 0.0 && fraction >= 0.0 ==> SumShares(Shares(b, nodes, fraction)) <= Remaining(b)
  {
    var m, k := Shares(b, nodes, fraction), |nodes| as real;
    assert m.Keys == nodes;
    assert |nodes| > 0;
    var share := Spendable(b, fraction) / k;
    EvenSum(m, share);
    TimesIsProduct(|m|, share);
    assert |m| == |m.Keys|;
    DivideBack(Spendable(b, fraction), k);
    Quotient(Spendable(b, fraction), |nodes|);
    if b.total >= 0.0 && fraction >= 0.0 {
      Product(0.0, b.total, fraction);
    }
  }

  method Unique(frontier: seq<string>) returns (unique: set<string>)
    ensures unique == set n | n in frontier
  {
    unique := {};
    var i := 0;
    while i < |frontier|
      invariant i <= |frontier| && unique == set n | n in frontier[..i]
    {
      assert frontier[..i + 1] == frontier[..i] + [frontier[i]];
      unique := unique + {frontier[i]};
      i := i + 1;
    }
    assert frontier[..i] == frontier;
  }

  class RunBudget {
    var total: real
    var reserveFraction: real
    var spent: real
    var reservations: map<string, real>
    var charges: seq<Charge>
    var refusals: seq<Refusal>
    var callsByNode: map<string, nat>

    function Now(): Ledger
      reads this
    {
      Ledger(total, spent, reservations, charges, refusals, callsByNode)
    }

    ghost predicate Valid()
      reads this
    {
      total >= 0.0 && 0.0 <= reserveFraction < 1.0 && Balanced(Now())
    }

    constructor (total: real, reserveFraction: real)
      requires total >= 0.0 && 0.0 <= reserveFraction < 1.0
      ensures Valid() && Now() == Ledger(total, 0.0, map[], [], [], map[])
      ensures this.reserveFraction == reserveFraction
    {
      this.total, this.reserveFraction := total, reserveFraction;
      spent, reservations, charges, refusals, callsByNode := 0.0, map[], [], [], map[];
    }

    /** Splits the spendable remainder over the frontier's distinct nodes; nobody else keeps a claim. */
    method Allocate(frontier: seq<string>, fraction: Option<real>) returns (allocation: map<string, real>)
      requires Valid()
      modifies this`reservations
      ensures Valid()
      ensures Now() == Allocated(old(Now()), (set n | n in frontier),
                         if fraction.Some? then fraction.value else reserveFraction)
      ensures allocation == reservations
    {
      var share := if fraction.Some? then fraction.value else reserveFraction;
      var unique := Unique(frontier);
      reservations := Shares(Now(), unique, share);
      return reservations;
    }

    method Release(node: string)
      requires Valid()
      modifies this`reservations
      ensures Valid() && Now() == Released(old(Now()), node)
    {
      reservations := reservations - {node};
    }

    method RecordRefusal(node: string, reason: string)
      requires Valid()
      modifies this`refusals
      ensures Valid()
      ensures Now() == old(Now()).(refusals := old(refusals) + [Refusal(node, reason, spent, Remaining(old(Now())))])
    {
      refusals := refusals + [Refusal(node, reason, spent, Remaining(Now()))];
    }

    /** Meters one completed call; nothing else moves `spent`. */
    method ChargeCall(p: Pricing, node: string, role: string, tier: string, model: Option<string>, usage: Usage,
                      projected: real, decision: string)
      returns (c: Charge)
      requires Valid() && p.unitTokens > 0
      modifies this`spent, this`charges, this`callsByNode
      ensures Valid()
      ensures c == Charge(node, role, tier, model, usage, Cost(p, model, usage), projected, decision)
      ensures Now() == Charged(old(Now()), c)
    {
      c := Charge(node, role, tier, model, usage, Cost(p, model, usage), projected, decision);
      Post(c);
    }

    method Post(c: Charge)
      requires Valid()
      modifies this`spent, this`charges, this`callsByNode
      ensures Valid() && Now() == Charged(old(Now()), c)
    {
      spent := spent + c.cost;
      charges := charges + [c];
      callsByNode := callsByNode[c.node := (if c.node in callsByNode then callsByNode[c.node] else 0) + 1];
      assert Now() == Charged(old(Now()), c);
      ChargedBalanced(old(Now()), c);
    }
  }
}
