/** Price terms, usage envelopes and the 64-bit cost computation over them. */
module Pricing {
  import opened Wrappers
  import opened Calendar
  import opened LedgerErrors

  datatype PriceUnit = PerRequest | PerInputToken | PerOutputToken | PerMinute

  datatype Usage = Usage(requests: int, inputTokens: int, outputTokens: int, minutes: int)

  datatype PriceTerm = PriceTerm(
    snapshotId: string, unit: PriceUnit, quantity: int, price: int,
    observedAt: UtcStamp, expiresAt: UtcStamp)

  function QuantityFor(u: Usage, unit: PriceUnit): int {
    match unit
    case PerRequest => u.requests
    case PerInputToken => u.inputTokens
    case PerOutputToken => u.outputTokens
    case PerMinute => u.minutes
  }

  predicate Countable(n: int) {
    0 <= n <= MAX64
  }

  predicate ValidUsage(u: Usage) {
    Countable(u.requests) && Countable(u.inputTokens)
    && Countable(u.outputTokens) && Countable(u.minutes)
  }

  predicate Within(u: Usage, limit: Usage) {
    && u.requests <= limit.requests && u.inputTokens <= limit.inputTokens
    && u.outputTokens <= limit.outputTokens && u.minutes <= limit.minutes
  }

  /** What `PriceTerm.validate_at` and the price table guarantee of a term. */
  predicate Priced(t: PriceTerm) {
    t.quantity > 0 && t.price > 0
  }

  predicate AllPriced(terms: seq<PriceTerm>) {
    forall t :: t in terms ==> Priced(t)
  }

  function CeilDiv(a: int, q: int): int
    requires q > 0
  {
    (a + q - 1) / q
  }

  function Line(u: Usage, t: PriceTerm): int
    requires Priced(t)
  {
    CeilDiv(QuantityFor(u, t.unit) * t.price, t.quantity)
  }

  /** The amount a list of terms is meant to cost, with no machine bound in it. */
  function CostSum(u: Usage, terms: seq<PriceTerm>): int
    requires AllPriced(terms)
  {
    if terms == [] then 0 else CostSum(u, terms[..|terms| - 1]) + Line(u, terms[|terms| - 1])
  }

  predicate Chargeable(u: Usage, terms: seq<PriceTerm>) {
    forall t :: t in terms ==>
      Countable(QuantityFor(u, t.unit)) && QuantityFor(u, t.unit) * t.price <= MAX64
  }

  /** The terms before the current one, left to right, with their running total. */
  function PriceFrom(u: Usage, terms: seq<PriceTerm>, total: int): Result<int, ErrorCode>
    requires AllPriced(terms)
  {
    if terms == [] then Ok(total)
    else
      var t, count := terms[0], QuantityFor(u, terms[0].unit);
      assert t in terms;
      if !Countable(count) then Err(Integer)
      else if count > MAX64 / t.price then Err(Amount)
      else if Line(u, t) > MAX64 - total then Err(Amount)
      else PriceFrom(u, terms[1..], total + Line(u, t))
  }

  function PricedCost(u: Usage, terms: seq<PriceTerm>, requirePositive: bool): Result<int, ErrorCode>
    requires AllPriced(terms)
  {
    var r := PriceFrom(u, terms, 0);
    if r.Ok? && requirePositive && r.value <= 0 then Err(Amount) else r
  }

  // ---- arithmetic -------------------------------------------------------

  lemma ProductBound(count: int, price: int)
    requires 0 <= count && 0 < price
    ensures count > MAX64 / price <==> count * price > MAX64
  {
    var q := MAX64 / price;
    DivisionBounds(MAX64, price);
    if count <= q {
      ProductOrder(count, q, price);
    } else {
      ProductOrder(q, q + 1, price);
      ProductOrder(q + 1, count, price);
    }
  }

  lemma ProductOrder(x: int, y: int, factor: int)
    requires x <= y && 0 < factor
    ensures x * factor <= y * factor
    ensures (x + 1) * factor == x * factor + factor
  {
  }

  lemma DivisionBounds(x: int, q: int)
    requires q > 0
    ensures x / q * q <= x < x / q * q + q
  {
  }

  lemma QuotientOrder(x: int, y: int, i: int, j: int, q: int)
    requires q > 0 && i * q <= x <= y < j * q + q
    ensures i <= j
  {
    var d := i - j - 1;
    assert i * q == j * q + q + d * q;
    assert d >= 0 ==> d * q >= 0;
  }

  lemma CeilDivMonotone(a: int, b: int, q: int)
    requires 0 <= a <= b && q > 0
    ensures 0 <= CeilDiv(a, q) <= CeilDiv(b, q)
  {
    var x, y := a + q - 1, b + q - 1;
    DivisionBounds(x, q);
    DivisionBounds(y, q);
    QuotientOrder(x, y, x / q, y / q, q);
    QuotientOrder(0, x, 0, x / q, q);
  }

  lemma LineMonotone(u: Usage, limit: Usage, t: PriceTerm)
    requires Priced(t) && 0 <= QuantityFor(u, t.unit) <= QuantityFor(limit, t.unit)
    ensures 0 <= QuantityFor(u, t.unit) * t.price <= QuantityFor(limit, t.unit) * t.price
    ensures 0 <= Line(u, t) <= Line(limit, t)
  {
    CeilDivMonotone(QuantityFor(u, t.unit) * t.price, QuantityFor(limit, t.unit) * t.price, t.quantity);
  }

  /** A line charges no less than its exact price and rounds up by less than one unit. */
  lemma LineRoundsUp(u: Usage, t: PriceTerm)
    requires Priced(t)
    ensures var p := QuantityFor(u, t.unit) * t.price;
      p <= Line(u, t) * t.quantity < p + t.quantity
  {
    var x := QuantityFor(u, t.unit) * t.price + t.quantity - 1;
    assert x / t.quantity * t.quantity <= x < (x / t.quantity + 1) * t.quantity;
  }

  // ---- meaning of the loop ----------------------------------------------

  lemma {:induction false} CostSumCons(u: Usage, t: PriceTerm, rest: seq<PriceTerm>)
    requires AllPriced([t] + rest) && AllPriced(rest) && Priced(t)
    ensures CostSum(u, [t] + rest) == Line(u, t) + CostSum(u, rest)
  {
    if rest == [] {
      assert [t] + rest == [t];
    } else {
      var n := |rest| - 1;
      assert ([t] + rest)[..n + 1] == [t] + rest[..n];
      CostSumCons(u, t, rest[..n]);
    }
  }

  lemma {:induction false} CostSumNonNegative(u: Usage, terms: seq<PriceTerm>)
    requires AllPriced(terms) && forall t :: t in terms ==> QuantityFor(u, t.unit) >= 0
    ensures CostSum(u, terms) >= 0
  {
    if terms != [] {
      var t := terms[|terms| - 1];
      CostSumNonNegative(u, terms[..|terms| - 1]);
      LineMonotone(u, u, t);
    }
  }

  /** One turn of the loop either stops, exactly when it must, or moves the line into the total. */
  lemma PriceStep(u: Usage, terms: seq<PriceTerm>, total: int)
    requires terms != [] && AllPriced(terms) && 0 <= total <= MAX64
    ensures var t := terms[0]; var fits :=
        Chargeable(u, [t]) && total + Line(u, t) <= MAX64;
      && (fits ==> PriceFrom(u, terms, total) == PriceFrom(u, terms[1..], total + Line(u, t))
                   && Line(u, t) >= 0)
      && (!fits ==> PriceFrom(u, terms, total).Err?)
  {
    var t := terms[0];
    assert t in terms && t in [t];
    var count := QuantityFor(u, t.unit);
    if Countable(count) {
      ProductBound(count, t.price);
      LineMonotone(u, u, t);
    }
  }

  /** What a result of the loop means, started with `total` already charged. */
  predicate Means(r: Result<int, ErrorCode>, u: Usage, terms: seq<PriceTerm>, total: int)
    requires AllPriced(terms)
  {
    && (r.Ok? <==> (Chargeable(u, terms) && total + CostSum(u, terms) <= MAX64))
    && (r.Ok? ==> r.value == total + CostSum(u, terms))
  }

  lemma MeansAfterLine(r: Result<int, ErrorCode>, u: Usage, t: PriceTerm, rest: seq<PriceTerm>, total: int)
    requires AllPriced([t] + rest) && AllPriced(rest) && Priced(t)
    requires Chargeable(u, [t]) && Means(r, u, rest, total + Line(u, t))
    ensures Means(r, u, [t] + rest, total)
  {
    CostSumCons(u, t, rest);
    assert t in [t];
    assert Chargeable(u, [t] + rest) <==> Chargeable(u, rest);
  }

  lemma MeansStopped(u: Usage, t: PriceTerm, rest: seq<PriceTerm>, total: int, code: ErrorCode)
    requires AllPriced([t] + rest) && AllPriced(rest) && Priced(t)
    requires !(Chargeable(u, [t]) && total + Line(u, t) <= MAX64)
    ensures Means(Err(code), u, [t] + rest, total)
  {
    CostSumCons(u, t, rest);
    if Chargeable(u, [t] + rest) {
      assert t in [t] + rest;
      forall x | x in rest ensures QuantityFor(u, x.unit) >= 0 {
        assert x in [t] + rest;
      }
      CostSumNonNegative(u, rest);
    }
  }

  lemma {:induction false} PriceFromMeaning(u: Usage, terms: seq<PriceTerm>, total: int)
    requires AllPriced(terms) && 0 <= total <= MAX64
    ensures Means(PriceFrom(u, terms, total), u, terms, total)
  {
    if terms != [] {
      var t, rest := terms[0], terms[1..];
      assert terms == [t] + rest;
      PriceStep(u, terms, total);
      if Chargeable(u, [t]) && total + Line(u, t) <= MAX64 {
        PriceFromMeaning(u, rest, total + Line(u, t));
        MeansAfterLine(PriceFrom(u, terms, total), u, t, rest, total);
      } else {
        MeansStopped(u, t, rest, total, PriceFrom(u, terms, total).error);
      }
    }
  }

  /**
   * The cost is the sum of the rounded-up lines; it fails exactly when a count,
   * a product or the total leaves its range, or a required charge is zero.
   */
  lemma PricedCostMeaning(u: Usage, terms: seq<PriceTerm>, requirePositive: bool)
    requires AllPriced(terms)
    ensures var r := PricedCost(u, terms, requirePositive);
      && (r.Ok? <==> (Chargeable(u, terms) && CostSum(u, terms) <= MAX64
                      && (requirePositive ==> CostSum(u, terms) > 0)))
      && (r.Ok? ==> r.value == CostSum(u, terms) >= 0)
  {
    PriceFromMeaning(u, terms, 0);
    if Chargeable(u, terms) {
      CostSumNonNegative(u, terms);
    }
  }

  /** Dropping an inner element and then the last is dropping the last and then the inner one. */
  lemma DropInside<T>(s: seq<T>, i: nat)
    requires i < |s| - 1
    ensures (s[..i] + s[i + 1..])[..|s| - 2] == s[..|s| - 1][..i] + s[..|s| - 1][i + 1..]
    ensures (s[..i] + s[i + 1..])[|s| - 2] == s[|s| - 1]
  {
    var a, b := (s[..i] + s[i + 1..])[..|s| - 2], s[..|s| - 1][..i] + s[..|s| - 1][i + 1..];
    forall k | 0 <= k < |s| - 2 ensures a[k] == b[k] {
      assert a[k] == if k < i then s[k] else s[k + 1];
      assert b[k] == if k < i then s[k] else s[k + 1];
    }
  }

  lemma {:induction false} CostSumRemove(u: Usage, terms: seq<PriceTerm>, i: nat)
    requires i < |terms| && AllPriced(terms) && AllPriced(terms[..i] + terms[i + 1..])
    ensures CostSum(u, terms) == CostSum(u, terms[..i] + terms[i + 1..]) + Line(u, terms[i])
  {
    var n := |terms| - 1;
    if i == n {
      assert terms[..i] + terms[i + 1..] == terms[..n];
    } else {
      DropInside(terms, i);
      CostSumRemove(u, terms[..n], i);
    }
  }

  lemma SameMembers(a: seq<PriceTerm>, b: seq<PriceTerm>)
    requires multiset(a) == multiset(b)
    ensures |a| == |b| && forall t :: t in a <==> t in b
  {
    assert |a| == |multiset(a)| && |multiset(b)| == |b|;
    forall t ensures t in a <==> t in b {
      assert t in multiset(a) <==> t in multiset(b);
    }
  }

  lemma RemoveOne(b: seq<PriceTerm>, i: nat)
    requires i < |b|
    ensures multiset(b[..i] + b[i + 1..]) == multiset(b) - multiset{b[i]}
    ensures forall x :: x in b[..i] + b[i + 1..] ==> x in b
  {
    assert b == b[..i] + [b[i]] + b[i + 1..];
  }

  lemma RemoveMatched(a: seq<PriceTerm>, b: seq<PriceTerm>, i: nat)
    requires a != [] && i < |b| && b[i] == a[|a| - 1] && multiset(a) == multiset(b)
    ensures multiset(a[..|a| - 1]) == multiset(b[..i] + b[i + 1..])
    ensures AllPriced(b) ==> AllPriced(b[..i] + b[i + 1..])
  {
    assert a == a[..|a| - 1] + [a[|a| - 1]];
    RemoveOne(b, i);
  }

  /** The order in which terms are listed changes neither the cost nor whether there is one. */
  lemma {:induction false} CostOrderIrrelevant(u: Usage, a: seq<PriceTerm>, b: seq<PriceTerm>)
    requires multiset(a) == multiset(b) && AllPriced(a) && AllPriced(b)
    ensures CostSum(u, a) == CostSum(u, b)
    ensures Chargeable(u, a) == Chargeable(u, b)
    decreases |a|
  {
    SameMembers(a, b);
    if a != [] {
      var n := |a| - 1;
      assert a[n] in b;
      var i :| 0 <= i < |b| && b[i] == a[n];
      var rest := b[..i] + b[i + 1..];
      RemoveMatched(a, b, i);
      CostSumRemove(u, b, i);
      CostOrderIrrelevant(u, a[..n], rest);
    }
  }

  /** When every count is one, a cost that fails fails as an amount. */
  lemma {:induction false} CountableFailsAsAmount(u: Usage, terms: seq<PriceTerm>, total: int)
    requires AllPriced(terms) && forall t :: t in terms ==> Countable(QuantityFor(u, t.unit))
    ensures PriceFrom(u, terms, total).Err? ==> PriceFrom(u, terms, total).error.Amount?
  {
    if terms != [] {
      assert terms[0] in terms;
      CountableFailsAsAmount(u, terms[1..], total + Line(u, terms[0]));
    }
  }

  /**
   * Usage inside the envelope never overflows and never costs more than the
   * envelope itself, whatever the two orders in which the terms are read.
   */
  lemma {:induction false} EnvelopeDominates(u: Usage, limit: Usage, terms: seq<PriceTerm>)
    requires AllPriced(terms) && Chargeable(limit, terms) && Within(u, limit)
    requires forall t :: t in terms ==> QuantityFor(u, t.unit) >= 0
    ensures Chargeable(u, terms) && 0 <= CostSum(u, terms) <= CostSum(limit, terms)
  {
    forall t | t in terms
      ensures Countable(QuantityFor(u, t.unit)) && QuantityFor(u, t.unit) * t.price <= MAX64
    {
      LineMonotone(u, limit, t);
    }
    if terms != [] {
      LineMonotone(u, limit, terms[|terms| - 1]);
      EnvelopeDominates(u, limit, terms[..|terms| - 1]);
    }
  }

  // ---- sorting by unit --------------------------------------------------

  function OfUnit(terms: seq<PriceTerm>, unit: PriceUnit): seq<PriceTerm> {
    if terms == [] then []
    else
      var rest := OfUnit(terms[..|terms| - 1], unit);
      if terms[|terms| - 1].unit == unit then rest + [terms[|terms| - 1]] else rest
  }

  /** Stable sort by unit name: input_token, minute, output_token, request. */
  function SortByUnit(terms: seq<PriceTerm>): seq<PriceTerm> {
    OfUnit(terms, PerInputToken) + OfUnit(terms, PerMinute)
    + OfUnit(terms, PerOutputToken) + OfUnit(terms, PerRequest)
  }

  lemma {:induction false} OfUnitCount(terms: seq<PriceTerm>, unit: PriceUnit, x: PriceTerm)
    ensures multiset(OfUnit(terms, unit))[x] == if x.unit == unit then multiset(terms)[x] else 0
  {
    if terms != [] {
      OfUnitCount(terms[..|terms| - 1], unit, x);
      assert terms == terms[..|terms| - 1] + [terms[|terms| - 1]];
    }
  }

  lemma SortByUnitKeeps(terms: seq<PriceTerm>)
    ensures multiset(SortByUnit(terms)) == multiset(terms)
  {
    forall x ensures multiset(SortByUnit(terms))[x] == multiset(terms)[x] {
      OfUnitCount(terms, PerInputToken, x);
      OfUnitCount(terms, PerMinute, x);
      OfUnitCount(terms, PerOutputToken, x);
      OfUnitCount(terms, PerRequest, x);
    }
  }

  lemma SortByUnitPermutes(terms: seq<PriceTerm>)
    ensures multiset(SortByUnit(terms)) == multiset(terms)
    ensures |SortByUnit(terms)| == |terms|
    ensures forall t :: t in SortByUnit(terms) <==> t in terms
  {
    SortByUnitKeeps(terms);
    SameMembers(SortByUnit(terms), terms);
  }

  /** `priced_cost`: one term at a time, leaving at the first failure. */
  method ComputePricedCost(u: Usage, terms: seq<PriceTerm>, requirePositive: bool)
    returns (r: Result<int, ErrorCode>)
    requires AllPriced(terms)
    ensures r == PricedCost(u, terms, requirePositive)
    ensures r.Ok? <==> (Chargeable(u, terms) && CostSum(u, terms) <= MAX64
                        && (requirePositive ==> CostSum(u, terms) > 0))
    ensures r.Ok? ==> r.value == CostSum(u, terms)
  {
    PricedCostMeaning(u, terms, requirePositive);
    var total, i := 0, 0;
    while i < |terms|
      invariant 0 <= i <= |terms| && 0 <= total <= MAX64
      invariant PriceFrom(u, terms, 0) == PriceFrom(u, terms[i..], total)
    {
      var t := terms[i];
      var count := QuantityFor(u, t.unit);
      NextTerm(u, terms, i, total);
      if !Countable(count) {
        return Err(Integer);
      }
      if count > MAX64 / t.price {
        return Err(Amount);
      }
      var product := count * t.price;
      var line := (product + t.quantity - 1) / t.quantity;
      if line > MAX64 - total {
        return Err(Amount);
      }
      LineMonotone(u, u, t);
      total := total + line;
      i := i + 1;
    }
    if requirePositive && total <= 0 {
      return Err(Amount);
    }
    r := Ok(total);
  }

  lemma NextTerm(u: Usage, terms: seq<PriceTerm>, i: nat, total: int)
    requires AllPriced(terms) && i < |terms|
    ensures Priced(terms[i])
    ensures PriceFrom(u, terms[i..], total)
      == (var t, count := terms[i], QuantityFor(u, terms[i].unit);
          if !Countable(count) then Err(Integer)
          else if count > MAX64 / t.price then Err(Amount)
          else if Line(u, t) > MAX64 - total then Err(Amount)
          else PriceFrom(u, terms[i + 1..], total + Line(u, t)))
  {
    assert terms[i..][0] == terms[i] && terms[i..][1..] == terms[i + 1..];
    assert terms[i] in terms;
  }
}
