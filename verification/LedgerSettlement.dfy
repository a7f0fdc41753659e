/** Exactly which receipts settle a live reservation, and what a settlement does to its period. */
module LedgerSettlement {
  import opened Wrappers
  import opened Calendar
  import opened LedgerErrors
  import opened Pricing
  import opened LedgerRows
  import opened LedgerCommands
  import opened LedgerInvariant
  import opened LedgerPreservation

  /** The receipt names the reservation's job, lane, provider and model. */
  predicate SameDispatch(r: Reservation, b: ReceiptBody) {
    && b.jobId == r.jobId && b.laneId == r.laneId && b.providerId == r.providerId
    && b.modelId == r.modelId && b.requestedModel == r.requestedModel
  }

  ghost predicate Settles(db: Db, i: nat, key: string, b: ReceiptBody)
    requires Inv(db) && i < |db.reservations|
  {
    var r := db.reservations[i];
    && SameDispatch(r, b) && Sha256(b.session) && ValidUsage(b.usage)
    && !SessionTaken(db, i, b.session)
    && Within(b.usage, r.envelope)
    && (exists t :: t in TermsOf(db.prices, i) && QuantityFor(b.usage, t.unit) > 0)
    && |db.entries| < MAX_LEDGER_ENTRIES && FindEntry(db.entries, SettlementKey(key)).None?
  }

  lemma {:induction false} PositiveLine(u: Usage, terms: seq<PriceTerm>, k: nat)
    requires AllPriced(terms) && k < |terms| && QuantityFor(u, terms[k].unit) > 0
    requires forall t :: t in terms ==> QuantityFor(u, t.unit) >= 0
    ensures CostSum(u, terms) > 0
  {
    var n := |terms| - 1;
    LineMonotone(u, u, terms[n]);
    if k == n {
      CostSumNonNegative(u, terms[..n]);
      LineRoundsUp(u, terms[n]);
      ProductPositive(QuantityFor(u, terms[n].unit), terms[n].price);
    } else {
      PositiveLine(u, terms[..n], k);
    }
  }

  lemma ProductPositive(a: int, b: int)
    requires a > 0 && b > 0
    ensures a * b > 0
  {
  }

  lemma ZeroLines(u: Usage, terms: seq<PriceTerm>)
    requires AllPriced(terms) && forall t :: t in terms ==> QuantityFor(u, t.unit) == 0
    ensures CostSum(u, terms) == 0
  {
    if terms != [] {
      var t := terms[|terms| - 1];
      ZeroLines(u, terms[..|terms| - 1]);
      assert 0 * t.price == 0;
      DivisionBounds(t.quantity - 1, t.quantity);
      SmallQuotient(t.quantity);
    }
  }

  lemma SmallQuotient(q: int)
    requires q > 0
    ensures (q - 1) / q == 0
  {
  }

  /** What a reservation's own price list charges for a usage, with no machine bound. */
  function Charge(db: Db, i: nat, u: Usage): int
    requires ForeignKeys(db)
  {
    TermsArePriced(db.prices, i);
    CostSum(u, TermsOf(db.prices, i))
  }

  /** The price list read back sorted costs what it cost when the hold was computed. */
  lemma StoredCost(db: Db, i: nat, u: Usage)
    requires Inv(db) && i < |db.reservations|
    ensures AllPriced(StoredTerms(db, i)) && AllPriced(TermsOf(db.prices, i))
    ensures CostSum(u, StoredTerms(db, i)) == CostSum(u, TermsOf(db.prices, i))
    ensures Chargeable(u, StoredTerms(db, i)) <==> Chargeable(u, TermsOf(db.prices, i))
  {
    TermsArePriced(db.prices, i);
    SortByUnitPermutes(TermsOf(db.prices, i));
    CostOrderIrrelevant(u, StoredTerms(db, i), TermsOf(db.prices, i));
  }

  /** Valid usage inside the envelope always has a price, and it is within the hold. */
  lemma EnvelopeCost(db: Db, i: nat, b: ReceiptBody)
    requires Inv(db) && i < |db.reservations| && ValidUsage(b.usage)
    requires Within(b.usage, db.reservations[i].envelope)
    ensures UsageCost(db, i, b) == Ok(Charge(db, i, b.usage))
    ensures 0 <= Charge(db, i, b.usage) <= db.reservations[i].held
    ensures Charge(db, i, b.usage) > 0 <==>
      exists t :: t in TermsOf(db.prices, i) && QuantityFor(b.usage, t.unit) > 0
  {
    var r, terms := db.reservations[i], TermsOf(db.prices, i);
    assert AdmissionOk(db, i);
    StoredCost(db, i, b.usage);
    EnvelopeDominates(b.usage, r.envelope, terms);
    PricedCostMeaning(b.usage, StoredTerms(db, i), false);
    if t :| t in terms && QuantityFor(b.usage, t.unit) > 0 {
      var k :| 0 <= k < |terms| && terms[k] == t;
      PositiveLine(b.usage, terms, k);
    } else {
      ZeroLines(b.usage, terms);
    }
  }

  /**
   * A first receipt for a live reservation settles it exactly when it names the
   * dispatch, reports some priced usage inside the envelope under a fresh
   * session, and the ledger can take its entry.  The charge is then the price
   * of the reported usage, never more than was held.
   */
  lemma SettlesExactlyWhen(db: Db, i: nat, key: string, b: ReceiptBody)
    requires Inv(db) && i < |db.reservations| && Live(db.reservations[i].state)
    ensures SettleLive(db, i, key, b).0.reservations[i].state.Settled? <==> Settles(db, i, key, b)
    ensures Settles(db, i, key, b) ==>
      var cost := Charge(db, i, b.usage);
      && 0 < cost <= db.reservations[i].held
      && SettleLive(db, i, key, b).0 == PostSettlement(db, i, key, b, cost)
  {
    if ValidUsage(b.usage) && Within(b.usage, db.reservations[i].envelope) {
      EnvelopeCost(db, i, b);
    }
  }

  /** The money a period can still commit. */
  function Headroom(p: Period): int {
    Spendable(p) - Max(p.net, 0) - p.active
  }

  /** Settling converts a hold into spending and frees the rest; other periods are untouched. */
  lemma SettlementFreesHeadroom(db: Db, i: nat, key: string, b: ReceiptBody)
    requires Inv(db) && i < |db.reservations| && Live(db.reservations[i].state)
    requires Settles(db, i, key, b)
    ensures var r, after := db.reservations[i], SettleLive(db, i, key, b).0;
      var cost := Charge(db, i, b.usage);
      && after.periods[r.period].net == db.periods[r.period].net + cost
      && after.periods[r.period].active == db.periods[r.period].active - r.held
      && Headroom(after.periods[r.period]) >= Headroom(db.periods[r.period]) + r.held - cost
      && forall p :: 0 <= p < |db.periods| && p != r.period ==> after.periods[p] == db.periods[p]
  {
    SettlesExactlyWhen(db, i, key, b);
  }
}
