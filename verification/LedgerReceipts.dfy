/** What a first receipt on a live reservation does, told by the receipt and the rows alone. */
module LedgerReceipts {
  import opened Wrappers
  import opened Calendar
  import opened LedgerErrors
  import opened Pricing
  import opened LedgerRows
  import opened LedgerCommands
  import opened LedgerInvariant
  import opened LedgerReplay
  import opened LedgerSettlement

  /** Reservation `i` is live, and the key is new. */
  ghost predicate FirstFor(db: Db, i: nat, publicId: string, key: string) {
    && EvidenceIdentifier(key) && EvidenceIdentifier(publicId)
    && i < |db.reservations| && db.reservations[i].publicId == publicId
    && (db.reservations[i].state.Dispatching? || db.reservations[i].state.Uncertain?)
    && (forall j :: 0 <= j < |db.events| ==> db.events[j].digest != key)
    && |db.events| < MAX_RESERVATION_EVENTS
  }

  lemma FoundForFirst(db: Db, i: nat, publicId: string, key: string)
    requires Inv(db) && FirstFor(db, i, publicId, key)
    ensures FindByPublicId(db.reservations, publicId) == Some(i) && FindEvent(db.events, key).None?
  {
    ReservationAt(db, i);
  }

  // ---- what a receipt says of its reservation ---------------------------

  predicate SameProvider(r: Reservation, b: ReceiptBody) {
    b.laneId == r.laneId && b.providerId == r.providerId
  }

  predicate SameModel(r: Reservation, b: ReceiptBody) {
    b.modelId == r.modelId && b.requestedModel == r.requestedModel
  }

  predicate Names(r: Reservation, b: ReceiptBody) {
    b.jobId == r.jobId && SameProvider(r, b) && SameModel(r, b)
  }

  /** Every count is a 64-bit natural number and the session is a digest. */
  predicate Sensible(b: ReceiptBody) {
    && Sha256(b.session)
    && 0 <= b.usage.requests <= MAX64 && 0 <= b.usage.inputTokens <= MAX64
    && 0 <= b.usage.outputTokens <= MAX64 && 0 <= b.usage.minutes <= MAX64
  }

  predicate OthersSession(db: Db, i: nat, b: ReceiptBody) {
    exists j :: 0 <= j < |db.reservations| && j != i && db.reservations[j].session == Some(b.session)
  }

  /** The receipt identifies the reservation and nothing else is wrong with it. */
  predicate Genuine(db: Db, i: nat, b: ReceiptBody)
    requires i < |db.reservations|
  {
    Names(db.reservations[i], b) && Sensible(b) && !OthersSession(db, i, b)
  }

  /** Some priced unit was used. */
  predicate UsesSomething(db: Db, i: nat, b: ReceiptBody) {
    exists t :: t in TermsOf(db.prices, i) && QuantityFor(b.usage, t.unit) > 0
  }

  predicate InEnvelope(r: Reservation, b: ReceiptBody) {
    && b.usage.requests <= r.envelope.requests && b.usage.inputTokens <= r.envelope.inputTokens
    && b.usage.outputTokens <= r.envelope.outputTokens && b.usage.minutes <= r.envelope.minutes
  }

  /** Every product and the whole cost fit in 64 bits. */
  ghost predicate Computable(db: Db, i: nat, b: ReceiptBody)
    requires ForeignKeys(db)
  {
    && (forall t :: t in TermsOf(db.prices, i) ==> QuantityFor(b.usage, t.unit) * t.price <= MAX64)
    && Charge(db, i, b.usage) <= MAX64
  }

  ghost predicate RoomFor(db: Db, key: string) {
    && |db.entries| < MAX_LEDGER_ENTRIES
    && forall e :: 0 <= e < |db.entries| ==> db.entries[e].digest != SettlementKey(key)
  }

  // ---- what happens to it -----------------------------------------------

  /** The row turns uncertain for `why`, one event says so, and nothing else changes. */
  predicate Doubts(db: Db, i: nat, key: string, b: ReceiptBody, step: Step, why: UncertaintyReason)
    requires i < |db.reservations|
  {
    var row := db.reservations[i].(state := Uncertain, reason := Some(Doubt(why)), updatedAt := b.occurredAt);
    && step.0 == db.(
         reservations := db.reservations[i := row],
         events := db.events + [Event(i, key, ReceiptRejected, Uncertain, b.occurredAt, Some(Doubt(why)), None, Some(b))])
    && step.1 == SettlementReply(true, row, Some(Doubt(why)))
  }

  lemma DoubtsOnce(db: Db, i: nat, key: string, b: ReceiptBody, step: Step, a: UncertaintyReason, c: UncertaintyReason)
    requires i < |db.reservations| && Doubts(db, i, key, b, step, a) && Doubts(db, i, key, b, step, c)
    ensures a == c
  {
  }

  /** The charge is posted for the priced usage and the hold is gone. */
  predicate Charges(db: Db, i: nat, key: string, b: ReceiptBody, step: Step, cost: int)
    requires ForeignKeys(db) && i < |db.reservations|
  {
    var r := db.reservations[i];
    var p := db.periods[r.period];
    var row := r.(actual := Some(cost), state := Settled, reason := Some(Complete), session := Some(b.session),
                  entry := Some(|db.entries|), updatedAt := b.occurredAt);
    && step.0 == Db(
         db.periods[r.period := p.(net := p.net + cost, active := p.active - r.held, entryCount := p.entryCount + 1)],
         db.entries + [Entry(SettlementKey(key), r.period, ProviderCharge, Debit, cost, At(r.createdAt), "USD",
                             r.providerId, None)],
         db.reservations[i := row],
         db.prices,
         db.events + [Event(i, key, SettledEvent, Settled, b.occurredAt, Some(Complete), Some(b.session), Some(b))])
    && step.1 == SettlementReply(true, row, Some(Complete))
  }

  lemma CostAgrees(db: Db, i: nat, b: ReceiptBody)
    requires Inv(db) && i < |db.reservations| && Sensible(b)
    ensures UsageCost(db, i, b).Ok? <==> Computable(db, i, b)
    ensures UsageCost(db, i, b).Ok? ==> UsageCost(db, i, b).value == Charge(db, i, b.usage) >= 0
    ensures UsageCost(db, i, b).Err? ==> UsageCost(db, i, b).error.Amount?
  {
    StoredCost(db, i, b.usage);
    PricedCostMeaning(b.usage, StoredTerms(db, i), false);
    CountableFailsAsAmount(b.usage, StoredTerms(db, i), 0);
  }

  lemma ChargedWhenUsed(u: Usage, terms: seq<PriceTerm>)
    requires AllPriced(terms) && ValidUsage(u)
    ensures CostSum(u, terms) > 0 <==> exists t :: t in terms && QuantityFor(u, t.unit) > 0
  {
    if t :| t in terms && QuantityFor(u, t.unit) > 0 {
      var k :| 0 <= k < |terms| && terms[k] == t;
      PositiveLine(u, terms, k);
    } else {
      ZeroLines(u, terms);
    }
  }

  lemma MeasuresAgree(db: Db, i: nat, b: ReceiptBody)
    requires Inv(db) && i < |db.reservations| && Sensible(b)
    ensures ValidUsage(b.usage)
    ensures UsageCost(db, i, b).Ok? <==> Computable(db, i, b)
    ensures UsageCost(db, i, b).Ok? ==> UsageCost(db, i, b).value == Charge(db, i, b.usage) >= 0
    ensures UsageCost(db, i, b).Err? ==> UsageCost(db, i, b).error.Amount?
    ensures Charge(db, i, b.usage) > 0 <==> UsesSomething(db, i, b)
    ensures InEnvelope(db.reservations[i], b) ==>
      Computable(db, i, b) && Charge(db, i, b.usage) <= db.reservations[i].held
  {
    CostAgrees(db, i, b);
    TermsArePriced(db.prices, i);
    ChargedWhenUsed(b.usage, TermsOf(db.prices, i));
    if InEnvelope(db.reservations[i], b) {
      EnvelopeCost(db, i, b);
    }
  }

  /** A receipt that does not settle, case by case. */
  lemma DoubtedFor(db: Db, i: nat, key: string, b: ReceiptBody)
    requires Inv(db) && FirstFor(db, i, b.reservationId, key)
    ensures var r, step := db.reservations[i], SettleReservation(db, key, b);
      && (b.jobId != r.jobId ==> Doubts(db, i, key, b, step, JobMismatch))
      && (b.jobId == r.jobId && !SameProvider(r, b) ==> Doubts(db, i, key, b, step, ProviderMismatch))
      && (b.jobId == r.jobId && SameProvider(r, b) && !SameModel(r, b) ==> Doubts(db, i, key, b, step, ModelMismatch))
      && (Names(r, b) && !Sensible(b) ==> Doubts(db, i, key, b, step, MalformedReceipt))
      && (Names(r, b) && Sensible(b) && OthersSession(db, i, b) ==>
            Doubts(db, i, key, b, step, ProviderSessionConflict))
  {
    FoundForFirst(db, i, b.reservationId, key);
  }

  lemma MeasuredFor(db: Db, i: nat, key: string, b: ReceiptBody)
    requires Inv(db) && FirstFor(db, i, b.reservationId, key) && Genuine(db, i, b)
    ensures var r, step := db.reservations[i], SettleReservation(db, key, b);
      if !UsesSomething(db, i, b) then Doubts(db, i, key, b, step, ZeroUsageReceipt)
      else if !Computable(db, i, b) then step == (db, Rejected(Amount))
      else if !InEnvelope(r, b) then Doubts(db, i, key, b, step, ActualExceedsReservation)
      else if |db.entries| >= MAX_LEDGER_ENTRIES then step == (db, Rejected(Limit))
      else if !RoomFor(db, key) then step == (db, Rejected(Database))
      else Charges(db, i, key, b, step, Charge(db, i, b.usage))
  {
    FoundForFirst(db, i, b.reservationId, key);
    if !UsesSomething(db, i, b) {
      NothingCharged(db, i, b);
    }
    MeasuresAgree(db, i, b);
    var cost := UsageCost(db, i, b);
    assert SettleReservation(db, key, b) == SettleLive(db, i, key, b);
    GenuineMeasured(db, i, key, b, cost);
  }

  lemma GenuineMeasured(db: Db, i: nat, key: string, b: ReceiptBody, cost: Result<int, ErrorCode>)
    requires ForeignKeys(db) && i < |db.reservations| && Genuine(db, i, b) && cost == UsageCost(db, i, b)
    requires cost.Ok? ==> cost.value >= 0 && (InEnvelope(db.reservations[i], b) ==> cost.value <= db.reservations[i].held)
    ensures var r, step := db.reservations[i], SettleLive(db, i, key, b);
      if cost.Err? then step == (db, Rejected(cost.error))
      else if cost.value == 0 then Doubts(db, i, key, b, step, ZeroUsageReceipt)
      else if !InEnvelope(r, b) then Doubts(db, i, key, b, step, ActualExceedsReservation)
      else if |db.entries| >= MAX_LEDGER_ENTRIES then step == (db, Rejected(Limit))
      else if !RoomFor(db, key) then step == (db, Rejected(Database))
      else Charges(db, i, key, b, step, cost.value)
  {
  }

  lemma NothingCharged(db: Db, i: nat, b: ReceiptBody)
    requires Inv(db) && i < |db.reservations| && Sensible(b) && !UsesSomething(db, i, b)
    ensures Computable(db, i, b)
  {
    MeasuresAgree(db, i, b);
    forall t | t in TermsOf(db.prices, i) ensures QuantityFor(b.usage, t.unit) * t.price <= MAX64 {
      assert QuantityFor(b.usage, t.unit) == 0;
      assert 0 * t.price == 0;
    }
  }

  /**
   * A first receipt on a live reservation: which doubt it leaves, when it is
   * charged, and when it is refused without a trace.
   */
  lemma ReceiptEndsExactly(db: Db, i: nat, key: string, b: ReceiptBody)
    requires Inv(db) && FirstFor(db, i, b.reservationId, key)
    ensures var r, step := db.reservations[i], SettleReservation(db, key, b);
      && (Doubts(db, i, key, b, step, JobMismatch) <==> b.jobId != r.jobId)
      && (Doubts(db, i, key, b, step, ProviderMismatch) <==> b.jobId == r.jobId && !SameProvider(r, b))
      && (Doubts(db, i, key, b, step, ModelMismatch) <==>
            b.jobId == r.jobId && SameProvider(r, b) && !SameModel(r, b))
      && (Doubts(db, i, key, b, step, MalformedReceipt) <==> Names(r, b) && !Sensible(b))
      && (Doubts(db, i, key, b, step, ProviderSessionConflict) <==>
            Names(r, b) && Sensible(b) && OthersSession(db, i, b))
      && (Doubts(db, i, key, b, step, ZeroUsageReceipt) <==> Genuine(db, i, b) && !UsesSomething(db, i, b))
      && (Doubts(db, i, key, b, step, ActualExceedsReservation) <==>
            Genuine(db, i, b) && UsesSomething(db, i, b) && Computable(db, i, b) && !InEnvelope(r, b))
      && (Charges(db, i, key, b, step, Charge(db, i, b.usage)) <==>
            Genuine(db, i, b) && UsesSomething(db, i, b) && InEnvelope(r, b) && RoomFor(db, key))
      && (step == (db, Rejected(Amount)) <==>
            Genuine(db, i, b) && UsesSomething(db, i, b) && !Computable(db, i, b))
      && (step.1.Rejected? ==> step.0 == db)
  {
    DoubtedFor(db, i, key, b);
    if Genuine(db, i, b) {
      MeasuresAgree(db, i, b);
      MeasuredFor(db, i, key, b);
    }
  }

  predicate WellNamed(key: string, publicId: string) {
    EvidenceIdentifier(key) && EvidenceIdentifier(publicId)
  }

  predicate UnusedKey(db: Db, key: string) {
    forall j :: 0 <= j < |db.events| ==> db.events[j].digest != key
  }

  /** A well-named receipt for reservation `i`. */
  predicate ReceiptFor(db: Db, i: nat, key: string, b: ReceiptBody) {
    WellNamed(key, b.reservationId) && i < |db.reservations| && db.reservations[i].publicId == b.reservationId
  }

  lemma FoundReceipt(db: Db, i: nat, key: string, b: ReceiptBody)
    requires Inv(db) && ReceiptFor(db, i, key, b)
    ensures FindByPublicId(db.reservations, b.reservationId) == Some(i)
  {
    ReservationAt(db, i);
  }

  /** A receipt under a used key is a replay of its own event, or conflicts. */
  lemma UsedKeyReceipt(db: Db, i: nat, j: nat, key: string, b: ReceiptBody)
    requires Inv(db) && ReceiptFor(db, i, key, b) && j < |db.events| && db.events[j].digest == key
    ensures SettleReservation(db, key, b) ==
      (db, if db.events[j].reservation == i && db.events[j].receipt == Some(b)
           then SettlementReply(false, db.reservations[i], db.reservations[i].reason)
           else Rejected(Idempotency))
  {
    FoundReceipt(db, i, key, b);
    EventAt(db, j);
  }

  /** A new receipt on a closed reservation is recorded and changes nothing else. */
  lemma LateReceiptIsNoted(db: Db, i: nat, key: string, b: ReceiptBody)
    requires Inv(db) && ReceiptFor(db, i, key, b) && UnusedKey(db, key)
    requires |db.events| < MAX_RESERVATION_EVENTS && db.reservations[i].state in {Settled, Reconciled}
    ensures var r := db.reservations[i];
      SettleReservation(db, key, b) ==
      (db.(events := db.events + [Event(i, key, if r.state.Settled? then SettledEvent else ReceiptRejected, r.state,
                                        b.occurredAt, Some(AlreadyTerminal), None, Some(b))]),
       SettlementReply(true, r, Some(AlreadyTerminal)))
  {
    FoundReceipt(db, i, key, b);
  }

  /** The remaining refusals. */
  lemma ReceiptRefusedFor(db: Db, key: string, b: ReceiptBody)
    requires Inv(db)
    ensures var step := SettleReservation(db, key, b);
      && (step.1 == Rejected(Identifier) <==> !WellNamed(key, b.reservationId))
      && (step.1 == Rejected(Missing) <==>
            WellNamed(key, b.reservationId)
            && forall i :: 0 <= i < |db.reservations| ==> db.reservations[i].publicId != b.reservationId)
      && ((exists i :: ReceiptFor(db, i, key, b)) && UnusedKey(db, key) && |db.events| >= MAX_RESERVATION_EVENTS ==>
            step == (db, Rejected(Limit)))
  {
    var at := FindByPublicId(db.reservations, b.reservationId);
    if at.Some? && Sensible(b) {
      CostAgrees(db, at.value, b);
    }
  }
}
