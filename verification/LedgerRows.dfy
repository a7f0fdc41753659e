/**
 * The five cash tables of the budget ledger and the queries over them.
 *
 * A row's id is its position: rows are appended and never deleted.  A digest is
 * represented by the value it is computed from, which makes it injective.
 */
module LedgerRows {
  import opened Wrappers
  import opened Text
  import opened Calendar
  import opened LedgerErrors
  import opened Pricing

  type Digest = string

  datatype EntryKind =
    | FixedSubscription | ProviderCharge | RefundKind | ManualAdjustment | EmergencyReserve
    | OtherKind(name: string)

  datatype Direction = Debit | Credit | Allocation | OtherDirection(name: string)

  datatype ReservationState = Dispatching | Uncertain | Settled | Reconciled

  datatype UncertaintyReason =
    | ActualExceedsReservation | JobMismatch | MalformedReceipt | ModelMismatch | PartialReceipt
    | ProviderMismatch | ProviderSessionConflict | RunMismatch | WorkerInterrupted
    | ZeroUsageReceipt | UnsupportedReason(name: string)

  datatype NoChargeReason = ProviderConfirmedNoCharge | VerifiedNeverDispatched

  datatype Reason =
    | Complete | AlreadyTerminal | ManualDebit
    | NoCharge(noCharge: NoChargeReason) | Doubt(doubt: UncertaintyReason)

  datatype EventKind =
    | DispatchReserved | ReceiptRejected | SettledEvent | ReconciledNoCharge | ReconciledManualDebit

  /** Everything a settlement receipt says apart from its idempotency key. */
  datatype ReceiptBody = ReceiptBody(
    reservationId: string, jobId: string, laneId: string, providerId: string, modelId: string,
    requestedModel: string, session: string, usage: Usage, occurredAt: UtcStamp)

  datatype Period = Period(
    start: UtcMonth, end: Month, currency: string, cap: int, reserve: int,
    policyId: string, policyRevision: int, net: int, active: int, entryCount: int)

  datatype Entry = Entry(
    digest: Digest, period: nat, kind: EntryKind, direction: Direction, amount: int,
    occurredAt: Instant, currency: string, source: string, reference: Option<nat>)

  datatype Reservation = Reservation(
    publicId: string, digest: Digest, period: nat, jobId: string, laneId: string,
    providerId: string, modelId: string, requestedModel: string, costLaneId: string,
    policyId: string, policyRevision: int, pricingDigest: seq<PriceTerm>, held: int,
    envelope: Usage, actual: Option<int>, state: ReservationState, reason: Option<Reason>,
    session: Option<Digest>, entry: Option<nat>, createdAt: UtcStamp, updatedAt: UtcStamp)

  datatype PriceRow = PriceRow(reservation: nat, term: PriceTerm)

  datatype Event = Event(
    reservation: nat, digest: Digest, kind: EventKind, resulting: ReservationState,
    occurredAt: UtcStamp, reason: Option<Reason>, evidence: Option<Digest>,
    receipt: Option<ReceiptBody>)

  datatype Db = Db(
    periods: seq<Period>, entries: seq<Entry>, reservations: seq<Reservation>,
    prices: seq<PriceRow>, events: seq<Event>)

  const EMPTY := Db([], [], [], [], [])

  const MAX_BUDGET_PERIODS := 600
  const MAX_LEDGER_ENTRIES := 100_000
  const MAX_PERIOD_ENTRIES := 100_000
  const MAX_PERIOD_RESERVATIONS := 100_000
  const MAX_COST_RESERVATIONS := 100_000
  const MAX_RESERVATION_EVENTS := 500_000
  const MAX_RESERVATION_PRICES := 400_000

  function Max(a: int, b: int): int {
    if a >= b then a else b
  }

  predicate Live(s: ReservationState) {
    s.Dispatching? || s.Uncertain?
  }

  predicate IsCharge(k: EntryKind) {
    k.FixedSubscription? || k.ProviderCharge?
  }

  /** Spending money of a period before anything is spent or held. */
  function Spendable(p: Period): int {
    p.cap - p.reserve
  }

  function PublicId(key: string): string {
    "res-" + key
  }

  // ---- foreign keys -----------------------------------------------------

  /** What SQLite's foreign keys keep: every reference names a row. */
  predicate ForeignKeys(db: Db) {
    && (forall i :: 0 <= i < |db.entries| ==> db.entries[i].period < |db.periods|)
    && (forall i :: 0 <= i < |db.entries| ==>
          db.entries[i].reference.Some? ==> db.entries[i].reference.value < |db.entries|)
    && (forall i :: 0 <= i < |db.reservations| ==> db.reservations[i].period < |db.periods|)
    && (forall i :: 0 <= i < |db.reservations| ==>
          db.reservations[i].entry.Some? ==> db.reservations[i].entry.value < |db.entries|)
    && (forall i :: 0 <= i < |db.events| ==> db.events[i].reservation < |db.reservations|)
    && (forall i :: 0 <= i < |db.prices| ==>
          db.prices[i].reservation < |db.reservations| && Priced(db.prices[i].term))
  }

  // ---- lookups by key ---------------------------------------------------

  function FindPeriod(s: seq<Period>, start: Month): (r: Option<nat>)
    ensures r.Some? ==> r.value < |s| && s[r.value].start == start
    ensures r.None? ==> forall i :: 0 <= i < |s| ==> s[i].start != start
  {
    if s == [] then None
    else
      var r := FindPeriod(s[..|s| - 1], start);
      if r.Some? then r else if s[|s| - 1].start == start then Some(|s| - 1) else None
  }

  function FindEntry(s: seq<Entry>, digest: Digest): (r: Option<nat>)
    ensures r.Some? ==> r.value < |s| && s[r.value].digest == digest
    ensures r.None? ==> forall i :: 0 <= i < |s| ==> s[i].digest != digest
  {
    if s == [] then None
    else
      var r := FindEntry(s[..|s| - 1], digest);
      if r.Some? then r else if s[|s| - 1].digest == digest then Some(|s| - 1) else None
  }

  function FindByDigest(s: seq<Reservation>, digest: Digest): (r: Option<nat>)
    ensures r.Some? ==> r.value < |s| && s[r.value].digest == digest
    ensures r.None? ==> forall i :: 0 <= i < |s| ==> s[i].digest != digest
  {
    if s == [] then None
    else
      var r := FindByDigest(s[..|s| - 1], digest);
      if r.Some? then r else if s[|s| - 1].digest == digest then Some(|s| - 1) else None
  }

  function FindByPublicId(s: seq<Reservation>, publicId: string): (r: Option<nat>)
    ensures r.Some? ==> r.value < |s| && s[r.value].publicId == publicId
    ensures r.None? ==> forall i :: 0 <= i < |s| ==> s[i].publicId != publicId
  {
    if s == [] then None
    else
      var r := FindByPublicId(s[..|s| - 1], publicId);
      if r.Some? then r else if s[|s| - 1].publicId == publicId then Some(|s| - 1) else None
  }

  function FindByJob(s: seq<Reservation>, jobId: string): (r: Option<nat>)
    ensures r.Some? ==> r.value < |s| && s[r.value].jobId == jobId
    ensures r.None? ==> forall i :: 0 <= i < |s| ==> s[i].jobId != jobId
  {
    if s == [] then None
    else
      var r := FindByJob(s[..|s| - 1], jobId);
      if r.Some? then r else if s[|s| - 1].jobId == jobId then Some(|s| - 1) else None
  }

  function FindEvent(s: seq<Event>, digest: Digest): (r: Option<nat>)
    ensures r.Some? ==> r.value < |s| && s[r.value].digest == digest
    ensures r.None? ==> forall i :: 0 <= i < |s| ==> s[i].digest != digest
  {
    if s == [] then None
    else
      var r := FindEvent(s[..|s| - 1], digest);
      if r.Some? then r else if s[|s| - 1].digest == digest then Some(|s| - 1) else None
  }

  // ---- aggregates -------------------------------------------------------

  /** The integer a SUM adds for one entry row. */
  datatype Measure =
    | Net | Rows | ReserveRows | ReserveAmount
    | ReserveMatches(start: Month, policyId: string)
    | TextOutside(from: UtcMonth, until: Month)
    | Refunds(charge: nat)

  function Weight(m: Measure, e: Entry, p: nat): int {
    if m.Refunds? then
      (if e.kind.RefundKind? && e.reference == Some(m.charge) then e.amount else 0)
    else if e.period == p then OwnWeight(m, e)
    else 0
  }

  function OwnWeight(m: Measure, e: Entry): int {
    match m
    case Net =>
      if e.direction.Debit? then e.amount else if e.direction.Credit? then -e.amount else 0
    case Rows => 1
    case ReserveRows => if e.kind.EmergencyReserve? then 1 else 0
    case ReserveAmount => if e.kind.EmergencyReserve? then e.amount else 0
    case ReserveMatches(start, policyId) =>
      if e.kind.EmergencyReserve? && e.occurredAt == Boundary(start)
         && e.currency == "USD" && e.source == policyId then 1 else 0
    case TextOutside(from, until) => if OutsideText(e.occurredAt, from, until) then 1 else 0
    case Refunds(_) => 0
  }

  /** `occurred_at_utc < period_start_utc OR occurred_at_utc >= period_end_utc`, as text. */
  predicate OutsideText(at: Instant, from: UtcMonth, until: Month) {
    && ValidInstant(at) && ValidMonth(until)
    && (TextBefore(InstantText(at), BoundaryText(from)) || !TextBefore(InstantText(at), BoundaryText(until)))
  }

  /** `SUM` of a measure over the entries of period `p` (refunds: over all entries). */
  function Total(m: Measure, entries: seq<Entry>, p: nat): int {
    if entries == [] then 0
    else Total(m, entries[..|entries| - 1], p) + Weight(m, entries[|entries| - 1], p)
  }

  /** `SUM` of the held amounts of the dispatching and uncertain reservations of `p`. */
  function Held(reservations: seq<Reservation>, p: nat): int {
    if reservations == [] then 0
    else
      var r := reservations[|reservations| - 1];
      Held(reservations[..|reservations| - 1], p)
      + (if r.period == p && Live(r.state) then r.held else 0)
  }

  function ReservationsIn(reservations: seq<Reservation>, p: nat): nat {
    if reservations == [] then 0
    else
      ReservationsIn(reservations[..|reservations| - 1], p)
      + (if reservations[|reservations| - 1].period == p then 1 else 0)
  }

  /** The price terms of a reservation in insertion order. */
  function TermsOf(prices: seq<PriceRow>, reservation: nat): seq<PriceTerm> {
    if prices == [] then []
    else
      var q := prices[|prices| - 1];
      TermsOf(prices[..|prices| - 1], reservation)
      + (if q.reservation == reservation then [q.term] else [])
  }

  /** `ORDER BY unit`, as `price_terms_for` reads them. */
  function StoredTerms(db: Db, reservation: nat): seq<PriceTerm> {
    SortByUnit(TermsOf(db.prices, reservation))
  }

  function LastState(events: seq<Event>, reservation: nat): Option<ReservationState> {
    if events == [] then None
    else if events[|events| - 1].reservation == reservation then Some(events[|events| - 1].resulting)
    else LastState(events[..|events| - 1], reservation)
  }

  function DispatchEvents(events: seq<Event>, reservation: nat): nat {
    if events == [] then 0
    else
      var v := events[|events| - 1];
      DispatchEvents(events[..|events| - 1], reservation)
      + (if v.reservation == reservation && v.kind.DispatchReserved? then 1 else 0)
  }

  lemma {:induction false} TermsArePriced(prices: seq<PriceRow>, reservation: nat)
    requires forall i :: 0 <= i < |prices| ==> Priced(prices[i].term)
    ensures AllPriced(TermsOf(prices, reservation))
    ensures AllPriced(SortByUnit(TermsOf(prices, reservation)))
  {
    if prices != [] {
      TermsArePriced(prices[..|prices| - 1], reservation);
    }
    SortByUnitPermutes(TermsOf(prices, reservation));
  }
}
