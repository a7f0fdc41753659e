/**
 * The seven ledger commands as functions from one database state to the next.
 *
 * A rejected command returns the state it was given: that is the rollback.  Every
 * branch, its order and its error code follow the command it specifies.
 */
module LedgerCommands {
  import opened Wrappers
  import opened Calendar
  import opened LedgerErrors
  import opened Pricing
  import opened LedgerRows

  // ---- commands and replies ---------------------------------------------

  datatype PeriodConfig = PeriodConfig(
    startsOn: UtcMonth, startDay: int, cap: int, reserve: int, currency: string,
    policyId: string, policyRevision: int, key: string)

  datatype EntryInput = EntryInput(
    key: string, kind: EntryKind, direction: Direction, amount: int, occurredAt: UtcStamp,
    currency: string, source: string, reference: Option<string>)

  datatype ReservationRequest = ReservationRequest(
    key: string, jobId: string, laneId: string, providerId: string, modelId: string,
    requestedModel: string, costLaneId: string, policyId: string, policyRevision: int,
    occurredAt: UtcStamp, envelope: Usage, terms: seq<PriceTerm>)

  datatype UncertaintyInput = UncertaintyInput(
    reservationId: string, key: string, reason: UncertaintyReason, occurredAt: UtcStamp,
    evidence: string)

  /** Both reconciliations: a zero amount has no source, a manual debit has one. */
  datatype Reconciliation =
    | NoChargeInput(
        key: string, reservationId: string, evidence: string, occurredAt: UtcStamp,
        why: NoChargeReason)
    | ManualInput(
        key: string, reservationId: string, evidence: string, occurredAt: UtcStamp,
        manualAmount: int, manualSource: string)

  datatype Command =
    | InitializePeriod(config: PeriodConfig)
    | RecordEntry(input: EntryInput)
    | Reserve(request: ReservationRequest)
    | Settle(settleKey: string, body: ReceiptBody)
    | MarkUncertain(uncertainty: UncertaintyInput)
    | Reconcile(reconciliation: Reconciliation)

  datatype Summary = Summary(
    start: UtcMonth, end: Month, currency: string, cap: int, reserve: int, net: int,
    active: int, available: int, entryCount: int, policyId: string, policyRevision: int)

  datatype Reply =
    | Rejected(code: ErrorCode)
    | PeriodReply(created: bool, summary: Summary)
    | EntryReply(created: bool, entryId: nat, summary: Summary)
    | ReservationReply(created: bool, row: Reservation)
    | SettlementReply(created: bool, row: Reservation, reason: Option<Reason>)

  type Step = (Db, Reply)

  // ---- validation -------------------------------------------------------

  predicate Microcents(n: int) {
    1 <= n <= MAX64
  }

  function ConfigError(c: PeriodConfig): Option<ErrorCode> {
    if c.startDay != 1 then Some(PeriodRule)
    else if c.startsOn == LAST_MONTH then Some(PeriodRule)
    else if !Microcents(c.cap) then Some(Amount)
    else if !Microcents(c.reserve) then Some(Amount)
    else if c.reserve >= c.cap then Some(PeriodRule)
    else if c.currency != "USD" then Some(Currency)
    else if !LedgerIdentifier(c.policyId) then Some(Identifier)
    else if !Microcents(c.policyRevision) then Some(Integer)
    else if !LedgerIdentifier(c.key) then Some(Identifier)
    else None
  }

  function EntryError(e: EntryInput): Option<ErrorCode> {
    if !LedgerIdentifier(e.key) || !LedgerIdentifier(e.source) then Some(Identifier)
    else if !Microcents(e.amount) then Some(Amount)
    else if e.currency != "USD" then Some(Currency)
    else match e.kind
      case FixedSubscription =>
        if !e.direction.Debit? || e.reference.Some? then Some(EntryRule) else None
      case ProviderCharge =>
        if !e.direction.Debit? || e.reference.Some? then Some(EntryRule) else None
      case RefundKind =>
        if !e.direction.Credit? || e.reference.None? then Some(EntryRule)
        else if !LedgerIdentifier(e.reference.value) then Some(Identifier)
        else None
      case ManualAdjustment =>
        if !(e.direction.Debit? || e.direction.Credit?) || e.reference.Some? then Some(EntryRule)
        else None
      case EmergencyReserve => Some(EntryRule)
      case OtherKind(_) => Some(EntryRule)
  }

  predicate Fresh(t: PriceTerm, at: Stamp) {
    !Before(at, t.observedAt) && Before(at, t.expiresAt)
  }

  /** The checks the validation loop makes on its `i`-th term. */
  function TermError(q: ReservationRequest, i: nat): Option<ErrorCode>
    requires i < |q.terms|
  {
    var t := q.terms[i];
    if !EvidenceIdentifier(t.snapshotId) then Some(Identifier)
    else if !Microcents(t.quantity) then Some(Integer)
    else if !Microcents(t.price) then Some(Integer)
    else if !Fresh(t, q.occurredAt) then Some(Price)
    else if t.snapshotId in Snapshots(q.terms[..i]) then Some(Price)
    else if t.unit in Units(q.terms[..i]) then Some(Price)
    else if QuantityFor(q.envelope, t.unit) <= 0 then Some(Price)
    else None
  }

  function Snapshots(terms: seq<PriceTerm>): set<string> {
    set i | 0 <= i < |terms| :: terms[i].snapshotId
  }

  function Units(terms: seq<PriceTerm>): set<PriceUnit> {
    set i | 0 <= i < |terms| :: terms[i].unit
  }

  function HeaderError(q: ReservationRequest): Option<ErrorCode> {
    if !(EvidenceIdentifier(q.key) && EvidenceIdentifier(q.jobId) && EvidenceIdentifier(q.laneId)
         && EvidenceIdentifier(q.providerId) && EvidenceIdentifier(q.modelId)
         && EvidenceIdentifier(q.requestedModel) && EvidenceIdentifier(q.costLaneId)
         && EvidenceIdentifier(q.policyId)) then Some(Identifier)
    else if !Microcents(q.policyRevision) then Some(Integer)
    else if !ValidUsage(q.envelope) then Some(Integer)
    else if q.terms == [] then Some(Price)
    else None
  }

  function TermsError(q: ReservationRequest, i: nat): (r: Option<ErrorCode>)
    requires i <= |q.terms|
    ensures r.None? <==> forall j :: i <= j < |q.terms| ==> TermError(q, j).None?
    decreases |q.terms| - i
  {
    if i == |q.terms| then None
    else if TermError(q, i).Some? then TermError(q, i)
    else TermsError(q, i + 1)
  }

  lemma ValidTermsArePriced(q: ReservationRequest)
    requires TermsError(q, 0).None?
    ensures AllPriced(q.terms)
  {
    forall t | t in q.terms ensures Priced(t) {
      var j :| 0 <= j < |q.terms| && q.terms[j] == t;
      assert TermError(q, j).None?;
    }
  }

  /** `CostReservationRequest.validate` followed by the worst-case price it computes. */
  function WorstCase(q: ReservationRequest): (r: Result<int, ErrorCode>)
    ensures r.Ok? ==> AllPriced(q.terms) && r == PricedCost(q.envelope, q.terms, true)
  {
    if HeaderError(q).Some? then Err(HeaderError(q).value)
    else if TermsError(q, 0).Some? then Err(TermsError(q, 0).value)
    else
      ValidTermsArePriced(q);
      PricedCost(q.envelope, q.terms, true)
  }

  function UncertaintyError(u: UncertaintyInput): Option<ErrorCode> {
    if !EvidenceIdentifier(u.key) || !EvidenceIdentifier(u.reservationId) then Some(Identifier)
    else if u.reason.UnsupportedReason? then Some(ReasonCode)
    else if !Sha256(u.evidence) then Some(Evidence)
    else None
  }

  function ReconciliationError(c: Reconciliation): Option<ErrorCode> {
    if !EvidenceIdentifier(c.key) || !EvidenceIdentifier(c.reservationId) then Some(Identifier)
    else if !Sha256(c.evidence) then Some(Evidence)
    else if c.ManualInput? && !EvidenceIdentifier(c.manualSource) then Some(Identifier)
    else if c.ManualInput? && c.manualAmount <= 0 then Some(Amount)
    else None
  }

  function AmountOf(c: Reconciliation): int {
    if c.ManualInput? then c.manualAmount else 0
  }

  function SourceOf(c: Reconciliation): Option<string> {
    if c.ManualInput? then Some(c.manualSource) else None
  }

  function ReasonOf(c: Reconciliation): Reason {
    if c.ManualInput? then ManualDebit else NoCharge(c.why)
  }

  function EventKindOf(c: Reconciliation): EventKind {
    if AmountOf(c) > 0 then ReconciledManualDebit else ReconciledNoCharge
  }

  // ---- periods ----------------------------------------------------------

  function SummaryOf(p: Period): Summary {
    Summary(p.start, p.end, p.currency, p.cap, p.reserve, p.net, p.active,
            Max(Spendable(p) - Max(p.net, 0) - p.active, 0), p.entryCount, p.policyId, p.policyRevision)
  }

  predicate MatchesReserve(e: Entry, p: Period, c: PeriodConfig) {
    && e.kind == EmergencyReserve && e.direction == Allocation && e.amount == c.reserve
    && e.occurredAt == Boundary(c.startsOn) && e.currency == c.currency && e.source == c.policyId
    && p.start == c.startsOn && p.cap == c.cap && p.policyRevision == c.policyRevision
  }

  function NewPeriod(c: PeriodConfig): Period {
    Period(c.startsOn, Next(c.startsOn), c.currency, c.cap, c.reserve, c.policyId,
           c.policyRevision, 0, 0, 1)
  }

  function ReserveEntry(c: PeriodConfig, period: nat): Entry {
    Entry(c.key, period, EmergencyReserve, Allocation, c.reserve, Boundary(c.startsOn),
          c.currency, c.policyId, None)
  }

  function Initialize(db: Db, c: PeriodConfig): Step
    requires ForeignKeys(db)
  {
    var found := FindEntry(db.entries, c.key);
    if ConfigError(c).Some? then (db, Rejected(ConfigError(c).value))
    else if found.Some? then
      var e := db.entries[found.value];
      if e.reference.Some? then (db, Rejected(Database))
      else if !MatchesReserve(e, db.periods[e.period], c) then (db, Rejected(Idempotency))
      else (db, PeriodReply(false, SummaryOf(db.periods[e.period])))
    else if FindPeriod(db.periods, c.startsOn).Some? then (db, Rejected(PeriodRule))
    else if |db.periods| >= MAX_BUDGET_PERIODS then (db, Rejected(Limit))
    else if |db.entries| >= MAX_LEDGER_ENTRIES then (db, Rejected(Limit))
    else
      (db.(periods := db.periods + [NewPeriod(c)],
           entries := db.entries + [ReserveEntry(c, |db.periods|)]),
       PeriodReply(true, SummaryOf(NewPeriod(c))))
  }

  // ---- entries ----------------------------------------------------------

  predicate MatchesEntry(db: Db, i: nat, e: EntryInput)
    requires ForeignKeys(db) && i < |db.entries|
  {
    var x := db.entries[i];
    && x.kind == e.kind && x.direction == e.direction && x.amount == e.amount
    && x.occurredAt == At(e.occurredAt) && x.currency == e.currency && x.source == e.source
    && db.periods[x.period].start == MonthOf(e.occurredAt)
    && e.reference == (if x.reference.Some? then Some(db.entries[x.reference.value].digest) else None)
  }

  /** The referenced charge of a refund, or why there is none. */
  function ReferenceOf(db: Db, e: EntryInput): Result<Option<nat>, ErrorCode>
    requires EntryError(e).None?
  {
    if !e.kind.RefundKind? then Ok(None)
    else
      var found := FindEntry(db.entries, e.reference.value);
      if found.None? || !IsCharge(db.entries[found.value].kind) then Err(Refund)
      else
        var charge := db.entries[found.value];
        if charge.currency != e.currency || charge.source != e.source then Err(Refund)
        else if Total(Refunds(found.value), db.entries, 0) > charge.amount - e.amount then Err(Refund)
        else Ok(Some(found.value))
  }

  function ProspectiveNet(p: Period, e: EntryInput): Result<int, ErrorCode> {
    if e.direction.Debit? then
      if e.amount > Spendable(p) - Max(p.net, 0) - p.active then Err(Budget)
      else if p.net > MAX64 - e.amount then Err(Amount)
      else Ok(p.net + e.amount)
    else if p.net < MIN64 + e.amount then Err(Amount)
    else Ok(p.net - e.amount)
  }

  function NewEntry(e: EntryInput, period: nat, reference: Option<nat>): Entry {
    Entry(e.key, period, e.kind, e.direction, e.amount, At(e.occurredAt), e.currency, e.source, reference)
  }

  function Record(db: Db, e: EntryInput): Step
    requires ForeignKeys(db)
  {
    var found := FindEntry(db.entries, e.key);
    var at := FindPeriod(db.periods, MonthOf(e.occurredAt));
    if EntryError(e).Some? then (db, Rejected(EntryError(e).value))
    else if found.Some? then
      if !MatchesEntry(db, found.value, e) then (db, Rejected(Idempotency))
      else
        (db, EntryReply(false, found.value, SummaryOf(db.periods[db.entries[found.value].period])))
    else if at.None? then (db, Rejected(PeriodRule))
    else if db.periods[at.value].entryCount >= MAX_PERIOD_ENTRIES then (db, Rejected(Limit))
    else if |db.entries| >= MAX_LEDGER_ENTRIES then (db, Rejected(Limit))
    else if ReferenceOf(db, e).Err? then (db, Rejected(ReferenceOf(db, e).error))
    else if ProspectiveNet(db.periods[at.value], e).Err? then
      (db, Rejected(ProspectiveNet(db.periods[at.value], e).error))
    else
      var p := db.periods[at.value];
      var p' := p.(net := ProspectiveNet(p, e).value, entryCount := p.entryCount + 1);
      (db.(entries := db.entries + [NewEntry(e, at.value, ReferenceOf(db, e).value)],
           periods := db.periods[at.value := p']),
       EntryReply(true, |db.entries|, SummaryOf(p')))
  }

  // ---- reservations -----------------------------------------------------

  function DispatchKey(key: string): Digest { "dispatch-event:" + key }

  function SettlementKey(key: string): Digest { "settlement-entry:" + key }

  function ManualKey(key: string): Digest { "manual-reconcile-entry:" + key }

  predicate MatchesReservation(db: Db, i: nat, q: ReservationRequest, held: int)
    requires ForeignKeys(db) && i < |db.reservations|
  {
    var r := db.reservations[i];
    && r.publicId == PublicId(q.key) && r.jobId == q.jobId && r.laneId == q.laneId
    && r.providerId == q.providerId && r.modelId == q.modelId
    && r.requestedModel == q.requestedModel && r.costLaneId == q.costLaneId
    && r.policyId == q.policyId && r.policyRevision == q.policyRevision
    && r.pricingDigest == SortByUnit(q.terms) && r.held == held && r.envelope == q.envelope
    && r.createdAt == q.occurredAt && db.periods[r.period].start == MonthOf(q.occurredAt)
    && StoredTerms(db, i) == SortByUnit(q.terms)
  }

  function NewReservation(q: ReservationRequest, period: nat, held: int): Reservation {
    Reservation(PublicId(q.key), q.key, period, q.jobId, q.laneId, q.providerId, q.modelId,
      q.requestedModel, q.costLaneId, q.policyId, q.policyRevision, SortByUnit(q.terms), held,
      q.envelope, None, Dispatching, None, None, None, q.occurredAt, q.occurredAt)
  }

  function PriceRows(terms: seq<PriceTerm>, reservation: nat): (rows: seq<PriceRow>)
    ensures |rows| == |terms|
    ensures forall i :: 0 <= i < |rows| ==> rows[i] == PriceRow(reservation, terms[i])
  {
    seq(|terms|, i requires 0 <= i < |terms| => PriceRow(reservation, terms[i]))
  }

  function DispatchEvent(q: ReservationRequest, reservation: nat): Event {
    Event(reservation, DispatchKey(q.key), DispatchReserved, Dispatching, q.occurredAt, None, None, None)
  }

  /** What a new reservation is checked against, in order; `None` admits it. */
  function AdmissionError(db: Db, q: ReservationRequest, held: int): (r: Option<ErrorCode>)
    ensures r.None? ==> FindPeriod(db.periods, MonthOf(q.occurredAt)).Some?
  {
    var at := FindPeriod(db.periods, MonthOf(q.occurredAt));
    if FindByJob(db.reservations, q.jobId).Some? then Some(Job)
    else if |db.reservations| >= MAX_COST_RESERVATIONS then Some(Limit)
    else if |db.prices| + |q.terms| > MAX_RESERVATION_PRICES then Some(Limit)
    else if |db.events| >= MAX_RESERVATION_EVENTS then Some(Limit)
    else if at.None? then Some(PeriodRule)
    else
      var p := db.periods[at.value];
      if p.policyId != q.policyId || p.policyRevision != q.policyRevision then Some(Policy)
      else if ReservationsIn(db.reservations, at.value) >= MAX_PERIOD_RESERVATIONS then Some(Limit)
      else if held > Spendable(p) - Max(p.net, 0) - p.active then Some(Budget)
      else if FindByPublicId(db.reservations, PublicId(q.key)).Some? then Some(Database)
      else if FindEvent(db.events, DispatchKey(q.key)).Some? then Some(Database)
      else None
  }

  function Admit(db: Db, q: ReservationRequest, at: nat, held: int): Db
    requires at < |db.periods|
  {
    var p := db.periods[at];
    db.(reservations := db.reservations + [NewReservation(q, at, held)],
        prices := db.prices + PriceRows(q.terms, |db.reservations|),
        events := db.events + [DispatchEvent(q, |db.reservations|)],
        periods := db.periods[at := p.(active := p.active + held)])
  }

  function ReserveForDispatch(db: Db, q: ReservationRequest): Step
    requires ForeignKeys(db)
  {
    var held := WorstCase(q);
    var found := FindByDigest(db.reservations, q.key);
    if held.Err? then (db, Rejected(held.error))
    else if found.Some? then
      if !MatchesReservation(db, found.value, q, held.value) then (db, Rejected(Idempotency))
      else (db, ReservationReply(false, db.reservations[found.value]))
    else if AdmissionError(db, q, held.value).Some? then
      (db, Rejected(AdmissionError(db, q, held.value).value))
    else
      var at := FindPeriod(db.periods, MonthOf(q.occurredAt)).value;
      (Admit(db, q, at, held.value), ReservationReply(true, NewReservation(q, at, held.value)))
  }

  // ---- settlement -------------------------------------------------------

  function WithEvent(db: Db, e: Event): Db {
    db.(events := db.events + [e])
  }

  predicate SessionTaken(db: Db, i: nat, session: Digest) {
    exists j :: 0 <= j < |db.reservations| && j != i && db.reservations[j].session == Some(session)
  }

  function RejectionReason(db: Db, i: nat, b: ReceiptBody): Option<UncertaintyReason>
    requires i < |db.reservations|
  {
    var r := db.reservations[i];
    if b.jobId != r.jobId then Some(JobMismatch)
    else if b.laneId != r.laneId || b.providerId != r.providerId then Some(ProviderMismatch)
    else if b.modelId != r.modelId || b.requestedModel != r.requestedModel then Some(ModelMismatch)
    else if !Sha256(b.session) || !ValidUsage(b.usage) then Some(MalformedReceipt)
    else if SessionTaken(db, i, b.session) then Some(ProviderSessionConflict)
    else None
  }

  function ReceiptEvent(i: nat, key: string, b: ReceiptBody, state: ReservationState, reason: Reason,
                        evidence: Option<Digest>): Event {
    Event(i, key, if state.Settled? then SettledEvent else ReceiptRejected, state, b.occurredAt,
          Some(reason), evidence, Some(b))
  }

  function DoubtRow(r: Reservation, reason: UncertaintyReason, at: UtcStamp): Reservation {
    r.(state := Uncertain, reason := Some(Doubt(reason)), updatedAt := at)
  }

  function RecordRejection(db: Db, i: nat, key: string, b: ReceiptBody, reason: UncertaintyReason): Step
    requires i < |db.reservations|
  {
    var row := DoubtRow(db.reservations[i], reason, b.occurredAt);
    (WithEvent(db.(reservations := db.reservations[i := row]),
               ReceiptEvent(i, key, b, Uncertain, Doubt(reason), None)),
     SettlementReply(true, row, row.reason))
  }

  function ChargeEntry(r: Reservation, key: string, actual: int): Entry {
    Entry(SettlementKey(key), r.period, ProviderCharge, Debit, actual, At(r.createdAt), "USD",
          r.providerId, None)
  }

  function SettledRow(r: Reservation, b: ReceiptBody, actual: int, entry: nat): Reservation {
    r.(actual := Some(actual), state := Settled, reason := Some(Complete), session := Some(b.session),
       entry := Some(entry), updatedAt := b.occurredAt)
  }

  /** `net += spent, active -= released, entry_count += rows` on one period. */
  function Posted(p: Period, spent: int, released: int, rows: int): Period {
    p.(net := p.net + spent, active := p.active - released, entryCount := p.entryCount + rows)
  }

  function PostSettlement(db: Db, i: nat, key: string, b: ReceiptBody, actual: int): Db
    requires ForeignKeys(db) && i < |db.reservations|
  {
    var r := db.reservations[i];
    db.(entries := db.entries + [ChargeEntry(r, key, actual)],
        periods := db.periods[r.period := Posted(db.periods[r.period], actual, r.held, 1)],
        reservations := db.reservations[i := SettledRow(r, b, actual, |db.entries|)],
        events := db.events + [ReceiptEvent(i, key, b, Settled, Complete, Some(b.session))])
  }

  function UsageCost(db: Db, i: nat, b: ReceiptBody): Result<int, ErrorCode>
    requires ForeignKeys(db)
  {
    TermsArePriced(db.prices, i);
    PricedCost(b.usage, StoredTerms(db, i), false)
  }

  function SettleLive(db: Db, i: nat, key: string, b: ReceiptBody): Step
    requires ForeignKeys(db) && i < |db.reservations|
  {
    var r := db.reservations[i];
    var cost := UsageCost(db, i, b);
    if RejectionReason(db, i, b).Some? then
      RecordRejection(db, i, key, b, RejectionReason(db, i, b).value)
    else if cost.Err? then (db, Rejected(cost.error))
    else if cost.value == 0 then RecordRejection(db, i, key, b, ZeroUsageReceipt)
    else if cost.value > r.held || !Within(b.usage, r.envelope) then
      RecordRejection(db, i, key, b, ActualExceedsReservation)
    else if cost.value < 0 then (db, Rejected(Amount))
    else if |db.entries| >= MAX_LEDGER_ENTRIES then (db, Rejected(Limit))
    else if FindEntry(db.entries, SettlementKey(key)).Some? then (db, Rejected(Database))
    else
      var row := SettledRow(r, b, cost.value, |db.entries|);
      (PostSettlement(db, i, key, b, cost.value), SettlementReply(true, row, row.reason))
  }

  function SettleReservation(db: Db, key: string, b: ReceiptBody): Step
    requires ForeignKeys(db)
  {
    var at := FindByPublicId(db.reservations, b.reservationId);
    var replay := FindEvent(db.events, key);
    if !EvidenceIdentifier(key) || !EvidenceIdentifier(b.reservationId) then (db, Rejected(Identifier))
    else if at.None? then (db, Rejected(Missing))
    else
      var i, r := at.value, db.reservations[at.value];
      if replay.Some? then
        var v := db.events[replay.value];
        if v.reservation != i || v.receipt != Some(b) then (db, Rejected(Idempotency))
        else (db, SettlementReply(false, r, r.reason))
      else if |db.events| >= MAX_RESERVATION_EVENTS then (db, Rejected(Limit))
      else if !Live(r.state) then
        (WithEvent(db, ReceiptEvent(i, key, b, r.state, AlreadyTerminal, None)),
         SettlementReply(true, r, Some(AlreadyTerminal)))
      else SettleLive(db, i, key, b)
  }

  // ---- uncertainty ------------------------------------------------------

  function UncertainEvent(i: nat, u: UncertaintyInput): Event {
    Event(i, u.key, ReceiptRejected, Uncertain, u.occurredAt, Some(Doubt(u.reason)),
          Some(u.evidence), None)
  }

  function MarkReservationUncertain(db: Db, u: UncertaintyInput): Step
    requires ForeignKeys(db)
  {
    var at := FindByPublicId(db.reservations, u.reservationId);
    var replay := FindEvent(db.events, u.key);
    if UncertaintyError(u).Some? then (db, Rejected(UncertaintyError(u).value))
    else if at.None? then (db, Rejected(Missing))
    else
      var i, r := at.value, db.reservations[at.value];
      if replay.Some? then
        var v := db.events[replay.value];
        if v.reservation != i || v.occurredAt != u.occurredAt || v.reason != Some(Doubt(u.reason))
           || v.evidence != Some(u.evidence) || v.receipt.Some? then (db, Rejected(Idempotency))
        else (db, SettlementReply(false, r, r.reason))
      else if !Live(r.state) then (db, SettlementReply(false, r, Some(AlreadyTerminal)))
      else if |db.events| >= MAX_RESERVATION_EVENTS then (db, Rejected(Limit))
      else
        var row := DoubtRow(r, u.reason, u.occurredAt);
        (WithEvent(db.(reservations := db.reservations[i := row]), UncertainEvent(i, u)),
         SettlementReply(true, row, row.reason))
  }

  // ---- reconciliation ---------------------------------------------------

  function ManualEntry(r: Reservation, c: Reconciliation): Entry
    requires c.ManualInput?
  {
    Entry(ManualKey(c.key), r.period, ManualAdjustment, Debit, c.manualAmount, At(r.createdAt), "USD",
          c.manualSource, None)
  }

  function ReconciledRow(r: Reservation, c: Reconciliation, entry: Option<nat>): Reservation {
    r.(actual := Some(AmountOf(c)), state := Reconciled, reason := Some(ReasonOf(c)), entry := entry,
       updatedAt := c.occurredAt)
  }

  function ReconcileEvent(i: nat, c: Reconciliation): Event {
    Event(i, c.key, EventKindOf(c), Reconciled, c.occurredAt, Some(ReasonOf(c)), Some(c.evidence), None)
  }

  predicate ReconciliationReplays(db: Db, v: Event, i: nat, c: Reconciliation)
    requires ForeignKeys(db) && i < |db.reservations|
  {
    var r := db.reservations[i];
    && v.reservation == i && v.kind == EventKindOf(c) && v.resulting == Reconciled
    && v.occurredAt == c.occurredAt && v.reason == Some(ReasonOf(c))
    && v.evidence == Some(c.evidence) && v.receipt.None?
    && r.actual == Some(AmountOf(c))
    && (if AmountOf(c) == 0 then SourceOf(c).None? && r.entry.None?
        else SourceOf(c).Some? && r.entry.Some? &&
             var e := db.entries[r.entry.value];
             e.kind == ManualAdjustment && e.direction == Debit && e.amount == AmountOf(c)
             && e.source == SourceOf(c).value)
  }

  function PostReconciliation(db: Db, i: nat, c: Reconciliation): Db
    requires ForeignKeys(db) && i < |db.reservations|
    requires ReconciliationError(c).None?
  {
    var r := db.reservations[i];
    var rows := if c.ManualInput? then [ManualEntry(r, c)] else [];
    var entry := if c.ManualInput? then Some(|db.entries|) else None;
    db.(entries := db.entries + rows,
        periods := db.periods[r.period := Posted(db.periods[r.period], AmountOf(c), r.held, |rows|)],
        reservations := db.reservations[i := ReconciledRow(r, c, entry)],
        events := db.events + [ReconcileEvent(i, c)])
  }

  function ReconcileReservation(db: Db, c: Reconciliation): Step
    requires ForeignKeys(db)
  {
    var at := FindByPublicId(db.reservations, c.reservationId);
    var replay := FindEvent(db.events, c.key);
    if ReconciliationError(c).Some? then (db, Rejected(ReconciliationError(c).value))
    else if at.None? then (db, Rejected(Missing))
    else
      var i, r := at.value, db.reservations[at.value];
      if replay.Some? then
        if !ReconciliationReplays(db, db.events[replay.value], i, c) then (db, Rejected(Idempotency))
        else (db, SettlementReply(false, r, r.reason))
      else if !Live(r.state) then (db, Rejected(Terminal))
      else if |db.events| >= MAX_RESERVATION_EVENTS then (db, Rejected(Limit))
      else if AmountOf(c) > r.held then (db, Rejected(Amount))
      else if c.ManualInput? && |db.entries| >= MAX_LEDGER_ENTRIES then (db, Rejected(Limit))
      else if c.ManualInput? && FindEntry(db.entries, ManualKey(c.key)).Some? then
        (db, Rejected(Database))
      else
        var after := PostReconciliation(db, i, c);
        (after, SettlementReply(true, after.reservations[i], after.reservations[i].reason))
  }

  // ---- one command ------------------------------------------------------

  function Apply(db: Db, c: Command): Step
    requires ForeignKeys(db)
  {
    match c
    case InitializePeriod(config) => Initialize(db, config)
    case RecordEntry(input) => Record(db, input)
    case Reserve(request) => ReserveForDispatch(db, request)
    case Settle(key, body) => SettleReservation(db, key, body)
    case MarkUncertain(u) => MarkReservationUncertain(db, u)
    case Reconcile(r) => ReconcileReservation(db, r)
  }
}
