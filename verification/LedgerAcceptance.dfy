/** Exactly which commands the ledger takes, told by their fields and the rows alone. */
module LedgerAcceptance {
  import opened Wrappers
  import opened Calendar
  import opened LedgerErrors
  import opened Pricing
  import opened LedgerRows
  import opened LedgerCommands
  import opened LedgerInvariant
  import opened LedgerPreservation
  import opened LedgerReplay
  import opened LedgerReceipts
  import opened LedgerSettlement

  predicate SmallPositive(n: int) {
    0 < n <= MAX64
  }

  /** What a period's money allows on top of its spending and its live holds. */
  function Free(db: Db, p: nat): int
    requires p < |db.periods|
  {
    db.periods[p].cap - db.periods[p].reserve - Max(Total(Net, db.entries, p), 0) - Held(db.reservations, p)
  }

  /** Period `p` is the month of the instant. */
  predicate InPeriod(db: Db, p: nat, at: Stamp) {
    p < |db.periods| && db.periods[p].start == MonthOf(at)
  }

  lemma PeriodFound(db: Db, p: nat, at: Stamp)
    requires Inv(db) && InPeriod(db, p, at)
    ensures FindPeriod(db.periods, MonthOf(at)) == Some(p)
    ensures db.periods[p].net == Total(Net, db.entries, p) && db.periods[p].active == Held(db.reservations, p)
    ensures db.periods[p].entryCount == Total(Rows, db.entries, p)
  {
    assert PeriodOk(db, p);
  }

  // ---- reservations -----------------------------------------------------

  function Names(q: ReservationRequest): seq<string> {
    [q.key, q.jobId, q.laneId, q.providerId, q.modelId, q.requestedModel, q.costLaneId, q.policyId]
  }

  predicate GoodHeader(q: ReservationRequest) {
    && (forall name :: name in Names(q) ==> EvidenceIdentifier(name))
    && SmallPositive(q.policyRevision)
    && 0 <= q.envelope.requests <= MAX64 && 0 <= q.envelope.inputTokens <= MAX64
    && 0 <= q.envelope.outputTokens <= MAX64 && 0 <= q.envelope.minutes <= MAX64
  }

  /** A price observed by then and not expired, for a unit the envelope allows. */
  predicate GoodTerm(q: ReservationRequest, t: PriceTerm) {
    && EvidenceIdentifier(t.snapshotId) && SmallPositive(t.quantity) && SmallPositive(t.price)
    && !Before(q.occurredAt, t.observedAt) && Before(q.occurredAt, t.expiresAt)
    && QuantityFor(q.envelope, t.unit) > 0
  }

  predicate GoodTerms(q: ReservationRequest) {
    && q.terms != []
    && (forall i :: 0 <= i < |q.terms| ==> GoodTerm(q, q.terms[i]))
    && (forall i, j :: 0 <= i < j < |q.terms| ==>
          q.terms[i].snapshotId != q.terms[j].snapshotId && q.terms[i].unit != q.terms[j].unit)
  }

  /** A valid request whose every product and whose worst case fit in 64 bits. */
  predicate GoodRequest(q: ReservationRequest) {
    && GoodHeader(q) && GoodTerms(q) && AllPriced(q.terms)
    && (forall t :: t in q.terms ==> QuantityFor(q.envelope, t.unit) * t.price <= MAX64)
    && CostSum(q.envelope, q.terms) <= MAX64
  }

  lemma HeaderIsGood(q: ReservationRequest)
    ensures HeaderError(q).None? <==> GoodHeader(q) && q.terms != []
  {
    var names := Names(q);
    if GoodHeader(q) {
      assert forall i :: 0 <= i < |names| ==> names[i] in names && EvidenceIdentifier(names[i]);
      assert names[0] in names && names[1] in names && names[2] in names && names[3] in names;
      assert names[4] in names && names[5] in names && names[6] in names && names[7] in names;
    }
  }

  lemma TermIsGood(q: ReservationRequest, i: nat)
    requires i < |q.terms|
    ensures TermError(q, i).None? <==>
      && GoodTerm(q, q.terms[i])
      && forall j :: 0 <= j < i ==>
           q.terms[j].snapshotId != q.terms[i].snapshotId && q.terms[j].unit != q.terms[i].unit
  {
    var before := q.terms[..i];
    assert forall j :: 0 <= j < i ==> before[j] == q.terms[j];
  }

  lemma TermsAreGood(q: ReservationRequest)
    ensures q.terms != [] && TermsError(q, 0).None? <==> GoodTerms(q)
  {
    forall i | 0 <= i < |q.terms|
      ensures TermError(q, i).None? <==>
        && GoodTerm(q, q.terms[i])
        && forall j :: 0 <= j < i ==>
             q.terms[j].snapshotId != q.terms[i].snapshotId && q.terms[j].unit != q.terms[i].unit
    {
      TermIsGood(q, i);
    }
  }

  lemma GoodTermsCost(q: ReservationRequest)
    requires GoodHeader(q) && GoodTerms(q)
    ensures AllPriced(q.terms) && CostSum(q.envelope, q.terms) > 0
    ensures Chargeable(q.envelope, q.terms) <==>
      forall t :: t in q.terms ==> QuantityFor(q.envelope, t.unit) * t.price <= MAX64
  {
    forall t | t in q.terms ensures Priced(t) && Countable(QuantityFor(q.envelope, t.unit)) {
      var i :| 0 <= i < |q.terms| && q.terms[i] == t;
      assert GoodTerm(q, q.terms[i]);
    }
    assert q.terms[0] in q.terms && GoodTerm(q, q.terms[0]);
    ChargedWhenUsed(q.envelope, q.terms);
  }

  /** A request is priced exactly when it is good, at the sum of its rounded-up lines. */
  lemma PricedExactlyWhen(q: ReservationRequest)
    ensures WorstCase(q).Ok? <==> GoodRequest(q)
    ensures GoodRequest(q) ==> WorstCase(q) == Ok(CostSum(q.envelope, q.terms)) && CostSum(q.envelope, q.terms) > 0
  {
    HeaderIsGood(q);
    TermsAreGood(q);
    if GoodHeader(q) && GoodTerms(q) {
      GoodTermsCost(q);
      PricedCostMeaning(q.envelope, q.terms, true);
    }
  }

  /** The rows of period `p`, counted. */
  function RowsIn(rs: seq<Reservation>, p: nat): set<nat> {
    set i: nat | i < |rs| && rs[i].period == p
  }

  lemma {:induction false} CountedRows(rs: seq<Reservation>, p: nat)
    ensures ReservationsIn(rs, p) == |RowsIn(rs, p)|
  {
    if rs != [] {
      var n := |rs| - 1;
      CountedRows(rs[..n], p);
      assert RowsIn(rs, p) == RowsIn(rs[..n], p) + (if rs[n].period == p then {n} else {});
      assert n !in RowsIn(rs[..n], p);
    } else {
      assert RowsIn(rs, p) == {};
    }
  }

  predicate NewJob(db: Db, q: ReservationRequest) {
    forall i :: 0 <= i < |db.reservations| ==> db.reservations[i].jobId != q.jobId
  }

  predicate NewKey(db: Db, key: string) {
    forall i :: 0 <= i < |db.reservations| ==> db.reservations[i].digest != key
  }

  predicate RoomToReserve(db: Db, q: ReservationRequest) {
    && |db.reservations| < MAX_COST_RESERVATIONS && |db.events| < MAX_RESERVATION_EVENTS
    && |db.prices| + |q.terms| <= MAX_RESERVATION_PRICES
  }

  predicate UnderAuthority(db: Db, p: nat, q: ReservationRequest)
    requires p < |db.periods|
  {
    db.periods[p].policyId == q.policyId && db.periods[p].policyRevision == q.policyRevision
  }

  /** Everything but the money. */
  predicate InOrder(db: Db, p: nat, q: ReservationRequest) {
    && NewKey(db, q.key) && NewJob(db, q) && RoomToReserve(db, q)
    && InPeriod(db, p, q.occurredAt) && UnderAuthority(db, p, q)
    && |RowsIn(db.reservations, p)| < MAX_PERIOD_RESERVATIONS
  }

  /** One new dispatching row that holds the worst case, its prices, its event, and the hold on its period. */
  predicate Reserves(db: Db, p: nat, q: ReservationRequest, step: Step, cost: int)
    requires p < |db.periods|
  {
    var n := |db.reservations|;
    var row := Reservation(PublicId(q.key), q.key, p, q.jobId, q.laneId, q.providerId, q.modelId, q.requestedModel,
      q.costLaneId, q.policyId, q.policyRevision, SortByUnit(q.terms), cost, q.envelope, None, Dispatching, None, None,
      None, q.occurredAt, q.occurredAt);
    && step.0.entries == db.entries && step.0.reservations == db.reservations + [row]
    && step.0.periods == db.periods[p := db.periods[p].(active := db.periods[p].active + cost)]
    && db.prices <= step.0.prices && |step.0.prices| == |db.prices| + |q.terms|
    && (forall i :: 0 <= i < |q.terms| ==> step.0.prices[|db.prices| + i] == PriceRow(n, q.terms[i]))
    && step.0.events ==
         db.events + [Event(n, DispatchKey(q.key), DispatchReserved, Dispatching, q.occurredAt, None, None, None)]
    && step.1 == ReservationReply(true, row)
  }

  lemma PublicIdsDiffer(a: string, b: string)
    requires PublicId(a) == PublicId(b)
    ensures a == b
  {
    assert a == PublicId(a)[4..];
    assert b == PublicId(b)[4..];
  }

  lemma NewPublicId(db: Db, key: string)
    requires Inv(db) && NewKey(db, key)
    ensures FindByPublicId(db.reservations, PublicId(key)).None? && FindByDigest(db.reservations, key).None?
  {
    var at := FindByPublicId(db.reservations, PublicId(key));
    if at.Some? {
      PublicIdsDiffer(db.reservations[at.value].digest, key);
    }
  }

  lemma AdmitReserves(db: Db, p: nat, q: ReservationRequest, cost: int)
    requires p < |db.periods|
    ensures Reserves(db, p, q, (Admit(db, q, p, cost), ReservationReply(true, NewReservation(q, p, cost))), cost)
  {
  }

  lemma InOrderChecked(db: Db, p: nat, q: ReservationRequest, cost: int)
    requires Inv(db) && InOrder(db, p, q)
    ensures AdmissionError(db, q, cost) ==
      if cost > Free(db, p) then Some(Budget)
      else if !UnusedKey(db, DispatchKey(q.key)) then Some(Database)
      else None
  {
    NewPublicId(db, q.key);
    PeriodFound(db, p, q.occurredAt);
    CountedRows(db.reservations, p);
  }

  /**
   * A good request in order is admitted exactly when its worst case fits into
   * what the cap leaves above the reserve, the spending and the live holds.
   */
  lemma ReservesInOrder(db: Db, p: nat, q: ReservationRequest)
    requires Inv(db) && GoodRequest(q) && InOrder(db, p, q)
    ensures var step, cost := ReserveForDispatch(db, q), CostSum(q.envelope, q.terms);
      && (step == (db, Rejected(Budget)) <==> cost > Free(db, p))
      && (step == (db, Rejected(Database)) <==> cost <= Free(db, p) && !UnusedKey(db, DispatchKey(q.key)))
      && (Reserves(db, p, q, step, cost) <==> cost <= Free(db, p) && UnusedKey(db, DispatchKey(q.key)))
  {
    var cost := CostSum(q.envelope, q.terms);
    PricedExactlyWhen(q);
    NewPublicId(db, q.key);
    PeriodFound(db, p, q.occurredAt);
    InOrderChecked(db, p, q, cost);
    AdmitReserves(db, p, q, cost);
  }

  /** The period a request falls into, if its month has one. */
  lemma PeriodOf(db: Db, q: ReservationRequest)
    requires Inv(db)
    ensures var found := FindPeriod(db.periods, MonthOf(q.occurredAt));
      if found.None? then forall p :: 0 <= p < |db.periods| ==> !InPeriod(db, p, q.occurredAt)
      else
        && InPeriod(db, found.value, q.occurredAt)
        && (forall p :: 0 <= p < |db.periods| && InPeriod(db, p, q.occurredAt) ==> p == found.value)
        && ReservationsIn(db.reservations, found.value) == |RowsIn(db.reservations, found.value)|
  {
    var found := FindPeriod(db.periods, MonthOf(q.occurredAt));
    if found.Some? {
      CountedRows(db.reservations, found.value);
    }
  }

  predicate NoPeriod(db: Db, q: ReservationRequest) {
    forall p :: 0 <= p < |db.periods| ==> !InPeriod(db, p, q.occurredAt)
  }

  predicate OtherAuthority(db: Db, q: ReservationRequest) {
    exists p :: 0 <= p < |db.periods| && InPeriod(db, p, q.occurredAt) && !UnderAuthority(db, p, q)
  }

  predicate FullPeriod(db: Db, q: ReservationRequest) {
    exists p :: 0 <= p < |db.periods| && InPeriod(db, p, q.occurredAt) && UnderAuthority(db, p, q)
                && |RowsIn(db.reservations, p)| >= MAX_PERIOD_RESERVATIONS
  }

  /** The refusals of a good request under a new key that is not in order. */
  lemma ReserveRefusedFor(db: Db, q: ReservationRequest)
    requires Inv(db) && GoodRequest(q) && NewKey(db, q.key)
    ensures var step := ReserveForDispatch(db, q);
      && (step == (db, Rejected(Job)) <==> !NewJob(db, q))
      && (step == (db, Rejected(PeriodRule)) <==> NewJob(db, q) && RoomToReserve(db, q) && NoPeriod(db, q))
      && (step == (db, Rejected(Policy)) <==> NewJob(db, q) && RoomToReserve(db, q) && OtherAuthority(db, q))
      && (step == (db, Rejected(Limit)) <==> NewJob(db, q) && (!RoomToReserve(db, q) || FullPeriod(db, q)))
  {
    PricedExactlyWhen(q);
    NewPublicId(db, q.key);
    PeriodOf(db, q);
  }

  predicate Affordable(db: Db, p: nat, q: ReservationRequest)
    requires GoodRequest(q)
  {
    InOrder(db, p, q) && CostSum(q.envelope, q.terms) <= Free(db, p)
  }

  lemma NotInOrder(db: Db, q: ReservationRequest)
    requires Inv(db) && GoodRequest(q) && !exists p :: 0 <= p < |db.periods| && InOrder(db, p, q)
    ensures ReserveForDispatch(db, q).0 == db
  {
    PeriodOf(db, q);
    PricedExactlyWhen(q);
    var found := FindPeriod(db.periods, MonthOf(q.occurredAt));
    if NewKey(db, q.key) {
      ReserveRefusedFor(db, q);
      if found.Some? {
        assert !InOrder(db, found.value, q);
      }
    }
  }

  /** A request adds a reservation exactly when it is good, new, in order and affordable. */
  lemma ReservesExactlyWhen(db: Db, q: ReservationRequest)
    requires Inv(db)
    ensures |ReserveForDispatch(db, q).0.reservations| > |db.reservations| <==>
      GoodRequest(q) && UnusedKey(db, DispatchKey(q.key))
      && exists p :: 0 <= p < |db.periods| && Affordable(db, p, q)
  {
    PricedExactlyWhen(q);
    if GoodRequest(q) {
      if p :| 0 <= p < |db.periods| && InOrder(db, p, q) {
        ReservesInOrder(db, p, q);
        forall x | 0 <= x < |db.periods| && Affordable(db, x, q) ensures x == p {
          assert InPeriod(db, x, q.occurredAt) && InPeriod(db, p, q.occurredAt);
        }
        assert Affordable(db, p, q) <==> CostSum(q.envelope, q.terms) <= Free(db, p);
      } else {
        NotInOrder(db, q);
      }
    }
  }

  // ---- entries ----------------------------------------------------------

  predicate NewEntryKey(db: Db, key: string) {
    forall i :: 0 <= i < |db.entries| ==> db.entries[i].digest != key
  }

  /** What each kind of entry may say of its direction and its charge. */
  predicate GoodKind(e: EntryInput) {
    match e.kind
    case FixedSubscription => e.direction.Debit? && e.reference.None?
    case ProviderCharge => e.direction.Debit? && e.reference.None?
    case RefundKind => e.direction.Credit? && e.reference.Some? && LedgerIdentifier(e.reference.value)
    case ManualAdjustment => (e.direction.Debit? || e.direction.Credit?) && e.reference.None?
    case EmergencyReserve => false
    case OtherKind(_) => false
  }

  predicate GoodEntry(e: EntryInput) {
    && LedgerIdentifier(e.key) && LedgerIdentifier(e.source) && SmallPositive(e.amount) && e.currency == "USD"
    && GoodKind(e)
  }

  /** Entry `c` is a charge the refund fits, with this much of it not yet refunded. */
  predicate RefundsCharge(db: Db, c: nat, e: EntryInput)
    requires e.reference.Some?
  {
    && c < |db.entries| && db.entries[c].digest == e.reference.value
    && (db.entries[c].kind.FixedSubscription? || db.entries[c].kind.ProviderCharge?)
    && db.entries[c].currency == e.currency && db.entries[c].source == e.source
    && Total(Refunds(c), db.entries, 0) + e.amount <= db.entries[c].amount
  }

  predicate RefundFits(db: Db, e: EntryInput) {
    e.kind.RefundKind? && e.reference.Some? ==> exists c :: 0 <= c < |db.entries| && RefundsCharge(db, c, e)
  }

  /** A debit within what is free, or a credit that does not leave 64 bits. */
  predicate MoneyFits(db: Db, p: nat, e: EntryInput)
    requires p < |db.periods|
  {
    if e.direction.Debit? then e.amount <= Free(db, p) else MIN64 <= Total(Net, db.entries, p) - e.amount
  }

  predicate RoomToRecord(db: Db, p: nat) {
    Total(Rows, db.entries, p) < MAX_PERIOD_ENTRIES && |db.entries| < MAX_LEDGER_ENTRIES
  }

  /** One new entry at its own time and its amount on the balance of its month. */
  predicate Records(db: Db, p: nat, e: EntryInput, step: Step)
    requires p < |db.periods|
  {
    var x, n := db.periods[p], |db.entries|;
    var signed := if e.direction.Debit? then e.amount else -e.amount;
    && |step.0.entries| == n + 1 && step.0.entries[..n] == db.entries
    && (var row := step.0.entries[n];
        && row == Entry(e.key, p, e.kind, e.direction, e.amount, At(e.occurredAt), e.currency, e.source, row.reference)
        && (row.reference.Some? <==> e.kind.RefundKind?)
        && (row.reference.Some? ==> e.reference.Some? && RefundsCharge(db, row.reference.value, e)))
    && step.0 == db.(entries := step.0.entries,
                     periods := db.periods[p := x.(net := x.net + signed, entryCount := x.entryCount + 1)])
    && step.1.EntryReply? && step.1.created && step.1.entryId == n
  }

  lemma EntryIsGood(e: EntryInput)
    ensures EntryError(e).None? <==> GoodEntry(e)
  {
  }

  lemma ReferenceFound(db: Db, e: EntryInput)
    requires Inv(db) && GoodEntry(e)
    ensures ReferenceOf(db, e).Ok? <==> RefundFits(db, e)
    ensures ReferenceOf(db, e).Err? ==> ReferenceOf(db, e).error.Refund?
    ensures ReferenceOf(db, e).Ok? ==>
      var at := ReferenceOf(db, e).value;
      (at.Some? <==> e.kind.RefundKind?) && (at.Some? ==> RefundsCharge(db, at.value, e))
  {
    EntryIsGood(e);
    if e.kind.RefundKind? {
      forall c | 0 <= c < |db.entries| && db.entries[c].digest == e.reference.value
        ensures FindEntry(db.entries, e.reference.value) == Some(c)
      {
        EntryAt(db, c);
      }
      var found := FindEntry(db.entries, e.reference.value);
      if found.Some? {
        assert RefundsCharge(db, found.value, e) <==> ReferenceOf(db, e).Ok?;
      }
    }
  }

  lemma NetFits(db: Db, p: nat, e: EntryInput)
    requires Inv(db) && GoodEntry(e) && p < |db.periods|
    ensures ProspectiveNet(db.periods[p], e) ==
      if MoneyFits(db, p, e) then Ok(db.periods[p].net + (if e.direction.Debit? then e.amount else -e.amount))
      else Err(if e.direction.Debit? then Budget else Amount)
  {
    assert PeriodOk(db, p);
  }

  /** What a new good entry in an existing month ends in. */
  lemma RecordEndsExactly(db: Db, p: nat, e: EntryInput)
    requires Inv(db) && GoodEntry(e) && NewEntryKey(db, e.key) && InPeriod(db, p, e.occurredAt)
    ensures var step := Record(db, e);
      && (step == (db, Rejected(Limit)) <==> !RoomToRecord(db, p))
      && (step == (db, Rejected(Refund)) <==> RoomToRecord(db, p) && !RefundFits(db, e))
      && (step == (db, Rejected(Budget)) <==>
            RoomToRecord(db, p) && RefundFits(db, e) && e.direction.Debit? && !MoneyFits(db, p, e))
      && (step == (db, Rejected(Amount)) <==>
            RoomToRecord(db, p) && RefundFits(db, e) && e.direction.Credit? && !MoneyFits(db, p, e))
      && (Records(db, p, e, step) <==> RoomToRecord(db, p) && RefundFits(db, e) && MoneyFits(db, p, e))
  {
    EntryIsGood(e);
    ReferenceFound(db, e);
    NetFits(db, p, e);
    PeriodFound(db, p, e.occurredAt);
  }

  /** An entry is added exactly when it is good, new, in an open month with room, and its money fits. */
  lemma RecordsExactlyWhen(db: Db, e: EntryInput)
    requires Inv(db)
    ensures |Record(db, e).0.entries| > |db.entries| <==>
      GoodEntry(e) && NewEntryKey(db, e.key) && RefundFits(db, e)
      && exists p :: 0 <= p < |db.periods| && InPeriod(db, p, e.occurredAt) && RoomToRecord(db, p) && MoneyFits(db, p, e)
  {
    EntryIsGood(e);
    var found := FindPeriod(db.periods, MonthOf(e.occurredAt));
    if GoodEntry(e) && NewEntryKey(db, e.key) {
      forall p | 0 <= p < |db.periods| && InPeriod(db, p, e.occurredAt)
        ensures |Record(db, e).0.entries| > |db.entries| <==>
          RoomToRecord(db, p) && RefundFits(db, e) && MoneyFits(db, p, e)
      {
        RecordEndsExactly(db, p, e);
      }
      assert found.Some? ==> InPeriod(db, found.value, e.occurredAt);
    }
  }

  // ---- periods ----------------------------------------------------------

  predicate GoodConfig(c: PeriodConfig) {
    && c.startDay == 1 && c.startsOn != LAST_MONTH && 0 < c.reserve < c.cap <= MAX64 && c.currency == "USD"
    && LedgerIdentifier(c.policyId) && SmallPositive(c.policyRevision) && LedgerIdentifier(c.key)
  }

  /** The month and its reserve entry, nothing spent and nothing held. */
  predicate Opens(db: Db, c: PeriodConfig, step: Step) {
    var until := if c.startsOn.month < 12 then Month(c.startsOn.year, c.startsOn.month + 1)
                 else Month(c.startsOn.year + 1, 1);
    var x := Period(c.startsOn, until, c.currency, c.cap, c.reserve, c.policyId, c.policyRevision, 0, 0, 1);
    && step.0 == db.(
         periods := db.periods + [x],
         entries := db.entries + [Entry(c.key, |db.periods|, EmergencyReserve, Allocation, c.reserve,
                                        Boundary(c.startsOn), c.currency, c.policyId, None)])
    && step.1.PeriodReply? && step.1.created && step.1.summary.available == c.cap - c.reserve
  }

  /** A month is opened exactly when its configuration is good and new and there is room. */
  lemma OpensExactlyWhen(db: Db, c: PeriodConfig)
    requires Inv(db)
    ensures var step := Initialize(db, c);
      && (Opens(db, c, step) <==>
            && GoodConfig(c) && NewEntryKey(db, c.key)
            && (forall p :: 0 <= p < |db.periods| ==> db.periods[p].start != c.startsOn)
            && |db.periods| < MAX_BUDGET_PERIODS && |db.entries| < MAX_LEDGER_ENTRIES)
      && (!Opens(db, c, step) ==> step.0 == db)
  {
    assert ConfigError(c).None? <==> GoodConfig(c);
  }

  // ---- summaries --------------------------------------------------------

  /** What a summary says of month `p`: its authority, its sums over the rows, and what is free. */
  predicate Tells(db: Db, p: nat, s: Summary)
    requires p < |db.periods|
  {
    var x := db.periods[p];
    && (s.start, s.end, s.currency, s.cap, s.reserve, s.policyId, s.policyRevision)
       == (x.start, x.end, x.currency, x.cap, x.reserve, x.policyId, x.policyRevision)
    && s.net == Total(Net, db.entries, p) && s.active == Held(db.reservations, p)
    && s.entryCount == Total(Rows, db.entries, p) && s.available == Free(db, p) >= 0
  }

  lemma SummaryTells(db: Db, p: nat)
    requires Inv(db) && p < |db.periods|
    ensures Tells(db, p, SummaryOf(db.periods[p]))
  {
    assert PeriodOk(db, p);
  }

  /** A recorded or replayed entry is answered with the summary of its month as it then stands. */
  lemma EntrySummaryTells(db: Db, e: EntryInput)
    requires Inv(db) && Record(db, e).1.EntryReply?
    ensures var after, s := Record(db, e).0, Record(db, e).1.summary;
      exists p :: 0 <= p < |after.periods| && InPeriod(after, p, e.occurredAt) && Tells(after, p, s)
  {
    RecordPreserves(db, e);
    var after := Record(db, e).0;
    var found := FindEntry(db.entries, e.key);
    var p := if found.Some? then db.entries[found.value].period
             else FindPeriod(db.periods, MonthOf(e.occurredAt)).value;
    SummaryTells(after, p);
    assert InPeriod(after, p, e.occurredAt);
  }

  /** So is an opened or replayed month. */
  lemma PeriodSummaryTells(db: Db, c: PeriodConfig)
    requires Inv(db) && Initialize(db, c).1.PeriodReply?
    ensures var after, s := Initialize(db, c).0, Initialize(db, c).1.summary;
      exists p :: 0 <= p < |after.periods| && after.periods[p].start == c.startsOn && Tells(after, p, s)
  {
    InitializePreserves(db, c);
    var after := Initialize(db, c).0;
    var found := FindEntry(db.entries, c.key);
    var p := if found.Some? then db.entries[found.value].period else |db.periods|;
    SummaryTells(after, p);
  }

  // ---- doubt and reconciliation -----------------------------------------

  predicate GoodUncertainty(u: UncertaintyInput) {
    WellNamed(u.key, u.reservationId) && !u.reason.UnsupportedReason? && Sha256(u.evidence)
  }

  /** The row turns uncertain for the given reason, and one event carries the evidence. */
  predicate MarksUncertain(db: Db, i: nat, u: UncertaintyInput, step: Step)
    requires i < |db.reservations|
  {
    var row := db.reservations[i].(state := Uncertain, reason := Some(Doubt(u.reason)), updatedAt := u.occurredAt);
    && step.0 == db.(
         reservations := db.reservations[i := row],
         events := db.events + [Event(i, u.key, ReceiptRejected, Uncertain, u.occurredAt, Some(Doubt(u.reason)),
                                      Some(u.evidence), None)])
    && step.1 == SettlementReply(true, row, Some(Doubt(u.reason)))
  }

  /** Doubt is recorded exactly on a live reservation, under a new key, with room for its event. */
  lemma MarksExactlyWhen(db: Db, i: nat, u: UncertaintyInput)
    requires Inv(db) && i < |db.reservations| && db.reservations[i].publicId == u.reservationId
    ensures var r, step := db.reservations[i], MarkReservationUncertain(db, u);
      && (MarksUncertain(db, i, u, step) <==> GoodUncertainty(u) && FirstFor(db, i, u.reservationId, u.key))
      && (GoodUncertainty(u) && UnusedKey(db, u.key) && r.state in {Settled, Reconciled} ==>
            step == (db, SettlementReply(false, r, Some(AlreadyTerminal))))
      && (step == (db, Rejected(Limit)) <==>
            GoodUncertainty(u) && UnusedKey(db, u.key) && Live(r.state) && |db.events| >= MAX_RESERVATION_EVENTS)
      && (!MarksUncertain(db, i, u, step) ==> step.0 == db)
  {
    ReservationAt(db, i);
    assert UncertaintyError(u).None? <==> GoodUncertainty(u);
  }

  predicate GoodReconciliation(c: Reconciliation) {
    && WellNamed(c.key, c.reservationId) && Sha256(c.evidence)
    && (c.ManualInput? ==> EvidenceIdentifier(c.manualSource) && c.manualAmount > 0)
  }

  /** The hold is gone, the row is closed without a charge, and one event carries the evidence. */
  predicate ClosesFree(db: Db, i: nat, c: Reconciliation, step: Step)
    requires ForeignKeys(db) && i < |db.reservations| && c.NoChargeInput?
  {
    var r := db.reservations[i];
    var p := db.periods[r.period];
    var row := r.(actual := Some(0), state := Reconciled, reason := Some(NoCharge(c.why)), entry := None,
                  updatedAt := c.occurredAt);
    && step.0 == db.(
         periods := db.periods[r.period := p.(active := p.active - r.held)],
         reservations := db.reservations[i := row],
         events := db.events + [Event(i, c.key, ReconciledNoCharge, Reconciled, c.occurredAt, Some(NoCharge(c.why)),
                                      Some(c.evidence), None)])
    && step.1 == SettlementReply(true, row, Some(NoCharge(c.why)))
  }

  /** The hold is gone and the manual amount is spent in the reservation's own period. */
  predicate ClosesCharged(db: Db, i: nat, c: Reconciliation, step: Step)
    requires ForeignKeys(db) && i < |db.reservations| && c.ManualInput?
  {
    var r, n := db.reservations[i], |db.entries|;
    var p := db.periods[r.period];
    var row := r.(actual := Some(c.manualAmount), state := Reconciled, reason := Some(ManualDebit), entry := Some(n),
                  updatedAt := c.occurredAt);
    && step.0 == db.(
         entries := db.entries + [Entry(ManualKey(c.key), r.period, ManualAdjustment, Debit, c.manualAmount,
                                        At(r.createdAt), "USD", c.manualSource, None)],
         periods := db.periods[r.period :=
           p.(net := p.net + c.manualAmount, active := p.active - r.held, entryCount := p.entryCount + 1)],
         reservations := db.reservations[i := row],
         events := db.events + [Event(i, c.key, ReconciledManualDebit, Reconciled, c.occurredAt, Some(ManualDebit),
                                      Some(c.evidence), None)])
    && step.1 == SettlementReply(true, row, Some(ManualDebit))
  }

  /** Without a charge a reservation is reconciled exactly while it is live, under a new key, with room for the event. */
  lemma ClosesFreeExactlyWhen(db: Db, i: nat, c: Reconciliation)
    requires Inv(db) && i < |db.reservations| && db.reservations[i].publicId == c.reservationId && c.NoChargeInput?
    ensures var step := ReconcileReservation(db, c);
      && (ClosesFree(db, i, c, step) <==> GoodReconciliation(c) && FirstFor(db, i, c.reservationId, c.key))
      && (!ClosesFree(db, i, c, step) ==> step.0 == db)
  {
    ReservationAt(db, i);
    assert db.reservations[i].held > 0 by {
      assert AdmissionOk(db, i);
    }
    assert ReconciliationError(c).None? <==> GoodReconciliation(c);
    if GoodReconciliation(c) {
      FreeClosing(db, i, c);
    }
  }

  lemma FreeClosing(db: Db, i: nat, c: Reconciliation)
    requires ForeignKeys(db) && i < |db.reservations| && c.NoChargeInput? && ReconciliationError(c).None?
    ensures var after := PostReconciliation(db, i, c);
      ClosesFree(db, i, c, (after, SettlementReply(true, after.reservations[i], after.reservations[i].reason)))
  {
    assert db.entries + [] == db.entries;
  }

  predicate FreeEntryKey(db: Db, key: string) {
    NewEntryKey(db, ManualKey(key)) && |db.entries| < MAX_LEDGER_ENTRIES
  }

  /** With a manual charge also its amount must be within the hold, and its entry new. */
  lemma ClosesChargedExactlyWhen(db: Db, i: nat, c: Reconciliation)
    requires Inv(db) && i < |db.reservations| && db.reservations[i].publicId == c.reservationId && c.ManualInput?
    ensures var step := ReconcileReservation(db, c);
      && (ClosesCharged(db, i, c, step) <==>
            && GoodReconciliation(c) && FirstFor(db, i, c.reservationId, c.key)
            && c.manualAmount <= db.reservations[i].held && FreeEntryKey(db, c.key))
      && (!ClosesCharged(db, i, c, step) ==> step.0 == db)
  {
    ReservationAt(db, i);
    assert ReconciliationError(c).None? <==> GoodReconciliation(c);
  }

  /** The refusals of both reconciliations. */
  lemma ReconcileRefusedFor(db: Db, i: nat, c: Reconciliation)
    requires Inv(db) && i < |db.reservations| && db.reservations[i].publicId == c.reservationId
    requires GoodReconciliation(c) && UnusedKey(db, c.key)
    ensures var r, step := db.reservations[i], ReconcileReservation(db, c);
      && (step == (db, Rejected(Terminal)) <==> r.state in {Settled, Reconciled})
      && (step == (db, Rejected(Amount)) <==> FirstFor(db, i, c.reservationId, c.key) && c.ManualInput? && c.manualAmount > r.held)
  {
    ReservationAt(db, i);
    assert db.reservations[i].held > 0 by {
      assert AdmissionOk(db, i);
    }
    assert ReconciliationError(c).None?;
  }

  // ---- refusals for the fields alone ------------------------------------

  lemma ConfigRefusedFor(db: Db, c: PeriodConfig)
    requires Inv(db)
    ensures var step, dated := Initialize(db, c), c.startDay == 1 && c.startsOn != LAST_MONTH;
      var amounts, named := SmallPositive(c.cap) && SmallPositive(c.reserve), LedgerIdentifier(c.policyId);
      && (step == (db, Rejected(Amount)) <==> dated && !amounts)
      && (step == (db, Rejected(Currency)) <==> dated && amounts && c.reserve < c.cap && c.currency != "USD")
      && (step == (db, Rejected(Integer)) <==>
            dated && amounts && c.reserve < c.cap && c.currency == "USD" && named && !SmallPositive(c.policyRevision))
      && (step == (db, Rejected(Identifier)) <==>
            && dated && amounts && c.reserve < c.cap && c.currency == "USD"
            && (!named || (SmallPositive(c.policyRevision) && !LedgerIdentifier(c.key))))
      && (!dated || (amounts && c.reserve >= c.cap) ==> step == (db, Rejected(PeriodRule)))
  {
  }

  lemma EntryRefusedFor(db: Db, e: EntryInput)
    requires Inv(db)
    ensures var step, named := Record(db, e), LedgerIdentifier(e.key) && LedgerIdentifier(e.source);
      var money := SmallPositive(e.amount) && e.currency == "USD";
      var unnamed := e.kind.RefundKind? && e.direction.Credit? && e.reference.Some? && !LedgerIdentifier(e.reference.value);
      && (step == (db, Rejected(Identifier)) <==> !named || (money && unnamed))
      && (named && !SmallPositive(e.amount) ==> step == (db, Rejected(Amount)))
      && (step == (db, Rejected(Currency)) <==> named && SmallPositive(e.amount) && e.currency != "USD")
      && (step == (db, Rejected(EntryRule)) <==> named && money && !unnamed && !GoodKind(e))
  {
    if GoodEntry(e) {
      ReferenceFound(db, e);
    }
  }

  lemma HeaderRefusedFor(db: Db, q: ReservationRequest)
    requires Inv(db)
    ensures var step, named := ReserveForDispatch(db, q), forall name :: name in Names(q) ==> EvidenceIdentifier(name);
      && (!named ==> step == (db, Rejected(Identifier)))
      && (named && !GoodHeader(q) ==> step == (db, Rejected(Integer)))
      && (GoodHeader(q) && q.terms == [] ==> step == (db, Rejected(Price)))
  {
    HeaderIsGood(q);
    var names := Names(q);
    assert names[0] in names && names[1] in names && names[2] in names && names[3] in names;
    assert names[4] in names && names[5] in names && names[6] in names && names[7] in names;
  }

  /** Term `i` is the first that is wrong in itself or repeats an earlier one. */
  predicate FirstBadTerm(q: ReservationRequest, i: nat) {
    && i < |q.terms|
    && (forall j :: 0 <= j < i ==> GoodTerm(q, q.terms[j]))
    && (forall j, k :: 0 <= j < k < i ==>
          q.terms[j].snapshotId != q.terms[k].snapshotId && q.terms[j].unit != q.terms[k].unit)
    && (GoodTerm(q, q.terms[i]) ==>
          exists j :: 0 <= j < i && (q.terms[j].snapshotId == q.terms[i].snapshotId || q.terms[j].unit == q.terms[i].unit))
  }

  lemma {:induction false} FirstErrorIs(q: ReservationRequest, from: nat, i: nat)
    requires from <= i < |q.terms| && TermError(q, i).Some? && forall j :: from <= j < i ==> TermError(q, j).None?
    ensures TermsError(q, from) == TermError(q, i)
    decreases i - from
  {
    if from < i {
      FirstErrorIs(q, from + 1, i);
    }
  }

  /** A bad term is refused for its identifier, its numbers, or as a price. */
  lemma TermRefusedFor(db: Db, q: ReservationRequest, i: nat)
    requires Inv(db) && GoodHeader(q) && FirstBadTerm(q, i)
    ensures ReserveForDispatch(db, q) == (db, Rejected(
      if !EvidenceIdentifier(q.terms[i].snapshotId) then Identifier
      else if !SmallPositive(q.terms[i].quantity) || !SmallPositive(q.terms[i].price) then Integer
      else Price))
  {
    HeaderIsGood(q);
    forall j | 0 <= j < i ensures TermError(q, j).None? {
      TermIsGood(q, j);
    }
    TermIsGood(q, i);
    FirstErrorIs(q, 0, i);
  }

  lemma MarkRefusedFor(db: Db, u: UncertaintyInput)
    requires Inv(db)
    ensures var step := MarkReservationUncertain(db, u);
      && (step == (db, Rejected(Identifier)) <==> !WellNamed(u.key, u.reservationId))
      && (step == (db, Rejected(ReasonCode)) <==> WellNamed(u.key, u.reservationId) && u.reason.UnsupportedReason?)
      && (step == (db, Rejected(Evidence)) <==>
            WellNamed(u.key, u.reservationId) && !u.reason.UnsupportedReason? && !Sha256(u.evidence))
      && (step == (db, Rejected(Missing)) <==>
            GoodUncertainty(u)
            && forall i :: 0 <= i < |db.reservations| ==> db.reservations[i].publicId != u.reservationId)
  {
  }

  lemma ReconciliationFieldsRefused(db: Db, c: Reconciliation)
    requires Inv(db)
    ensures var step, named := ReconcileReservation(db, c), WellNamed(c.key, c.reservationId);
      && (step == (db, Rejected(Evidence)) <==> named && !Sha256(c.evidence))
      && (step == (db, Rejected(Identifier)) <==>
            !named || (Sha256(c.evidence) && c.ManualInput? && !EvidenceIdentifier(c.manualSource)))
      && (named && Sha256(c.evidence) && c.ManualInput? && EvidenceIdentifier(c.manualSource) && c.manualAmount <= 0 ==>
            step == (db, Rejected(Amount)))
      && (step == (db, Rejected(Missing)) <==>
            GoodReconciliation(c)
            && forall i :: 0 <= i < |db.reservations| ==> db.reservations[i].publicId != c.reservationId)
  {
  }
}
