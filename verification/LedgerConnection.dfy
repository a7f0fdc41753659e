/**
 * The ledger as a class: tables updated in place, one transaction per
 * command, rollback on every error.  Each method is proved to leave exactly the
 * state, and give exactly the reply, of its specification in LedgerCommands.
 */
module LedgerConnection {
  import opened Wrappers
  import opened Calendar
  import opened LedgerErrors
  import opened Pricing
  import opened LedgerRows
  import opened LedgerCommands
  import opened LedgerInvariant
  import opened LedgerPreservation

  /** `CostReservationRequest.validate`: one pass over the terms, remembering ids and units. */
  method ValidateRequest(q: ReservationRequest) returns (r: Result<int, ErrorCode>)
    ensures r == WorstCase(q)
  {
    if HeaderError(q).Some? {
      return Err(HeaderError(q).value);
    }
    var snapshots: set<string> := {};
    var units: set<PriceUnit> := {};
    var i := 0;
    while i < |q.terms|
      invariant 0 <= i <= |q.terms|
      invariant snapshots == Snapshots(q.terms[..i]) && units == Units(q.terms[..i])
      invariant TermsError(q, 0) == TermsError(q, i)
    {
      var t := q.terms[i];
      if !EvidenceIdentifier(t.snapshotId) {
        return Err(Identifier);
      }
      if !Microcents(t.quantity) || !Microcents(t.price) {
        return Err(Integer);
      }
      if !Fresh(t, q.occurredAt) || t.snapshotId in snapshots || t.unit in units
         || QuantityFor(q.envelope, t.unit) <= 0 {
        return Err(Price);
      }
      NextTerm(q.terms, i);
      snapshots := snapshots + {t.snapshotId};
      units := units + {t.unit};
      i := i + 1;
    }
    ValidTermsArePriced(q);
    r := ComputePricedCost(q.envelope, q.terms, true);
  }

  lemma NextTerm(terms: seq<PriceTerm>, i: nat)
    requires i < |terms|
    ensures Snapshots(terms[..i + 1]) == Snapshots(terms[..i]) + {terms[i].snapshotId}
    ensures Units(terms[..i + 1]) == Units(terms[..i]) + {terms[i].unit}
  {
    var a, b := terms[..i], terms[..i + 1];
    assert forall j :: 0 <= j < i ==> b[j] == a[j];
    forall s | s in Snapshots(b) ensures s in Snapshots(a) + {terms[i].snapshotId} {
      var j :| 0 <= j < |b| && b[j].snapshotId == s;
      if j < i { assert a[j].snapshotId == s; }
    }
    forall s | s in Snapshots(a) + {terms[i].snapshotId} ensures s in Snapshots(b) {
      if s == terms[i].snapshotId { assert b[i].snapshotId == s; }
      else { var j :| 0 <= j < |a| && a[j].snapshotId == s; assert b[j].snapshotId == s; }
    }
    forall u | u in Units(b) ensures u in Units(a) + {terms[i].unit} {
      var j :| 0 <= j < |b| && b[j].unit == u;
      if j < i { assert a[j].unit == u; }
    }
    forall u | u in Units(a) + {terms[i].unit} ensures u in Units(b) {
      if u == terms[i].unit { assert b[i].unit == u; }
      else { var j :| 0 <= j < |a| && a[j].unit == u; assert b[j].unit == u; }
    }
  }

  class Connection {
    var periods: seq<Period>
    var entries: seq<Entry>
    var reservations: seq<Reservation>
    var prices: seq<PriceRow>
    var events: seq<Event>

    function State(): Db
      reads this
    {
      Db(periods, entries, reservations, prices, events)
    }

    ghost predicate Valid()
      reads this
    {
      Inv(State())
    }

    constructor ()
      ensures State() == EMPTY && Valid()
    {
      periods, entries, reservations, prices, events := [], [], [], [], [];
    }

    method Rollback(saved: Db)
      modifies this
      ensures State() == saved
    {
      periods, entries, reservations := saved.periods, saved.entries, saved.reservations;
      prices, events := saved.prices, saved.events;
    }

    // ---- row statements; preconditions are the CHECK constraints ----------

    method InsertEntry(e: Entry) returns (ok: bool)
      requires KindOk(e) && e.amount > 0 && e.currency == "USD"
      modifies this`entries
      ensures ok <==> FindEntry(old(entries), e.digest).None?
      ensures entries == if ok then old(entries) + [e] else old(entries)
    {
      ok := FindEntry(entries, e.digest).None?;
      if ok {
        entries := entries + [e];
      }
    }

    method InsertEvent(v: Event) returns (ok: bool)
      modifies this`events
      ensures ok <==> FindEvent(old(events), v.digest).None?
      ensures events == if ok then old(events) + [v] else old(events)
    {
      ok := FindEvent(events, v.digest).None?;
      if ok {
        events := events + [v];
      }
    }

    method UpdatePeriod(p: nat, spent: int, released: int, rows: int)
      requires p < |periods| && periods[p].active - released >= 0
      requires MIN64 <= periods[p].net + spent <= MAX64
      modifies this`periods
      ensures periods == old(periods)[p := Posted(old(periods)[p], spent, released, rows)]
    {
      var x := periods[p];
      periods := periods[p := x.(net := x.net + spent, active := x.active - released,
                                 entryCount := x.entryCount + rows)];
    }

    method UpdateReservation(i: nat, row: Reservation)
      requires i < |reservations| && SameAdmission(reservations[i], row) && RowOk(row, entries)
      modifies this`reservations
      ensures reservations == old(reservations)[i := row]
    {
      reservations := reservations[i := row];
    }

    method InsertPrices(terms: seq<PriceTerm>, reservation: nat)
      modifies this`prices
      ensures prices == old(prices) + PriceRows(terms, reservation)
    {
      var i := 0;
      ghost var all := PriceRows(terms, reservation);
      while i < |terms|
        invariant 0 <= i <= |terms|
        invariant prices == old(prices) + all[..i]
      {
        prices := prices + [PriceRow(reservation, terms[i])];
        i := i + 1;
      }
    }

    // ---- commands -----------------------------------------------------------

    method InitializePeriod(c: PeriodConfig) returns (reply: Reply)
      requires Valid()
      modifies this
      ensures Valid()
      ensures (State(), reply) == Initialize(old(State()), c)
    {
      InitializePreserves(State(), c);
      if ConfigError(c).Some? {
        return Rejected(ConfigError(c).value);
      }
      var found := FindEntry(entries, c.key);
      if found.Some? {
        var e := entries[found.value];
        if e.reference.Some? {
          return Rejected(Database);
        }
        if !MatchesReserve(e, periods[e.period], c) {
          return Rejected(Idempotency);
        }
        return PeriodReply(false, SummaryOf(periods[e.period]));
      }
      if FindPeriod(periods, c.startsOn).Some? {
        return Rejected(PeriodRule);
      }
      if |periods| >= MAX_BUDGET_PERIODS || |entries| >= MAX_LEDGER_ENTRIES {
        return Rejected(Limit);
      }
      var period := |periods|;
      periods := periods + [NewPeriod(c)];
      var ok := InsertEntry(ReserveEntry(c, period));
      reply := PeriodReply(true, SummaryOf(periods[period]));
    }

    method RecordEntry(e: EntryInput) returns (reply: Reply)
      requires Valid()
      modifies this
      ensures Valid()
      ensures (State(), reply) == Record(old(State()), e)
    {
      RecordPreserves(State(), e);
      if EntryError(e).Some? {
        return Rejected(EntryError(e).value);
      }
      var found := FindEntry(entries, e.key);
      if found.Some? {
        if !MatchesEntry(State(), found.value, e) {
          return Rejected(Idempotency);
        }
        return EntryReply(false, found.value, SummaryOf(periods[entries[found.value].period]));
      }
      var at := FindPeriod(periods, MonthOf(e.occurredAt));
      if at.None? {
        return Rejected(PeriodRule);
      }
      if periods[at.value].entryCount >= MAX_PERIOD_ENTRIES || |entries| >= MAX_LEDGER_ENTRIES {
        return Rejected(Limit);
      }
      var reference := ReferenceOf(State(), e);
      if reference.Err? {
        return Rejected(reference.error);
      }
      var prospective := ProspectiveNet(periods[at.value], e);
      if prospective.Err? {
        return Rejected(prospective.error);
      }
      var entryId := |entries|;
      var ok := InsertEntry(NewEntry(e, at.value, reference.value));
      var x := periods[at.value];
      periods := periods[at.value := x.(net := prospective.value, entryCount := x.entryCount + 1)];
      reply := EntryReply(true, entryId, SummaryOf(periods[at.value]));
    }

    method ReserveForDispatchLocked(q: ReservationRequest) returns (reply: Reply)
      requires Valid()
      modifies this
      ensures Valid()
      ensures (State(), reply) == ReserveForDispatch(old(State()), q)
    {
      ReservePreserves(State(), q);
      var held := ValidateRequest(q);
      if held.Err? {
        return Rejected(held.error);
      }
      var found := FindByDigest(reservations, q.key);
      if found.Some? {
        if !MatchesReservation(State(), found.value, q, held.value) {
          return Rejected(Idempotency);
        }
        return ReservationReply(false, reservations[found.value]);
      }
      if FindByJob(reservations, q.jobId).Some? {
        return Rejected(Job);
      }
      if |reservations| >= MAX_COST_RESERVATIONS || |prices| + |q.terms| > MAX_RESERVATION_PRICES
         || |events| >= MAX_RESERVATION_EVENTS {
        return Rejected(Limit);
      }
      var at := FindPeriod(periods, MonthOf(q.occurredAt));
      if at.None? {
        return Rejected(PeriodRule);
      }
      var p := periods[at.value];
      if p.policyId != q.policyId || p.policyRevision != q.policyRevision {
        return Rejected(Policy);
      }
      if ReservationsIn(reservations, at.value) >= MAX_PERIOD_RESERVATIONS {
        return Rejected(Limit);
      }
      if held.value > (p.cap - p.reserve) - Max(p.net, 0) - p.active {
        return Rejected(Budget);
      }
      if FindByPublicId(reservations, PublicId(q.key)).Some? {
        return Rejected(Database);
      }
      RequestTerms(q);
      assert PeriodOk(State(), at.value);
      var admitted := AdmitReservation(q, at.value, held.value);
      if !admitted {
        return Rejected(Database);
      }
      reply := ReservationReply(true, NewReservation(q, at.value, held.value));
    }

    /** Reservation, prices and event, in that order; a taken event key undoes the first two. */
    method AdmitReservation(q: ReservationRequest, at: nat, held: int) returns (ok: bool)
      requires at < |periods| && periods[at].active + held >= 0
      requires MIN64 <= periods[at].net <= MAX64
      modifies this
      ensures ok <==> FindEvent(old(events), DispatchKey(q.key)).None?
      ensures State() == if ok then Admit(old(State()), q, at, held) else old(State())
    {
      var saved := State();
      var id := |reservations|;
      reservations := reservations + [NewReservation(q, at, held)];
      InsertPrices(q.terms, id);
      ok := InsertEvent(DispatchEvent(q, id));
      if !ok {
        Rollback(saved);
        return;
      }
      UpdatePeriod(at, 0, -held, 0);
      assert periods[at] == saved.periods[at].(active := saved.periods[at].active + held);
    }

    method RecordReceiptRejection(i: nat, key: string, b: ReceiptBody, reason: UncertaintyReason)
      returns (reply: Reply)
      requires Valid() && i < |reservations| && Live(reservations[i].state)
      requires FindEvent(events, key).None?
      modifies this
      ensures (State(), reply) == RecordRejection(old(State()), i, key, b, reason)
    {
      assert ResolutionOk(State(), i);
      UpdateReservation(i, DoubtRow(reservations[i], reason, b.occurredAt));
      var ok := InsertEvent(ReceiptEvent(i, key, b, Uncertain, Doubt(reason), None));
      reply := SettlementReply(true, reservations[i], reservations[i].reason);
    }

    method PostSettledReceipt(i: nat, key: string, b: ReceiptBody, actual: int) returns (reply: Reply)
      requires Valid() && i < |reservations| && Live(reservations[i].state)
      requires FindEvent(events, key).None? && 0 < actual <= reservations[i].held
      modifies this
      ensures var row := SettledRow(old(reservations)[i], b, actual, |old(entries)|);
        (State(), reply) ==
        if |old(entries)| >= MAX_LEDGER_ENTRIES then (old(State()), Rejected(Limit))
        else if FindEntry(old(entries), SettlementKey(key)).Some? then (old(State()), Rejected(Database))
        else (PostSettlement(old(State()), i, key, b, actual), SettlementReply(true, row, row.reason))
    {
      HoldFits(State(), i);
      if |entries| >= MAX_LEDGER_ENTRIES {
        return Rejected(Limit);
      }
      ghost var saved := State();
      var entryId := |entries|;
      var posted := InsertEntry(ChargeEntry(reservations[i], key, actual));
      if !posted {
        return Rejected(Database);
      }
      FinishSettlement(saved, i, key, b, actual, entryId);
      reply := SettlementReply(true, reservations[i], reservations[i].reason);
    }

    /** The writes after the charge: period totals, row, event. */
    method FinishSettlement(ghost saved: Db, i: nat, key: string, b: ReceiptBody, actual: int, entryId: nat)
      requires Inv(saved) && i < |saved.reservations| && Live(saved.reservations[i].state)
      requires FindEvent(saved.events, key).None? && 0 < actual <= saved.reservations[i].held
      requires entryId == |saved.entries|
      requires State() == saved.(entries := saved.entries + [ChargeEntry(saved.reservations[i], key, actual)])
      requires saved.reservations[i].held <= saved.periods[saved.reservations[i].period].active
      requires MIN64 <= saved.periods[saved.reservations[i].period].net
      requires saved.periods[saved.reservations[i].period].net + saved.reservations[i].held <= MAX64
      modifies this
      ensures State() == PostSettlement(saved, i, key, b, actual)
    {
      var r := reservations[i];
      assert ResolutionOk(saved, i) && AdmissionOk(saved, i);
      UpdatePeriod(r.period, actual, r.held, 1);
      assert entries[entryId] == ChargeEntry(r, key, actual);
      UpdateReservation(i, SettledRow(r, b, actual, entryId));
      var ok := InsertEvent(ReceiptEvent(i, key, b, Settled, Complete, Some(b.session)));
    }

    method Settle(key: string, b: ReceiptBody) returns (reply: Reply)
      requires Valid()
      modifies this
      ensures Valid()
      ensures (State(), reply) == SettleReservation(old(State()), key, b)
    {
      SettlePreserves(State(), key, b);
      if !EvidenceIdentifier(key) || !EvidenceIdentifier(b.reservationId) {
        return Rejected(Identifier);
      }
      var at := FindByPublicId(reservations, b.reservationId);
      if at.None? {
        return Rejected(Missing);
      }
      var i := at.value;
      var r := reservations[i];
      var replay := FindEvent(events, key);
      if replay.Some? {
        var v := events[replay.value];
        if v.reservation != i || v.receipt != Some(b) {
          return Rejected(Idempotency);
        }
        return SettlementReply(false, r, r.reason);
      }
      if |events| >= MAX_RESERVATION_EVENTS {
        return Rejected(Limit);
      }
      if !Live(r.state) {
        var ok := InsertEvent(ReceiptEvent(i, key, b, r.state, AlreadyTerminal, None));
        return SettlementReply(true, r, Some(AlreadyTerminal));
      }
      reply := SettleLiveReservation(i, key, b);
    }

    method SettleLiveReservation(i: nat, key: string, b: ReceiptBody) returns (reply: Reply)
      requires Valid() && i < |reservations| && Live(reservations[i].state)
      requires FindEvent(events, key).None?
      modifies this
      ensures (State(), reply) == SettleLive(old(State()), i, key, b)
    {
      var r := reservations[i];
      var rejection := RejectionReason(State(), i, b);
      if rejection.Some? {
        reply := RecordReceiptRejection(i, key, b, rejection.value);
        return;
      }
      TermsArePriced(prices, i);
      var terms := StoredTerms(State(), i);
      var actual := ComputePricedCost(b.usage, terms, false);
      if actual.Err? {
        return Rejected(actual.error);
      }
      PricedCostMeaning(b.usage, terms, false);
      if actual.value == 0 {
        reply := RecordReceiptRejection(i, key, b, ZeroUsageReceipt);
        return;
      }
      if actual.value > r.held || !Within(b.usage, r.envelope) {
        reply := RecordReceiptRejection(i, key, b, ActualExceedsReservation);
        return;
      }
      reply := PostSettledReceipt(i, key, b, actual.value);
    }

    method MarkUncertain(u: UncertaintyInput) returns (reply: Reply)
      requires Valid()
      modifies this
      ensures Valid()
      ensures (State(), reply) == MarkReservationUncertain(old(State()), u)
    {
      MarkUncertainPreserves(State(), u);
      if UncertaintyError(u).Some? {
        return Rejected(UncertaintyError(u).value);
      }
      var at := FindByPublicId(reservations, u.reservationId);
      if at.None? {
        return Rejected(Missing);
      }
      var i := at.value;
      var r := reservations[i];
      var replay := FindEvent(events, u.key);
      if replay.Some? {
        var v := events[replay.value];
        if v.reservation != i || v.occurredAt != u.occurredAt || v.reason != Some(Doubt(u.reason))
           || v.evidence != Some(u.evidence) || v.receipt.Some? {
          return Rejected(Idempotency);
        }
        return SettlementReply(false, r, r.reason);
      }
      if !Live(r.state) {
        return SettlementReply(false, r, Some(AlreadyTerminal));
      }
      if |events| >= MAX_RESERVATION_EVENTS {
        return Rejected(Limit);
      }
      reply := RecordDoubt(i, u);
    }

    method RecordDoubt(i: nat, u: UncertaintyInput) returns (reply: Reply)
      requires Valid() && i < |reservations| && Live(reservations[i].state)
      requires FindEvent(events, u.key).None?
      modifies this
      ensures var row := DoubtRow(old(reservations[i]), u.reason, u.occurredAt);
        && State() == WithEvent(old(State()).(reservations := old(reservations)[i := row]), UncertainEvent(i, u))
        && reply == SettlementReply(true, row, row.reason)
    {
      assert ResolutionOk(State(), i);
      UpdateReservation(i, DoubtRow(reservations[i], u.reason, u.occurredAt));
      var ok := InsertEvent(UncertainEvent(i, u));
      reply := SettlementReply(true, reservations[i], reservations[i].reason);
    }

    method Reconcile(c: Reconciliation) returns (reply: Reply)
      requires Valid()
      modifies this
      ensures Valid()
      ensures (State(), reply) == ReconcileReservation(old(State()), c)
    {
      ReconcilePreserves(State(), c);
      var saved := State();
      if ReconciliationError(c).Some? {
        return Rejected(ReconciliationError(c).value);
      }
      var at := FindByPublicId(reservations, c.reservationId);
      if at.None? {
        return Rejected(Missing);
      }
      var i := at.value;
      var r := reservations[i];
      var replay := FindEvent(events, c.key);
      if replay.Some? {
        if !ReconciliationReplays(State(), events[replay.value], i, c) {
          return Rejected(Idempotency);
        }
        return SettlementReply(false, r, r.reason);
      }
      if !Live(r.state) {
        return Rejected(Terminal);
      }
      if |events| >= MAX_RESERVATION_EVENTS {
        return Rejected(Limit);
      }
      if AmountOf(c) > r.held {
        return Rejected(Amount);
      }
      var entry := None;
      if c.ManualInput? {
        if |entries| >= MAX_LEDGER_ENTRIES {
          return Rejected(Limit);
        }
        entry := Some(|entries|);
        var posted := InsertEntry(ManualEntry(r, c));
        if !posted {
          Rollback(saved);
          return Rejected(Database);
        }
      }
      HoldFits(saved, i);
      FinishReconciliation(saved, i, c, entry);
      reply := SettlementReply(true, reservations[i], reservations[i].reason);
    }

    /** The writes after the manual entry, if any: period totals, row, event. */
    method FinishReconciliation(ghost saved: Db, i: nat, c: Reconciliation, entry: Option<nat>)
      requires Inv(saved) && i < |saved.reservations| && Live(saved.reservations[i].state)
      requires ReconciliationError(c).None? && AmountOf(c) <= saved.reservations[i].held
      requires FindEvent(saved.events, c.key).None?
      requires var r := saved.reservations[i];
        && State() == saved.(entries := saved.entries + if c.ManualInput? then [ManualEntry(r, c)] else [])
        && entry == (if c.ManualInput? then Some(|saved.entries|) else None)
      requires saved.reservations[i].held <= saved.periods[saved.reservations[i].period].active
      requires MIN64 <= saved.periods[saved.reservations[i].period].net
      requires saved.periods[saved.reservations[i].period].net + saved.reservations[i].held <= MAX64
      modifies this
      ensures State() == PostReconciliation(saved, i, c)
    {
      var r := reservations[i];
      assert ResolutionOk(saved, i) && AdmissionOk(saved, i);
      UpdatePeriod(r.period, AmountOf(c), r.held, if AmountOf(c) > 0 then 1 else 0);
      if c.ManualInput? {
        assert entries[|saved.entries|] == ManualEntry(r, c);
      }
      UpdateReservation(i, ReconciledRow(r, c, entry));
      var ok := InsertEvent(ReconcileEvent(i, c));
    }
  }

  /** A live hold is inside its period's active total, and spending it cannot leave 64 bits. */
  lemma HoldFits(db: Db, i: nat)
    requires Inv(db) && i < |db.reservations| && Live(db.reservations[i].state)
    ensures var r := db.reservations[i]; var p := db.periods[r.period];
      r.held <= p.active && MIN64 <= p.net && p.net + r.held <= MAX64
  {
    var r := db.reservations[i];
    assert PeriodOk(db, r.period);
    forall j | 0 <= j < |db.reservations| ensures db.reservations[j].held > 0 {
      assert AdmissionOk(db, j);
    }
    HeldCovers(db.reservations, i, r.period);
  }
}
