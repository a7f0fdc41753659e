/** Every command keeps the ledger invariant. */
module LedgerPreservation {
  import opened Wrappers
  import opened Calendar
  import opened LedgerErrors
  import opened Pricing
  import opened LedgerRows
  import opened LedgerCommands
  import opened LedgerInvariant

  lemma EmptyInv()
    ensures Inv(EMPTY)
  {
  }

  // ---- initialize_period ------------------------------------------------

  lemma NewPeriodOk(db: Db, c: PeriodConfig)
    requires Inv(db) && ConfigError(c).None?
    ensures var after := db.(periods := db.periods + [NewPeriod(c)],
                             entries := db.entries + [ReserveEntry(c, |db.periods|)]);
      PeriodsOk(after)
  {
    var n, e := |db.periods|, ReserveEntry(c, |db.periods|);
    var after := db.(periods := db.periods + [NewPeriod(c)], entries := db.entries + [e]);
    forall p | 0 <= p < |after.periods| ensures PeriodOk(after, p) {
      var x := after.periods[p];
      var own := ReserveMatches(x.start, x.policyId);
      TotalAppend(Net, db.entries, e, p);
      TotalAppend(Rows, db.entries, e, p);
      TotalAppend(ReserveRows, db.entries, e, p);
      TotalAppend(ReserveAmount, db.entries, e, p);
      TotalAppend(own, db.entries, e, p);
      if p == n {
        TotalUnused(Net, db.entries, p);
        TotalUnused(Rows, db.entries, p);
        TotalUnused(ReserveRows, db.entries, p);
        TotalUnused(ReserveAmount, db.entries, p);
        TotalUnused(own, db.entries, p);
        HeldUnused(db.reservations, p);
      } else {
        assert PeriodOk(db, p);
      }
    }
  }

  lemma RefundsAfterAppend(db: Db, e: Entry, after: Db)
    requires Inv(db) && after.entries == db.entries + [e]
    requires Microcents(e.amount)
    requires e.kind.RefundKind? && e.reference.Some? && e.reference.value < |db.entries| ==>
      Total(Refunds(e.reference.value), db.entries, 0) + e.amount
        <= db.entries[e.reference.value].amount
    requires e.reference.Some? ==> e.reference.value < |db.entries|
    ensures RefundsOk(after)
  {
    forall i | 0 <= i < |after.entries| ensures RefundBound(after, i) {
      TotalAppend(Refunds(i), db.entries, e, 0);
      if i == |db.entries| {
        RefundsUnused(db.entries, i);
      } else {
        assert RefundBound(db, i);
      }
    }
  }

  lemma EntriesAfterAppend(db: Db, e: Entry, after: Db)
    requires Inv(db) && ForeignKeys(after) && after.entries == db.entries + [e]
    requires |db.periods| <= |after.periods|
    requires forall p :: 0 <= p < |db.periods| ==> after.periods[p].start == db.periods[p].start
    requires EntryOk(after, |db.entries|)
    ensures EntriesOk(after)
  {
    forall i | 0 <= i < |after.entries| ensures EntryOk(after, i) {
      if i < |db.entries| {
        assert EntryOk(db, i);
        assert after.entries[i] == db.entries[i];
      }
    }
  }

  /** Appending entries and re-totalling periods leaves every reservation's facts in place. */
  lemma ReservationsUnderAppend(db: Db, after: Db)
    requires Inv(db) && ForeignKeys(after)
    requires db.entries <= after.entries && after.reservations == db.reservations
    requires after.prices == db.prices && after.events == db.events
    requires |db.periods| <= |after.periods|
    requires forall p :: 0 <= p < |db.periods| ==> SameAuthority(db.periods[p], after.periods[p])
    ensures ReservationsOk(after)
  {
    forall i | 0 <= i < |after.reservations|
      ensures AdmissionOk(after, i) && ResolutionOk(after, i) && HistoryOk(after, i)
    {
      assert AdmissionOk(db, i) && ResolutionOk(db, i) && HistoryOk(db, i);
      RowUnderAppend(db.reservations[i], db.entries, after.entries);
    }
  }

  lemma RowUnderAppend(r: Reservation, entries: seq<Entry>, more: seq<Entry>)
    requires RowOk(r, entries) && entries <= more
    ensures RowOk(r, more)
  {
  }

  /** The columns the period trigger forbids to change. */
  predicate SameAuthority(a: Period, b: Period) {
    b == a.(net := b.net, active := b.active, entryCount := b.entryCount)
  }

  lemma InitializePreserves(db: Db, c: PeriodConfig)
    requires Inv(db)
    ensures Inv(Initialize(db, c).0)
  {
    var after := Initialize(db, c).0;
    if after != db {
      var e := ReserveEntry(c, |db.periods|);
      NewPeriodOk(db, c);
      assert ForeignKeys(after);
      RefundsAfterAppend(db, e, after);
      EntriesAfterAppend(db, e, after);
      ReservationsUnderAppend(db, after);
      assert KeysUnique(after);
    }
  }

  // ---- record_entry -----------------------------------------------------

  lemma RecordedPeriodOk(db: Db, at: nat, x: Period, e: Entry, after: Db)
    requires Inv(db) && at < |db.periods| && e.period == at && !e.kind.EmergencyReserve?
    requires after.entries == db.entries + [e] && after.periods == db.periods[at := x]
    requires after.reservations == db.reservations
    requires x == Posted(db.periods[at], OwnWeight(Net, e), 0, 1)
    requires WithinBudget(x)
    ensures PeriodsOk(after)
  {
    forall p | 0 <= p < |after.periods| ensures PeriodOk(after, p) {
      var own := ReserveMatches(db.periods[p].start, db.periods[p].policyId);
      assert PeriodOk(db, p);
      TotalAppend(Net, db.entries, e, p);
      TotalAppend(Rows, db.entries, e, p);
      TotalAppend(ReserveRows, db.entries, e, p);
      TotalAppend(ReserveAmount, db.entries, e, p);
      TotalAppend(own, db.entries, e, p);
    }
  }

  lemma RecordPreserves(db: Db, e: EntryInput)
    requires Inv(db)
    ensures Inv(Record(db, e).0)
  {
    var after := Record(db, e).0;
    if after != db {
      var at := FindPeriod(db.periods, MonthOf(e.occurredAt)).value;
      var p := db.periods[at];
      var row := NewEntry(e, at, ReferenceOf(db, e).value);
      assert PeriodOk(db, at);
      RecordedPeriodOk(db, at, after.periods[at], row, after);
      assert ForeignKeys(after);
      RefundsAfterAppend(db, row, after);
      EntriesAfterAppend(db, row, after);
      ReservationsUnderAppend(db, after);
      assert KeysUnique(after);
    }
  }

  // ---- reserve_for_dispatch ---------------------------------------------

  lemma RequestTerms(q: ReservationRequest)
    requires WorstCase(q).Ok?
    ensures 1 <= |q.terms| <= 4 && AllPriced(q.terms) && ValidUsage(q.envelope)
    ensures forall t :: t in q.terms ==> Fresh(t, q.occurredAt)
    ensures Chargeable(q.envelope, q.terms)
    ensures 0 < WorstCase(q).value == CostSum(q.envelope, q.terms) <= MAX64
  {
    forall i, j | 0 <= i < j < |q.terms| ensures q.terms[i].unit != q.terms[j].unit {
      assert TermError(q, j).None?;
      assert q.terms[..j][i].unit in Units(q.terms[..j]);
    }
    DistinctUnits(q.terms);
    forall t | t in q.terms ensures Fresh(t, q.occurredAt) {
      var j :| 0 <= j < |q.terms| && q.terms[j] == t;
      assert TermError(q, j).None?;
    }
    PricedCostMeaning(q.envelope, q.terms, true);
  }

  lemma AdmittedTerms(db: Db, q: ReservationRequest)
    requires Inv(db)
    ensures var n := |db.reservations|; TermsOf(db.prices + PriceRows(q.terms, n), n) == q.terms
  {
    var n := |db.reservations|;
    TermsOfAppend(db.prices, PriceRows(q.terms, n), n);
    TermsOfOther(db.prices, n);
    TermsOfOwn(PriceRows(q.terms, n), q.terms, n);
    assert [] + q.terms == q.terms;
  }

  lemma AdmittedRow(db: Db, q: ReservationRequest, at: nat, held: int)
    requires Inv(db) && at < |db.periods| && WorstCase(q) == Ok(held)
    requires db.periods[at].start == MonthOf(q.occurredAt)
    requires db.periods[at].policyId == q.policyId && db.periods[at].policyRevision == q.policyRevision
    requires ForeignKeys(Admit(db, q, at, held))
    ensures var after := Admit(db, q, at, held); var n := |db.reservations|;
      AdmissionOk(after, n) && ResolutionOk(after, n) && HistoryOk(after, n)
  {
    var n := |db.reservations|;
    RequestTerms(q);
    AdmittedTerms(db, q);
    EventAppend(db.events, DispatchEvent(q, n), n);
    DispatchEventsOther(db.events, n);
  }

  lemma AdmitReservationsOk(db: Db, q: ReservationRequest, at: nat, held: int)
    requires Inv(db) && at < |db.periods| && WorstCase(q) == Ok(held)
    requires db.periods[at].start == MonthOf(q.occurredAt)
    requires db.periods[at].policyId == q.policyId && db.periods[at].policyRevision == q.policyRevision
    requires ForeignKeys(Admit(db, q, at, held))
    ensures ReservationsOk(Admit(db, q, at, held))
  {
    var after, n := Admit(db, q, at, held), |db.reservations|;
    forall i | 0 <= i < |after.reservations|
      ensures AdmissionOk(after, i) && ResolutionOk(after, i) && HistoryOk(after, i)
    {
      if i == n {
        AdmittedRow(db, q, at, held);
      } else {
        assert AdmissionOk(db, i) && ResolutionOk(db, i) && HistoryOk(db, i);
        TermsOfAppend(db.prices, PriceRows(q.terms, n), i);
        TermsOfOther(PriceRows(q.terms, n), i);
        assert TermsOf(db.prices, i) + [] == TermsOf(db.prices, i);
        EventAppend(db.events, DispatchEvent(q, n), i);
      }
    }
  }

  lemma AdmitPeriodsOk(db: Db, q: ReservationRequest, at: nat, held: int)
    requires Inv(db) && at < |db.periods| && held > 0
    requires held <= Spendable(db.periods[at]) - Max(db.periods[at].net, 0) - db.periods[at].active
    ensures PeriodsOk(Admit(db, q, at, held))
  {
    var after := Admit(db, q, at, held);
    forall p | 0 <= p < |after.periods| ensures PeriodOk(after, p) {
      assert PeriodOk(db, p);
      HeldAppend(db.reservations, NewReservation(q, at, held), p);
    }
  }

  lemma AdmitForeignKeys(db: Db, q: ReservationRequest, at: nat, held: int)
    requires Inv(db) && at < |db.periods| && AllPriced(q.terms)
    ensures ForeignKeys(Admit(db, q, at, held))
  {
    var after, rows := Admit(db, q, at, held), PriceRows(q.terms, |db.reservations|);
    forall i | 0 <= i < |after.prices|
      ensures after.prices[i].reservation < |after.reservations| && Priced(after.prices[i].term)
    {
      if i >= |db.prices| {
        assert after.prices[i] == rows[i - |db.prices|];
        assert q.terms[i - |db.prices|] in q.terms;
      }
    }
  }

  lemma AdmitKeys(db: Db, q: ReservationRequest, at: nat, held: int)
    requires Inv(db) && at < |db.periods|
    requires FindByDigest(db.reservations, q.key).None? && FindByJob(db.reservations, q.jobId).None?
    requires FindEvent(db.events, DispatchKey(q.key)).None?
    ensures KeysUnique(Admit(db, q, at, held))
  {
    var rs, r := db.reservations, NewReservation(q, at, held);
    assert ReservationKeysUnique(rs + [r]);
  }

  lemma ReservePreserves(db: Db, q: ReservationRequest)
    requires Inv(db)
    ensures Inv(ReserveForDispatch(db, q).0)
  {
    var after := ReserveForDispatch(db, q).0;
    if after != db {
      var held := WorstCase(q).value;
      var at := FindPeriod(db.periods, MonthOf(q.occurredAt)).value;
      assert AdmissionError(db, q, held).None?;
      RequestTerms(q);
      AdmitForeignKeys(db, q, at, held);
      AdmitKeys(db, q, at, held);
      AdmitReservationsOk(db, q, at, held);
      AdmitPeriodsOk(db, q, at, held);
      forall i | 0 <= i < |after.entries| ensures EntryOk(after, i) { assert EntryOk(db, i); }
      forall i | 0 <= i < |after.entries| ensures RefundBound(after, i) { assert RefundBound(db, i); }
    }
  }

  // ---- settlement, uncertainty and reconciliation -----------------------

  /**
   * The one shape behind every change of an existing reservation: at most one
   * entry is posted, one row is rewritten and one event is appended.
   */
  ghost function Change(db: Db, i: nat, row: Reservation, rows: seq<Entry>, spent: int, event: Event): Db
    requires ForeignKeys(db) && i < |db.reservations|
  {
    var r := db.reservations[i];
    db.(entries := db.entries + rows,
        periods := db.periods[r.period := Posted(db.periods[r.period], spent, Released(r, row), |rows|)],
        reservations := db.reservations[i := row],
        events := db.events + [event])
  }

  function Released(r: Reservation, row: Reservation): int {
    Hold(r, r.period) - Hold(row, r.period)
  }

  /** The columns the reservation trigger forbids to change. */
  predicate SameAdmission(a: Reservation, b: Reservation) {
    b == a.(actual := b.actual, state := b.state, reason := b.reason, session := b.session,
            entry := b.entry, updatedAt := b.updatedAt)
  }

  /** What a change must respect to keep the invariant. */
  ghost predicate Changes(db: Db, i: nat, row: Reservation, rows: seq<Entry>, spent: int, event: Event)
    requires Inv(db) && i < |db.reservations|
  {
    var r := db.reservations[i];
    && SameAdmission(r, row) && RowOk(row, db.entries + rows)
    && |rows| <= 1 && |db.entries| + |rows| <= MAX_LEDGER_ENTRIES
    && (if rows == [] then spent == 0 && row.entry == r.entry
        else PostedEntry(db, r, rows[0], spent) && row.entry == Some(|db.entries|))
    && 0 <= spent <= Released(r, row)
    && (row.session == r.session || (row.session.Some? && !SessionTaken(db, i, row.session.value)))
    && event.reservation == i && event.resulting == row.state && !event.kind.DispatchReserved?
    && FindEvent(db.events, event.digest).None? && |db.events| < MAX_RESERVATION_EVENTS
  }

  ghost predicate PostedEntry(db: Db, r: Reservation, e: Entry, spent: int) {
    && e.period == r.period && e.direction.Debit? && (e.kind.ProviderCharge? || e.kind.ManualAdjustment?)
    && e.amount == spent && Microcents(spent) && e.currency == "USD" && e.reference.None?
    && e.occurredAt == At(r.createdAt) && FindEntry(db.entries, e.digest).None?
  }

  lemma ChangeForeignKeys(db: Db, i: nat, row: Reservation, rows: seq<Entry>, spent: int, event: Event)
    requires Inv(db) && i < |db.reservations| && Changes(db, i, row, rows, spent, event)
    ensures ForeignKeys(Change(db, i, row, rows, spent, event))
  {
  }

  lemma ChangeKeys(db: Db, i: nat, row: Reservation, rows: seq<Entry>, spent: int, event: Event)
    requires Inv(db) && i < |db.reservations| && Changes(db, i, row, rows, spent, event)
    ensures KeysUnique(Change(db, i, row, rows, spent, event))
  {
    var after := Change(db, i, row, rows, spent, event);
    assert ReservationKeysUnique(after.reservations);
  }

  lemma ChangePeriod(db: Db, i: nat, row: Reservation, rows: seq<Entry>, spent: int, event: Event, p: nat)
    requires Inv(db) && i < |db.reservations| && Changes(db, i, row, rows, spent, event)
    requires p < |db.periods|
    ensures PeriodOk(Change(db, i, row, rows, spent, event), p)
  {
    var after, r := Change(db, i, row, rows, spent, event), db.reservations[i];
    var own := ReserveMatches(db.periods[p].start, db.periods[p].policyId);
    assert PeriodOk(db, p);
    HeldUpdate(db.reservations, i, row, p);
    forall j | 0 <= j < |after.reservations| ensures after.reservations[j].held > 0 {
      assert AdmissionOk(db, j);
    }
    HeldCovers(after.reservations, i, p);
    TotalMaybe(Net, db.entries, rows, p);
    TotalMaybe(Rows, db.entries, rows, p);
    TotalMaybe(ReserveRows, db.entries, rows, p);
    TotalMaybe(ReserveAmount, db.entries, rows, p);
    TotalMaybe(own, db.entries, rows, p);
  }

  lemma TotalMaybe(m: Measure, entries: seq<Entry>, rows: seq<Entry>, p: nat)
    requires |rows| <= 1
    ensures Total(m, entries + rows, p) == Total(m, entries, p) + (if rows == [] then 0 else Weight(m, rows[0], p))
  {
    if rows == [] {
      assert entries + rows == entries;
    } else {
      assert rows == [rows[0]];
      TotalAppend(m, entries, rows[0], p);
    }
  }

  lemma ChangeEntries(db: Db, i: nat, row: Reservation, rows: seq<Entry>, spent: int, event: Event)
    requires Inv(db) && i < |db.reservations| && Changes(db, i, row, rows, spent, event)
    requires ForeignKeys(Change(db, i, row, rows, spent, event))
    ensures EntriesOk(Change(db, i, row, rows, spent, event))
    ensures RefundsOk(Change(db, i, row, rows, spent, event))
  {
    var after := Change(db, i, row, rows, spent, event);
    assert AdmissionOk(db, i);
    if rows == [] {
      assert after.entries == db.entries;
      forall j | 0 <= j < |after.entries| ensures EntryOk(after, j) && RefundBound(after, j) {
        assert EntryOk(db, j) && RefundBound(db, j);
      }
    } else {
      assert rows == [rows[0]];
      EntriesAfterAppend(db, rows[0], after);
      RefundsAfterAppend(db, rows[0], after);
    }
  }

  lemma ChangeReservations(db: Db, i: nat, row: Reservation, rows: seq<Entry>, spent: int, event: Event)
    requires Inv(db) && i < |db.reservations| && Changes(db, i, row, rows, spent, event)
    requires ForeignKeys(Change(db, i, row, rows, spent, event))
    ensures ReservationsOk(Change(db, i, row, rows, spent, event))
  {
    var after := Change(db, i, row, rows, spent, event);
    forall j | 0 <= j < |after.reservations|
      ensures AdmissionOk(after, j) && ResolutionOk(after, j) && HistoryOk(after, j)
    {
      assert AdmissionOk(db, j) && ResolutionOk(db, j) && HistoryOk(db, j);
      EventAppend(db.events, event, j);
      if j != i {
        RowUnderAppend(db.reservations[j], db.entries, after.entries);
      }
    }
  }

  lemma ChangePreserves(db: Db, i: nat, row: Reservation, rows: seq<Entry>, spent: int, event: Event)
    requires Inv(db) && i < |db.reservations| && Changes(db, i, row, rows, spent, event)
    ensures Inv(Change(db, i, row, rows, spent, event))
  {
    ChangeForeignKeys(db, i, row, rows, spent, event);
    ChangeKeys(db, i, row, rows, spent, event);
    ChangeEntries(db, i, row, rows, spent, event);
    ChangeReservations(db, i, row, rows, spent, event);
    forall p | 0 <= p < |db.periods| ensures PeriodOk(Change(db, i, row, rows, spent, event), p) {
      ChangePeriod(db, i, row, rows, spent, event, p);
    }
  }

  /** A change that posts nothing and releases nothing leaves the periods as they were. */
  lemma QuietChange(db: Db, i: nat, row: Reservation, event: Event)
    requires Inv(db) && i < |db.reservations| && Changes(db, i, row, [], 0, event)
    requires Released(db.reservations[i], row) == 0
    ensures Change(db, i, row, [], 0, event)
      == WithEvent(db.(reservations := db.reservations[i := row]), event)
  {
    var r := db.reservations[i];
    assert db.entries + [] == db.entries;
    assert db.periods[r.period := db.periods[r.period]] == db.periods;
  }

  lemma RejectionPreserves(db: Db, i: nat, row: Reservation, event: Event, reason: UncertaintyReason, at: UtcStamp)
    requires Inv(db) && i < |db.reservations| && Live(db.reservations[i].state)
    requires row == DoubtRow(db.reservations[i], reason, at)
    requires event.reservation == i && event.resulting == Uncertain && !event.kind.DispatchReserved?
    requires FindEvent(db.events, event.digest).None? && |db.events| < MAX_RESERVATION_EVENTS
    ensures Inv(WithEvent(db.(reservations := db.reservations[i := row]), event))
  {
    assert ResolutionOk(db, i);
    assert db.entries + [] == db.entries;
    assert Changes(db, i, row, [], 0, event);
    QuietChange(db, i, row, event);
    ChangePreserves(db, i, row, [], 0, event);
  }

  lemma LateReceiptPreserves(db: Db, i: nat, event: Event)
    requires Inv(db) && i < |db.reservations| && !Live(db.reservations[i].state)
    requires event.reservation == i && event.resulting == db.reservations[i].state
    requires !event.kind.DispatchReserved?
    requires FindEvent(db.events, event.digest).None? && |db.events| < MAX_RESERVATION_EVENTS
    ensures Inv(WithEvent(db, event))
  {
    var r := db.reservations[i];
    assert ResolutionOk(db, i);
    assert db.entries + [] == db.entries;
    assert Changes(db, i, r, [], 0, event);
    QuietChange(db, i, r, event);
    assert db.reservations[i := r] == db.reservations;
    ChangePreserves(db, i, r, [], 0, event);
  }

  lemma SettlePreserves(db: Db, key: string, b: ReceiptBody)
    requires Inv(db)
    ensures Inv(SettleReservation(db, key, b).0)
  {
    var after := SettleReservation(db, key, b).0;
    if after != db {
      var i := FindByPublicId(db.reservations, b.reservationId).value;
      var r := db.reservations[i];
      if !Live(r.state) {
        LateReceiptPreserves(db, i, ReceiptEvent(i, key, b, r.state, AlreadyTerminal, None));
      } else {
        SettleLivePreserves(db, i, key, b);
      }
    }
  }

  lemma ReceiptRejectionPreserves(db: Db, i: nat, key: string, b: ReceiptBody, reason: UncertaintyReason)
    requires Inv(db) && i < |db.reservations| && Live(db.reservations[i].state)
    requires FindEvent(db.events, key).None? && |db.events| < MAX_RESERVATION_EVENTS
    ensures Inv(RecordRejection(db, i, key, b, reason).0)
  {
    RejectionPreserves(db, i, DoubtRow(db.reservations[i], reason, b.occurredAt),
      ReceiptEvent(i, key, b, Uncertain, Doubt(reason), None), reason, b.occurredAt);
  }

  lemma SettlementChanges(db: Db, i: nat, key: string, b: ReceiptBody, cost: int)
    requires Inv(db) && i < |db.reservations| && Live(db.reservations[i].state)
    requires FindEvent(db.events, key).None? && |db.events| < MAX_RESERVATION_EVENTS
    requires |db.entries| < MAX_LEDGER_ENTRIES && FindEntry(db.entries, SettlementKey(key)).None?
    requires 0 < cost <= db.reservations[i].held && !SessionTaken(db, i, b.session)
    ensures var r := db.reservations[i];
      Changes(db, i, SettledRow(r, b, cost, |db.entries|), [ChargeEntry(r, key, cost)], cost,
              ReceiptEvent(i, key, b, Settled, Complete, Some(b.session)))
  {
    var r := db.reservations[i];
    assert ResolutionOk(db, i) && AdmissionOk(db, i);
    var e := ChargeEntry(r, key, cost);
    assert (db.entries + [e])[|db.entries|] == e;
  }

  lemma PostSettlementPreserves(db: Db, i: nat, key: string, b: ReceiptBody, cost: int)
    requires Inv(db) && i < |db.reservations| && Live(db.reservations[i].state)
    requires FindEvent(db.events, key).None? && |db.events| < MAX_RESERVATION_EVENTS
    requires |db.entries| < MAX_LEDGER_ENTRIES && FindEntry(db.entries, SettlementKey(key)).None?
    requires 0 < cost <= db.reservations[i].held && !SessionTaken(db, i, b.session)
    ensures Inv(PostSettlement(db, i, key, b, cost))
  {
    var r := db.reservations[i];
    var row, e := SettledRow(r, b, cost, |db.entries|), ChargeEntry(r, key, cost);
    var event := ReceiptEvent(i, key, b, Settled, Complete, Some(b.session));
    SettlementChanges(db, i, key, b, cost);
    ChangePreserves(db, i, row, [e], cost, event);
    assert PostSettlement(db, i, key, b, cost) == Change(db, i, row, [e], cost, event);
  }

  lemma SettleLivePreserves(db: Db, i: nat, key: string, b: ReceiptBody)
    requires Inv(db) && i < |db.reservations| && Live(db.reservations[i].state)
    requires FindEvent(db.events, key).None? && |db.events| < MAX_RESERVATION_EVENTS
    ensures Inv(SettleLive(db, i, key, b).0)
  {
    var r, cost := db.reservations[i], UsageCost(db, i, b);
    var rejection := RejectionReason(db, i, b);
    if rejection.Some? {
      ReceiptRejectionPreserves(db, i, key, b, rejection.value);
    } else if cost.Ok? {
      if cost.value == 0 {
        ReceiptRejectionPreserves(db, i, key, b, ZeroUsageReceipt);
      } else if cost.value > r.held || !Within(b.usage, r.envelope) {
        ReceiptRejectionPreserves(db, i, key, b, ActualExceedsReservation);
      } else if SettleLive(db, i, key, b).0 != db {
        PostSettlementPreserves(db, i, key, b, cost.value);
      }
    }
  }

  lemma MarkUncertainPreserves(db: Db, u: UncertaintyInput)
    requires Inv(db)
    ensures Inv(MarkReservationUncertain(db, u).0)
  {
    var after := MarkReservationUncertain(db, u).0;
    if after != db {
      var i := FindByPublicId(db.reservations, u.reservationId).value;
      var r := db.reservations[i];
      RejectionPreserves(db, i, DoubtRow(r, u.reason, u.occurredAt), UncertainEvent(i, u), u.reason, u.occurredAt);
    }
  }

  lemma PostReconciliationPreserves(db: Db, i: nat, c: Reconciliation)
    requires Inv(db) && i < |db.reservations| && Live(db.reservations[i].state)
    requires ReconciliationError(c).None? && AmountOf(c) <= db.reservations[i].held
    requires FindEvent(db.events, c.key).None? && |db.events| < MAX_RESERVATION_EVENTS
    requires c.ManualInput? ==>
      |db.entries| < MAX_LEDGER_ENTRIES && FindEntry(db.entries, ManualKey(c.key)).None?
    ensures Inv(PostReconciliation(db, i, c))
  {
    var r := db.reservations[i];
    assert ResolutionOk(db, i) && AdmissionOk(db, i);
    var rows := if c.ManualInput? then [ManualEntry(r, c)] else [];
    var row := ReconciledRow(r, c, if c.ManualInput? then Some(|db.entries|) else None);
    if c.ManualInput? {
      assert (db.entries + rows)[|db.entries|] == rows[0];
    }
    assert RowOk(row, db.entries + rows);
    assert Changes(db, i, row, rows, AmountOf(c), ReconcileEvent(i, c));
    ChangePreserves(db, i, row, rows, AmountOf(c), ReconcileEvent(i, c));
    assert PostReconciliation(db, i, c) == Change(db, i, row, rows, AmountOf(c), ReconcileEvent(i, c));
  }

  lemma ReconcilePreserves(db: Db, c: Reconciliation)
    requires Inv(db)
    ensures Inv(ReconcileReservation(db, c).0)
  {
    if ReconcileReservation(db, c).0 != db {
      PostReconciliationPreserves(db, FindByPublicId(db.reservations, c.reservationId).value, c);
    }
  }

  /** Every command, accepted or rejected, keeps the invariant. */
  lemma ApplyPreserves(db: Db, c: Command)
    requires Inv(db)
    ensures Inv(Apply(db, c).0)
  {
    match c
    case InitializePeriod(config) => InitializePreserves(db, config);
    case RecordEntry(input) => RecordPreserves(db, input);
    case Reserve(request) => ReservePreserves(db, request);
    case Settle(key, body) => SettlePreserves(db, key, body);
    case MarkUncertain(u) => MarkUncertainPreserves(db, u);
    case Reconcile(r) => ReconcilePreserves(db, r);
  }
}
