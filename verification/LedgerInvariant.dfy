/** What every reachable ledger database satisfies, table by table. */
module LedgerInvariant {
  import opened Wrappers
  import opened Calendar
  import opened LedgerErrors
  import opened Pricing
  import opened LedgerRows
  import opened LedgerCommands

  /** The UNIQUE columns. */
  ghost predicate KeysUnique(db: Db) {
    && (forall i, j :: 0 <= i < j < |db.periods| ==> db.periods[i].start != db.periods[j].start)
    && (forall i, j :: 0 <= i < j < |db.entries| ==> db.entries[i].digest != db.entries[j].digest)
    && (forall i, j :: 0 <= i < j < |db.events| ==> db.events[i].digest != db.events[j].digest)
    && ReservationKeysUnique(db.reservations)
  }

  ghost predicate ReservationKeysUnique(rs: seq<Reservation>) {
    && (forall i :: 0 <= i < |rs| ==> rs[i].publicId == PublicId(rs[i].digest))
    && (forall i, j :: 0 <= i < j < |rs| ==> rs[i].digest != rs[j].digest && rs[i].jobId != rs[j].jobId)
    && (forall i, j :: 0 <= i < j < |rs| ==> rs[i].session.Some? ==> rs[i].session != rs[j].session)
    && (forall i, j :: 0 <= i < j < |rs| ==> rs[i].entry.Some? ==> rs[i].entry != rs[j].entry)
  }

  /** Authority, cached totals and the spending limit of a period. */
  ghost predicate PeriodOk(db: Db, p: nat)
    requires p < |db.periods|
  {
    var x := db.periods[p];
    && AuthorityOk(x)
    && x.net == Total(Net, db.entries, p)
    && x.entryCount == Total(Rows, db.entries, p)
    && x.active == Held(db.reservations, p)
    && Total(ReserveRows, db.entries, p) == 1
    && Total(ReserveAmount, db.entries, p) == x.reserve
    && Total(ReserveMatches(x.start, x.policyId), db.entries, p) == 1
    && WithinBudget(x)
  }

  ghost predicate AuthorityOk(x: Period) {
    && x.start != LAST_MONTH && x.end == Next(x.start) && x.currency == "USD"
    && 0 < x.reserve < x.cap <= MAX64 && x.policyRevision > 0
  }

  /** The no-overspend inequality and the range of the balance column. */
  predicate WithinBudget(x: Period) {
    && Max(x.net, 0) + x.active <= Spendable(x)
    && MIN64 <= x.net
    && 0 <= x.active
  }

  /** A row CHECK of `ledger_entries`, and where in time the row lies. */
  ghost predicate EntryOk(db: Db, i: nat)
    requires ForeignKeys(db) && i < |db.entries|
  {
    var e := db.entries[i];
    && Microcents(e.amount) && e.currency == "USD"
    && InOwnMonth(e, db.periods[e.period].start)
    && KindOk(e)
    && (e.kind.RefundKind? ==> e.reference.value < i && RefundMatches(e, db.entries[e.reference.value]))
  }

  /** Reserve rows sit on the month boundary, every other row inside the month. */
  predicate InOwnMonth(e: Entry, month: Month) {
    if e.kind.EmergencyReserve? then e.occurredAt == Boundary(month)
    else e.occurredAt.At? && ValidStamp(e.occurredAt.stamp) && MonthOf(e.occurredAt.stamp) == month
  }

  predicate KindOk(e: Entry) {
    match e.kind
    case FixedSubscription => e.direction.Debit? && e.reference.None?
    case ProviderCharge => e.direction.Debit? && e.reference.None?
    case RefundKind => e.direction.Credit? && e.reference.Some?
    case ManualAdjustment => (e.direction.Debit? || e.direction.Credit?) && e.reference.None?
    case EmergencyReserve => e.direction.Allocation? && e.reference.None?
    case OtherKind(_) => false
  }

  predicate RefundMatches(refund: Entry, charge: Entry) {
    IsCharge(charge.kind) && charge.currency == refund.currency && charge.source == refund.source
  }

  /** Refunds never exceed their charge. */
  ghost predicate RefundBound(db: Db, i: nat)
    requires i < |db.entries|
  {
    Total(Refunds(i), db.entries, 0) <= db.entries[i].amount
  }

  /** What a reservation was admitted with; none of it ever changes. */
  ghost predicate AdmissionOk(db: Db, i: nat)
    requires ForeignKeys(db) && i < |db.reservations|
  {
    var r, terms := db.reservations[i], TermsOf(db.prices, i);
    && MonthOf(r.createdAt) == db.periods[r.period].start
    && r.policyId == db.periods[r.period].policyId
    && r.policyRevision == db.periods[r.period].policyRevision
    && 1 <= |terms| <= 4
    && AllPriced(terms) && ValidUsage(r.envelope)
    && (forall t :: t in terms ==> Fresh(t, r.createdAt))
    && r.pricingDigest == SortByUnit(terms)
    && Chargeable(r.envelope, terms) && CostSum(r.envelope, terms) == r.held
    && 0 < r.held <= MAX64
  }

  /** The row CHECK of `cost_reservations` and the entry a resolved row is linked to. */
  ghost predicate ResolutionOk(db: Db, i: nat)
    requires ForeignKeys(db) && i < |db.reservations|
  {
    RowOk(db.reservations[i], db.entries)
  }

  ghost predicate RowOk(r: Reservation, entries: seq<Entry>) {
    match r.state
    case Dispatching => r.actual.None? && r.reason.None? && r.entry.None? && r.session.None?
    case Uncertain =>
      r.actual.None? && r.reason.Some? && r.reason.value.Doubt? && r.entry.None? && r.session.None?
    case Settled =>
      && r.actual.Some? && 0 < r.actual.value <= r.held && r.reason == Some(Complete)
      && r.session.Some? && Linked(r, entries, ProviderCharge)
      && entries[r.entry.value].source == r.providerId
    case Reconciled =>
      && r.actual.Some? && 0 <= r.actual.value <= r.held && r.session.None? && r.reason.Some?
      && (if r.actual.value == 0 then r.entry.None? && r.reason.value.NoCharge?
          else r.reason == Some(ManualDebit) && Linked(r, entries, ManualAdjustment))
  }

  /** The linked entry carries the resolved amount in the reservation's own period. */
  ghost predicate Linked(r: Reservation, entries: seq<Entry>, kind: EntryKind) {
    && r.actual.Some? && r.entry.Some? && r.entry.value < |entries|
    && var e := entries[r.entry.value];
       e.kind == kind && e.direction == Debit && e.amount == r.actual.value && e.period == r.period
  }

  ghost predicate HistoryOk(db: Db, i: nat)
    requires i < |db.reservations|
  {
    && LastState(db.events, i) == Some(db.reservations[i].state)
    && DispatchEvents(db.events, i) == 1
  }

  ghost predicate LimitsOk(db: Db) {
    && |db.periods| <= MAX_BUDGET_PERIODS && |db.entries| <= MAX_LEDGER_ENTRIES
    && |db.reservations| <= MAX_COST_RESERVATIONS && |db.events| <= MAX_RESERVATION_EVENTS
    && |db.prices| <= MAX_RESERVATION_PRICES
  }

  ghost predicate PeriodsOk(db: Db) { forall p :: 0 <= p < |db.periods| ==> PeriodOk(db, p) }

  ghost predicate EntriesOk(db: Db)
    requires ForeignKeys(db)
  {
    forall i :: 0 <= i < |db.entries| ==> EntryOk(db, i)
  }

  ghost predicate RefundsOk(db: Db) { forall i :: 0 <= i < |db.entries| ==> RefundBound(db, i) }

  ghost predicate ReservationsOk(db: Db)
    requires ForeignKeys(db)
  {
    forall i :: 0 <= i < |db.reservations| ==>
      AdmissionOk(db, i) && ResolutionOk(db, i) && HistoryOk(db, i)
  }

  ghost predicate Inv(db: Db) {
    && ForeignKeys(db) && KeysUnique(db) && LimitsOk(db)
    && PeriodsOk(db) && EntriesOk(db) && RefundsOk(db) && ReservationsOk(db)
  }

  // ---- aggregates under insertion and update ----------------------------

  lemma TotalAppend(m: Measure, entries: seq<Entry>, e: Entry, p: nat)
    ensures Total(m, entries + [e], p) == Total(m, entries, p) + Weight(m, e, p)
  {
    assert (entries + [e])[..|entries|] == entries;
  }

  lemma {:induction false} TotalUnused(m: Measure, entries: seq<Entry>, p: nat)
    requires !m.Refunds? && forall i :: 0 <= i < |entries| ==> entries[i].period != p
    ensures Total(m, entries, p) == 0
  {
    if entries != [] {
      TotalUnused(m, entries[..|entries| - 1], p);
    }
  }

  lemma {:induction false} RefundsUnused(entries: seq<Entry>, c: nat)
    requires forall i :: 0 <= i < |entries| ==> entries[i].reference != Some(c)
    ensures Total(Refunds(c), entries, 0) == 0
  {
    if entries != [] {
      RefundsUnused(entries[..|entries| - 1], c);
    }
  }

  function Hold(r: Reservation, p: nat): int {
    if r.period == p && Live(r.state) then r.held else 0
  }

  lemma HeldAppend(rs: seq<Reservation>, r: Reservation, p: nat)
    ensures Held(rs + [r], p) == Held(rs, p) + Hold(r, p)
  {
    assert (rs + [r])[..|rs|] == rs;
  }

  lemma {:induction false} HeldUpdate(rs: seq<Reservation>, i: nat, r: Reservation, p: nat)
    requires i < |rs|
    ensures Held(rs[i := r], p) == Held(rs, p) - Hold(rs[i], p) + Hold(r, p)
  {
    var n := |rs| - 1;
    if i == n {
      assert rs[i := r][..n] == rs[..n];
    } else {
      assert rs[i := r][..n] == rs[..n][i := r];
      HeldUpdate(rs[..n], i, r, p);
    }
  }

  lemma {:induction false} HeldUnused(rs: seq<Reservation>, p: nat)
    requires forall i :: 0 <= i < |rs| ==> rs[i].period != p
    ensures Held(rs, p) == 0
  {
    if rs != [] {
      HeldUnused(rs[..|rs| - 1], p);
    }
  }

  lemma {:induction false} HeldCovers(rs: seq<Reservation>, i: nat, p: nat)
    requires i <= |rs| && forall j :: 0 <= j < |rs| ==> rs[j].held > 0
    ensures 0 <= Held(rs, p)
    ensures i < |rs| ==> Hold(rs[i], p) <= Held(rs, p)
  {
    if rs != [] {
      var n := |rs| - 1;
      HeldCovers(rs[..n], if i < n then i else n, p);
    }
  }

  lemma {:induction false} TermsOfAppend(prices: seq<PriceRow>, rows: seq<PriceRow>, r: nat)
    ensures TermsOf(prices + rows, r) == TermsOf(prices, r) + TermsOf(rows, r)
  {
    if rows == [] {
      assert prices + rows == prices;
    } else {
      var n := |rows| - 1;
      assert (prices + rows)[..|prices| + n] == prices + rows[..n];
      TermsOfAppend(prices, rows[..n], r);
    }
  }

  lemma {:induction false} TermsOfOther(prices: seq<PriceRow>, r: nat)
    requires forall i :: 0 <= i < |prices| ==> prices[i].reservation != r
    ensures TermsOf(prices, r) == []
  {
    if prices != [] {
      TermsOfOther(prices[..|prices| - 1], r);
    }
  }

  lemma {:induction false} TermsOfOwn(prices: seq<PriceRow>, terms: seq<PriceTerm>, r: nat)
    requires |prices| == |terms|
    requires forall i :: 0 <= i < |prices| ==> prices[i] == PriceRow(r, terms[i])
    ensures TermsOf(prices, r) == terms
  {
    if prices != [] {
      var n := |prices| - 1;
      TermsOfOwn(prices[..n], terms[..n], r);
      assert terms == terms[..n] + [terms[n]];
    }
  }

  lemma EventAppend(events: seq<Event>, v: Event, r: nat)
    ensures LastState(events + [v], r) ==
      if v.reservation == r then Some(v.resulting) else LastState(events, r)
    ensures DispatchEvents(events + [v], r) ==
      DispatchEvents(events, r) + if v.reservation == r && v.kind.DispatchReserved? then 1 else 0
  {
    assert (events + [v])[..|events|] == events;
  }

  lemma {:induction false} DispatchEventsOther(events: seq<Event>, r: nat)
    requires forall i :: 0 <= i < |events| ==> events[i].reservation != r
    ensures DispatchEvents(events, r) == 0
  {
    if events != [] {
      DispatchEventsOther(events[..|events| - 1], r);
    }
  }

  lemma FiveUnitsClash(a: PriceUnit, b: PriceUnit, c: PriceUnit, d: PriceUnit, e: PriceUnit)
    ensures a == b || a == c || a == d || a == e || b == c || b == d || b == e || c == d || c == e || d == e
  {
  }

  /** Four units, so at most four terms of distinct unit. */
  lemma DistinctUnits(terms: seq<PriceTerm>)
    requires forall i, j :: 0 <= i < j < |terms| ==> terms[i].unit != terms[j].unit
    ensures |terms| <= 4
  {
    if |terms| > 4 {
      FiveUnitsClash(terms[0].unit, terms[1].unit, terms[2].unit, terms[3].unit, terms[4].unit);
    }
  }
}
