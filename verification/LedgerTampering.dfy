/** A cell changed behind the ledger's back keeps it from opening. */
module LedgerTampering {
  import opened Wrappers
  import opened Calendar
  import opened LedgerErrors
  import opened Pricing
  import opened LedgerRows
  import opened LedgerInvariant
  import opened LedgerIntegrity

  // ---- sums under one changed row ---------------------------------------

  lemma {:induction false} TotalUpdate(m: Measure, entries: seq<Entry>, i: nat, e: Entry, p: nat)
    requires i < |entries|
    ensures Total(m, entries[i := e], p) == Total(m, entries, p) - Weight(m, entries[i], p) + Weight(m, e, p)
  {
    var n := |entries| - 1;
    if i == n {
      assert entries[i := e][..n] == entries[..n];
    } else {
      assert entries[i := e][..n] == entries[..n][i := e];
      TotalUpdate(m, entries[..n], i, e, p);
    }
  }

  function Copies(terms: seq<PriceTerm>, t: PriceTerm): nat {
    multiset(terms)[t]
  }

  lemma CopiesAppend(a: seq<PriceTerm>, b: seq<PriceTerm>, t: PriceTerm)
    ensures Copies(a + b, t) == Copies(a, t) + Copies(b, t)
  {
  }

  /** Replacing one term of a reservation leaves one copy of it fewer. */
  lemma {:induction false} OneCopyFewer(prices: seq<PriceRow>, j: nat, row: PriceRow, t: PriceTerm)
    requires j < |prices| && prices[j].reservation == row.reservation && prices[j].term == t != row.term
    ensures Copies(TermsOf(prices[j := row], row.reservation), t) == Copies(TermsOf(prices, row.reservation), t) - 1
  {
    var n, r := |prices| - 1, row.reservation;
    var after := prices[j := row];
    var last := if prices[n].reservation == r then [prices[n].term] else [];
    var now := if after[n].reservation == r then [after[n].term] else [];
    CopiesAppend(TermsOf(prices[..n], r), last, t);
    CopiesAppend(TermsOf(after[..n], r), now, t);
    if j == n {
      assert after[..n] == prices[..n];
    } else {
      assert after[..n] == prices[..n][j := row];
      OneCopyFewer(prices[..n], j, row, t);
    }
  }

  lemma {:induction false} ReserveRowExists(entries: seq<Entry>, p: nat)
    requires Total(ReserveRows, entries, p) > 0
    ensures exists i :: 0 <= i < |entries| && entries[i].period == p && entries[i].kind.EmergencyReserve?
  {
    var n := |entries| - 1;
    if !(entries[n].period == p && entries[n].kind.EmergencyReserve?) {
      ReserveRowExists(entries[..n], p);
      var i :| 0 <= i < n && entries[..n][i].period == p && entries[..n][i].kind.EmergencyReserve?;
      assert entries[i].period == p;
    }
  }

  // ---- changed cells ----------------------------------------------------

  /** A month moved to another month no longer holds its own reserve row. */
  lemma MovedPeriodIsRefused(db: Db, p: nat, x: Period)
    requires Inv(db) && p < |db.periods| && x.start != db.periods[p].start
    ensures var after := db.(periods := db.periods[p := x]); ForeignKeys(after) && !Validate(after)
  {
    var after, y := db.(periods := db.periods[p := x]), db.periods[p];
    assert PeriodOk(db, p);
    ReserveRowExists(db.entries, p);
    var i :| 0 <= i < |db.entries| && db.entries[i].period == p && db.entries[i].kind.EmergencyReserve?;
    assert EntryOk(db, i);
    if Validate(after) {
      assert after.periods[after.entries[i].period] == x;
      MonthWindow(FirstInstant(y.start), x.start);
    }
  }

  /** A balance, a hold, a count, a reserve or a bound of one month that is not what it was. */
  lemma ChangedPeriodIsRefused(db: Db, p: nat, x: Period)
    requires Inv(db) && p < |db.periods|
    requires var y := db.periods[p];
      (x.start, x.end, x.reserve, x.net, x.active, x.entryCount) != (y.start, y.end, y.reserve, y.net, y.active, y.entryCount)
    ensures var after := db.(periods := db.periods[p := x]); ForeignKeys(after) && !Validate(after)
  {
    var after, y := db.(periods := db.periods[p := x]), db.periods[p];
    assert PeriodOk(db, p) && after.periods[p] == x;
    if x.start != y.start {
      MovedPeriodIsRefused(db, p, x);
    }
  }

  /** An amount that is not what it was. */
  lemma ChangedAmountIsRefused(db: Db, i: nat, amount: int)
    requires Inv(db) && i < |db.entries| && amount != db.entries[i].amount
    ensures var after := db.(entries := db.entries[i := db.entries[i].(amount := amount)]);
      ForeignKeys(after) && !Validate(after)
  {
    var e := db.entries[i].(amount := amount);
    var after, p := db.(entries := db.entries[i := e]), e.period;
    assert EntryOk(db, i) && PeriodOk(db, p);
    TotalUpdate(Net, db.entries, i, e, p);
    TotalUpdate(ReserveAmount, db.entries, i, e, p);
    assert after.periods[p] == db.periods[p];
  }

  /** A live hold that is not what it was. */
  lemma ChangedHoldIsRefused(db: Db, i: nat, held: int)
    requires Inv(db) && i < |db.reservations| && Live(db.reservations[i].state) && held != db.reservations[i].held
    ensures var after := db.(reservations := db.reservations[i := db.reservations[i].(held := held)]);
      ForeignKeys(after) && !Validate(after)
  {
    var r := db.reservations[i].(held := held);
    var after := db.(reservations := db.reservations[i := r]);
    assert PeriodOk(db, r.period);
    HeldUpdate(db.reservations, i, r, r.period);
    assert after.periods[r.period] == db.periods[r.period];
  }

  /** A state that the history does not end in. */
  lemma ChangedStateIsRefused(db: Db, i: nat, state: ReservationState)
    requires Inv(db) && i < |db.reservations| && state != db.reservations[i].state
    ensures var after := db.(reservations := db.reservations[i := db.reservations[i].(state := state)]);
      ForeignKeys(after) && !Validate(after)
  {
    var after := db.(reservations := db.reservations[i := db.reservations[i].(state := state)]);
    assert HistoryOk(db, i) && after.reservations[i].state == state;
  }

  /** A price that is not what it was. */
  lemma ChangedPriceIsRefused(db: Db, j: nat, term: PriceTerm)
    requires Inv(db) && j < |db.prices| && Priced(term) && term != db.prices[j].term
    ensures var after := db.(prices := db.prices[j := PriceRow(db.prices[j].reservation, term)]);
      ForeignKeys(after) && !Validate(after)
  {
    var i := db.prices[j].reservation;
    var after := db.(prices := db.prices[j := PriceRow(i, term)]);
    assert AdmissionOk(db, i);
    OneCopyFewer(db.prices, j, PriceRow(i, term), db.prices[j].term);
    OtherListing(TermsOf(db.prices, i), TermsOf(after.prices, i), db.prices[j].term);
    if Validate(after) {
      MismatchedPrices(after, i);
    }
  }

  lemma OtherListing(a: seq<PriceTerm>, b: seq<PriceTerm>, t: PriceTerm)
    requires Copies(a, t) != Copies(b, t)
    ensures SortByUnit(a) != SortByUnit(b)
  {
    SortByUnitPermutes(a);
    SortByUnitPermutes(b);
  }

  lemma MismatchedPrices(db: Db, i: nat)
    requires ForeignKeys(db) && i < |db.reservations| && Validate(db)
    ensures StoredTerms(db, i) == db.reservations[i].pricingDigest
  {
    var terms := TermsOf(db.prices, i);
    assert |terms| >= 1;
    SortByUnitPermutes(terms);
    assert terms[0] in multiset(SortByUnit(terms));
  }
}
