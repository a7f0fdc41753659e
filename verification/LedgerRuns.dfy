/** Whole runs of the ledger: conservation, the budget bound, finality and exact replay. */
module LedgerRuns {
  import opened Wrappers
  import opened Calendar
  import opened LedgerErrors
  import opened Pricing
  import opened LedgerRows
  import opened LedgerCommands
  import opened LedgerInvariant
  import opened LedgerPreservation

  /** The ledger after a list of commands, accepted and rejected ones alike. */
  ghost function Run(db: Db, commands: seq<Command>): (after: Db)
    requires Inv(db)
    ensures Inv(after)
    decreases |commands|
  {
    if commands == [] then db
    else
      ApplyPreserves(db, commands[0]);
      Run(Apply(db, commands[0]).0, commands[1..])
  }

  // ---- what holds after any run -----------------------------------------

  /** Cached totals agree with the rows they summarise, in every period of every run. */
  lemma Conservation(commands: seq<Command>)
    ensures var db := Run(EMPTY, commands);
      forall p :: 0 <= p < |db.periods| ==>
        && db.periods[p].net == Total(Net, db.entries, p)
        && db.periods[p].entryCount == Total(Rows, db.entries, p)
        && db.periods[p].active == Held(db.reservations, p)
  {
    EmptyInv();
    var db := Run(EMPTY, commands);
    forall p | 0 <= p < |db.periods|
      ensures db.periods[p].net == Total(Net, db.entries, p)
      ensures db.periods[p].entryCount == Total(Rows, db.entries, p)
      ensures db.periods[p].active == Held(db.reservations, p)
    {
      assert PeriodOk(db, p);
    }
  }

  /** Spent plus held money never passes the cap less the emergency reserve. */
  lemma NoOverspend(commands: seq<Command>)
    ensures var db := Run(EMPTY, commands);
      forall p :: 0 <= p < |db.periods| ==>
        && Max(Total(Net, db.entries, p), 0) + Held(db.reservations, p)
             <= db.periods[p].cap - db.periods[p].reserve
        && MIN64 <= Total(Net, db.entries, p) <= MAX64
  {
    EmptyInv();
    var db := Run(EMPTY, commands);
    forall p | 0 <= p < |db.periods|
      ensures Max(Total(Net, db.entries, p), 0) + Held(db.reservations, p)
                <= db.periods[p].cap - db.periods[p].reserve
      ensures MIN64 <= Total(Net, db.entries, p) <= MAX64
    {
      assert PeriodOk(db, p);
    }
  }

  /** Refunds of a charge, over all periods, stay within it and match its source. */
  lemma RefundsNeverExceedTheirCharge(commands: seq<Command>)
    ensures var db := Run(EMPTY, commands);
      forall i :: 0 <= i < |db.entries| ==>
        && Total(Refunds(i), db.entries, 0) <= db.entries[i].amount
        && (db.entries[i].kind.RefundKind? ==>
              && db.entries[i].reference.Some? && db.entries[i].reference.value < i
              && RefundMatches(db.entries[i], db.entries[db.entries[i].reference.value]))
  {
    EmptyInv();
    var db := Run(EMPTY, commands);
    forall i | 0 <= i < |db.entries|
      ensures Total(Refunds(i), db.entries, 0) <= db.entries[i].amount
      ensures db.entries[i].kind.RefundKind? ==>
        && db.entries[i].reference.Some? && db.entries[i].reference.value < i
        && RefundMatches(db.entries[i], db.entries[db.entries[i].reference.value])
    {
      assert EntryOk(db, i) && RefundBound(db, i);
    }
  }

  /**
   * Every entry lies in the half-open UTC month of its period, whenever the
   * command that posted it arrived; December's window ends in the next year.
   */
  lemma EntriesLieInTheirMonth(commands: seq<Command>)
    ensures var db := Run(EMPTY, commands);
      forall i :: 0 <= i < |db.entries| ==>
        && db.entries[i].period < |db.periods|
        && var p := db.periods[db.entries[i].period];
           var at := InstantStamp(db.entries[i].occurredAt);
           !Before(at, FirstInstant(p.start)) && Before(at, FirstInstant(p.end))
  {
    EmptyInv();
    var db := Run(EMPTY, commands);
    forall i | 0 <= i < |db.entries|
      ensures db.entries[i].period < |db.periods|
      ensures var p := db.periods[db.entries[i].period];
        var at := InstantStamp(db.entries[i].occurredAt);
        !Before(at, FirstInstant(p.start)) && Before(at, FirstInstant(p.end))
    {
      var e := db.entries[i];
      assert EntryOk(db, i) && PeriodOk(db, e.period);
      if e.occurredAt.At? {
        MonthWindow(e.occurredAt.stamp, db.periods[e.period].start);
      }
    }
  }

  /** A resolved amount is within the hold and, when positive, is one entry of that amount and period. */
  ghost predicate Billed(r: Reservation, entries: seq<Entry>) {
    && (r.actual.Some? <==> !Live(r.state))
    && (r.actual.Some? ==>
          && 0 <= r.actual.value <= r.held
          && (r.actual.value == 0 ==> r.entry.None? && r.state.Reconciled?)
          && (r.actual.value > 0 ==>
                Linked(r, entries, if r.state.Settled? then ProviderCharge else ManualAdjustment)))
    && (r.state.Settled? <==> r.session.Some?)
  }

  /**
   * Reservations and entries correspond: amounts and periods agree, no entry is
   * linked twice, no provider session is billed twice, and the event history
   * ends in the reservation's state.
   */
  lemma ReservationLinks(commands: seq<Command>)
    ensures var db := Run(EMPTY, commands); var rs := db.reservations;
      && (forall i :: 0 <= i < |rs| ==> Billed(rs[i], db.entries))
      && (forall i :: 0 <= i < |rs| ==> LastState(db.events, i) == Some(rs[i].state))
      && (forall i, j :: 0 <= i < j < |rs| && rs[i].entry.Some? ==> rs[i].entry != rs[j].entry)
      && (forall i, j :: 0 <= i < j < |rs| && rs[i].session.Some? ==> rs[i].session != rs[j].session)
  {
    EmptyInv();
    var db := Run(EMPTY, commands);
    forall i | 0 <= i < |db.reservations|
      ensures Billed(db.reservations[i], db.entries)
      ensures LastState(db.events, i) == Some(db.reservations[i].state)
    {
      assert ResolutionOk(db, i) && HistoryOk(db, i);
    }
    assert ReservationKeysUnique(db.reservations);
  }

  // ---- what a step never takes back -------------------------------------

  /** `b` continues `a`: rows are kept, authority columns are kept, resolved rows are frozen. */
  ghost predicate Extends(a: Db, b: Db) {
    && |a.periods| <= |b.periods| && |a.reservations| <= |b.reservations|
    && a.entries <= b.entries && a.events <= b.events
    && (forall p :: 0 <= p < |a.periods| ==> SameAuthority(a.periods[p], b.periods[p]))
    && (forall i :: 0 <= i < |a.reservations| ==> Continues(a.reservations[i], b.reservations[i]))
    && (forall i :: 0 <= i < |a.reservations| ==> TermsOf(b.prices, i) == TermsOf(a.prices, i))
  }

  predicate Continues(a: Reservation, b: Reservation) {
    && SameAdmission(a, b)
    && (!Live(a.state) ==> b == a)
    && (a.state.Uncertain? ==> !b.state.Dispatching?)
  }

  lemma ExtendsTransitive(a: Db, b: Db, c: Db)
    requires Extends(a, b) && Extends(b, c)
    ensures Extends(a, c)
  {
    forall i | 0 <= i < |a.reservations| ensures Continues(a.reservations[i], c.reservations[i]) {
      assert Continues(a.reservations[i], b.reservations[i]) && Continues(b.reservations[i], c.reservations[i]);
    }
    forall p | 0 <= p < |a.periods| ensures SameAuthority(a.periods[p], c.periods[p]) {
      assert SameAuthority(a.periods[p], b.periods[p]) && SameAuthority(b.periods[p], c.periods[p]);
    }
  }

  lemma AdmitExtends(db: Db, q: ReservationRequest, at: nat, held: int)
    requires Inv(db) && at < |db.periods|
    ensures Extends(db, Admit(db, q, at, held))
  {
    var rows := PriceRows(q.terms, |db.reservations|);
    forall i | 0 <= i < |db.reservations| ensures TermsOf(db.prices + rows, i) == TermsOf(db.prices, i) {
      TermsOfAppend(db.prices, rows, i);
      TermsOfOther(rows, i);
    }
  }

  lemma RejectionExtends(db: Db, i: nat, key: string, b: ReceiptBody, reason: UncertaintyReason)
    requires Inv(db) && i < |db.reservations| && Live(db.reservations[i].state)
    ensures Extends(db, RecordRejection(db, i, key, b, reason).0)
  {
  }

  lemma PostSettlementExtends(db: Db, i: nat, key: string, b: ReceiptBody, cost: int)
    requires Inv(db) && i < |db.reservations| && Live(db.reservations[i].state)
    ensures Extends(db, PostSettlement(db, i, key, b, cost))
  {
  }

  lemma SettleExtends(db: Db, key: string, b: ReceiptBody)
    requires Inv(db)
    ensures Extends(db, SettleReservation(db, key, b).0)
  {
    var step := SettleReservation(db, key, b);
    if step.0 != db && Live(db.reservations[FindByPublicId(db.reservations, b.reservationId).value].state) {
      var i := FindByPublicId(db.reservations, b.reservationId).value;
      var rejection, cost := RejectionReason(db, i, b), UsageCost(db, i, b);
      if rejection.Some? {
        RejectionExtends(db, i, key, b, rejection.value);
      } else if cost.value == 0 {
        RejectionExtends(db, i, key, b, ZeroUsageReceipt);
      } else if cost.value > db.reservations[i].held || !Within(b.usage, db.reservations[i].envelope) {
        RejectionExtends(db, i, key, b, ActualExceedsReservation);
      } else {
        PostSettlementExtends(db, i, key, b, cost.value);
      }
    }
  }

  lemma MarkUncertainExtends(db: Db, u: UncertaintyInput)
    requires Inv(db)
    ensures Extends(db, MarkReservationUncertain(db, u).0)
  {
  }

  lemma ReconcileExtends(db: Db, c: Reconciliation)
    requires Inv(db)
    ensures Extends(db, ReconcileReservation(db, c).0)
  {
    var after := ReconcileReservation(db, c).0;
    if after != db {
      var i := FindByPublicId(db.reservations, c.reservationId).value;
      assert after == PostReconciliation(db, i, c);
      assert Continues(db.reservations[i], after.reservations[i]);
    }
  }

  lemma ReserveExtends(db: Db, q: ReservationRequest)
    requires Inv(db)
    ensures Extends(db, ReserveForDispatch(db, q).0)
  {
    if ReserveForDispatch(db, q).0 != db {
      AdmitExtends(db, q, FindPeriod(db.periods, MonthOf(q.occurredAt)).value, WorstCase(q).value);
    }
  }

  lemma InitializeExtends(db: Db, c: PeriodConfig)
    requires Inv(db)
    ensures Extends(db, Initialize(db, c).0)
  {
  }

  lemma RecordExtends(db: Db, e: EntryInput)
    requires Inv(db)
    ensures Extends(db, Record(db, e).0)
  {
  }

  lemma ApplyExtends(db: Db, c: Command)
    requires Inv(db)
    ensures Extends(db, Apply(db, c).0)
  {
    match c
    case InitializePeriod(config) => InitializeExtends(db, config);
    case RecordEntry(input) => RecordExtends(db, input);
    case Reserve(request) => ReserveExtends(db, request);
    case Settle(key, body) => SettleExtends(db, key, body);
    case MarkUncertain(u) => MarkUncertainExtends(db, u);
    case Reconcile(r) => ReconcileExtends(db, r);
  }

  lemma {:induction false} RunExtends(db: Db, commands: seq<Command>)
    requires Inv(db)
    ensures Extends(db, Run(db, commands))
    decreases |commands|
  {
    if commands != [] {
      var next := Apply(db, commands[0]).0;
      ApplyPreserves(db, commands[0]);
      ApplyExtends(db, commands[0]);
      RunExtends(next, commands[1..]);
      ExtendsTransitive(db, next, Run(next, commands[1..]));
    }
  }

  /** Settled and reconciled reservations never change again; nothing recorded is lost. */
  lemma ResolvedIsFinal(db: Db, commands: seq<Command>, i: nat)
    requires Inv(db) && i < |db.reservations| && !Live(db.reservations[i].state)
    ensures var after := Run(db, commands);
      i < |after.reservations| && after.reservations[i] == db.reservations[i]
  {
    RunExtends(db, commands);
    assert Continues(db.reservations[i], Run(db, commands).reservations[i]);
  }
}
