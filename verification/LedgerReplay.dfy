/** Exact replay: what happens when a command's key is seen again at any later time. */
module LedgerReplay {
  import opened Wrappers
  import opened Calendar
  import opened LedgerErrors
  import opened Pricing
  import opened LedgerRows
  import opened LedgerCommands
  import opened LedgerInvariant
  import opened LedgerPreservation
  import opened LedgerRuns

  /** The command's key is stored, under exactly the command's payload. */
  ghost predicate Recorded(db: Db, c: Command)
    requires ForeignKeys(db)
  {
    match c
    case InitializePeriod(g) =>
      ConfigError(g).None?
      && exists i :: 0 <= i < |db.entries| && db.entries[i].digest == g.key
           && db.entries[i].reference.None?
           && MatchesReserve(db.entries[i], db.periods[db.entries[i].period], g)
    case RecordEntry(e) =>
      EntryError(e).None?
      && exists i :: 0 <= i < |db.entries| && db.entries[i].digest == e.key && MatchesEntry(db, i, e)
    case Reserve(q) =>
      WorstCase(q).Ok?
      && exists i :: 0 <= i < |db.reservations| && db.reservations[i].digest == q.key
           && MatchesReservation(db, i, q, WorstCase(q).value)
    case Settle(key, b) =>
      EvidenceIdentifier(key) && EvidenceIdentifier(b.reservationId)
      && exists j :: 0 <= j < |db.events| && db.events[j].digest == key
           && db.events[j].receipt == Some(b)
           && db.reservations[db.events[j].reservation].publicId == b.reservationId
    case MarkUncertain(u) =>
      UncertaintyError(u).None?
      && exists j :: 0 <= j < |db.events| && db.events[j].digest == u.key
           && db.events[j] == UncertainEvent(db.events[j].reservation, u)
           && db.reservations[db.events[j].reservation].publicId == u.reservationId
    case Reconcile(r) =>
      ReconciliationError(r).None?
      && exists j :: 0 <= j < |db.events| && db.events[j].digest == r.key
           && ReconciliationReplays(db, db.events[j], db.events[j].reservation, r)
           && db.reservations[db.events[j].reservation].publicId == r.reservationId
  }

  lemma EntryAt(db: Db, i: nat)
    requires Inv(db) && i < |db.entries|
    ensures FindEntry(db.entries, db.entries[i].digest) == Some(i)
  {
  }

  lemma EventAt(db: Db, j: nat)
    requires Inv(db) && j < |db.events|
    ensures FindEvent(db.events, db.events[j].digest) == Some(j)
  {
  }

  lemma ReservationAt(db: Db, i: nat)
    requires Inv(db) && i < |db.reservations|
    ensures FindByDigest(db.reservations, db.reservations[i].digest) == Some(i)
    ensures FindByPublicId(db.reservations, db.reservations[i].publicId) == Some(i)
  {
    var rs, d := db.reservations, db.reservations[i].digest;
    var found := FindByPublicId(rs, rs[i].publicId);
    assert found.Some?;
    var j := found.value;
    assert PublicId(rs[j].digest) == PublicId(d);
    assert rs[j].digest == PublicId(rs[j].digest)[4..] && d == PublicId(d)[4..];
    assert FindByDigest(rs, d).Some?;
  }

  /** Answered from what is stored: nothing created, nothing changed. */
  predicate Replays(db: Db, step: Step) {
    step.0 == db && !step.1.Rejected? && !step.1.created
  }

  lemma EntryCommandReplays(db: Db, c: Command)
    requires Inv(db) && Recorded(db, c) && (c.InitializePeriod? || c.RecordEntry?)
    ensures c.InitializePeriod? ==> Replays(db, Initialize(db, c.config))
    ensures c.RecordEntry? ==> Replays(db, Record(db, c.input))
  {
    if c.InitializePeriod? {
      var g := c.config;
      var i :| 0 <= i < |db.entries| && db.entries[i].digest == g.key
         && db.entries[i].reference.None?
         && MatchesReserve(db.entries[i], db.periods[db.entries[i].period], g);
      EntryAt(db, i);
    } else {
      var e := c.input;
      var i :| 0 <= i < |db.entries| && db.entries[i].digest == e.key && MatchesEntry(db, i, e);
      EntryAt(db, i);
    }
  }

  lemma ReserveReplays(db: Db, q: ReservationRequest)
    requires Inv(db) && Recorded(db, Reserve(q))
    ensures Replays(db, ReserveForDispatch(db, q))
  {
    var i :| 0 <= i < |db.reservations| && db.reservations[i].digest == q.key
       && MatchesReservation(db, i, q, WorstCase(q).value);
    ReservationAt(db, i);
  }

  lemma SettleReplays(db: Db, key: string, b: ReceiptBody)
    requires Inv(db) && Recorded(db, Settle(key, b))
    ensures Replays(db, SettleReservation(db, key, b))
  {
    var j :| 0 <= j < |db.events| && db.events[j].digest == key
       && db.events[j].receipt == Some(b)
       && db.reservations[db.events[j].reservation].publicId == b.reservationId;
    EventAt(db, j);
    ReservationAt(db, db.events[j].reservation);
  }

  lemma MarkUncertainReplays(db: Db, u: UncertaintyInput)
    requires Inv(db) && Recorded(db, MarkUncertain(u))
    ensures Replays(db, MarkReservationUncertain(db, u))
  {
    var j :| 0 <= j < |db.events| && db.events[j].digest == u.key
       && db.events[j] == UncertainEvent(db.events[j].reservation, u)
       && db.reservations[db.events[j].reservation].publicId == u.reservationId;
    EventAt(db, j);
    ReservationAt(db, db.events[j].reservation);
  }

  lemma ReconcileReplays(db: Db, r: Reconciliation)
    requires Inv(db) && Recorded(db, Reconcile(r))
    ensures Replays(db, ReconcileReservation(db, r))
  {
    var j :| 0 <= j < |db.events| && db.events[j].digest == r.key
       && ReconciliationReplays(db, db.events[j], db.events[j].reservation, r)
       && db.reservations[db.events[j].reservation].publicId == r.reservationId;
    EventAt(db, j);
    ReservationAt(db, db.events[j].reservation);
  }

  /** A recorded command is answered without creating or changing anything. */
  lemma RecordedReplays(db: Db, c: Command)
    requires Inv(db) && Recorded(db, c)
    ensures Replays(db, Apply(db, c))
  {
    match c {
      case InitializePeriod(_) => EntryCommandReplays(db, c);
      case RecordEntry(_) => EntryCommandReplays(db, c);
      case Reserve(q) => ReserveReplays(db, q);
      case Settle(key, b) => SettleReplays(db, key, b);
      case MarkUncertain(u) => MarkUncertainReplays(db, u);
      case Reconcile(r) => ReconcileReplays(db, r);
    }
  }

  // ---- a created command is recorded, and stays so ----------------------

  lemma ReserveRecords(db: Db, q: ReservationRequest)
    requires Inv(db) && ReserveForDispatch(db, q).1.ReservationReply? && ReserveForDispatch(db, q).1.created
    ensures ForeignKeys(ReserveForDispatch(db, q).0) && Recorded(ReserveForDispatch(db, q).0, Reserve(q))
  {
    var at, held := FindPeriod(db.periods, MonthOf(q.occurredAt)).value, WorstCase(q).value;
    ReservePreserves(db, q);
    AdmittedMatches(db, q, at, held);
  }

  lemma AdmittedMatches(db: Db, q: ReservationRequest, at: nat, held: int)
    requires Inv(db) && at < |db.periods| && db.periods[at].start == MonthOf(q.occurredAt)
    requires ForeignKeys(Admit(db, q, at, held))
    ensures MatchesReservation(Admit(db, q, at, held), |db.reservations|, q, held)
    ensures Admit(db, q, at, held).reservations[|db.reservations|].digest == q.key
  {
    AdmittedTerms(db, q);
  }

  /** A receipt that was not a replay appended one event that carries it. */
  lemma SettleAppends(db: Db, key: string, b: ReceiptBody)
    requires Inv(db) && SettleReservation(db, key, b).1.SettlementReply? && SettleReservation(db, key, b).1.created
    ensures FindByPublicId(db.reservations, b.reservationId).Some?
    ensures EvidenceIdentifier(key) && EvidenceIdentifier(b.reservationId)
    ensures var v := SettleReservation(db, key, b).0.events;
      && |v| == |db.events| + 1 && v[|db.events|].digest == key && v[|db.events|].receipt == Some(b)
      && v[|db.events|].reservation == FindByPublicId(db.reservations, b.reservationId).value
  {
    SettleLiveAppends(db, FindByPublicId(db.reservations, b.reservationId).value, key, b);
  }

  lemma SettleLiveAppends(db: Db, i: nat, key: string, b: ReceiptBody)
    requires Inv(db) && i < |db.reservations|
    ensures var step := SettleLive(db, i, key, b);
      step.1.SettlementReply? ==>
        && |step.0.events| == |db.events| + 1 && step.0.events[|db.events|].digest == key
        && step.0.events[|db.events|].receipt == Some(b) && step.0.events[|db.events|].reservation == i
  {
  }

  lemma SettleRecords(db: Db, key: string, b: ReceiptBody)
    requires Inv(db) && SettleReservation(db, key, b).1.SettlementReply? && SettleReservation(db, key, b).1.created
    ensures var after := SettleReservation(db, key, b).0;
      ForeignKeys(after) && Recorded(after, Settle(key, b))
  {
    SettleAppends(db, key, b);
    SettlePreserves(db, key, b);
    SettleExtends(db, key, b);
    SettledIsRecorded(db, SettleReservation(db, key, b).0, key, b,
                      FindByPublicId(db.reservations, b.reservationId).value);
  }

  lemma SettledIsRecorded(db: Db, after: Db, key: string, b: ReceiptBody, i: nat)
    requires Inv(db) && Inv(after) && Extends(db, after)
    requires i < |db.reservations| && db.reservations[i].publicId == b.reservationId
    requires EvidenceIdentifier(key) && EvidenceIdentifier(b.reservationId)
    requires |after.events| == |db.events| + 1
    requires var v := after.events[|db.events|];
      v.digest == key && v.receipt == Some(b) && v.reservation == i
    ensures Recorded(after, Settle(key, b))
  {
    assert Continues(db.reservations[i], after.reservations[i]);
    assert after.events[|db.events|].digest == key;
  }

  lemma MarkUncertainRecords(db: Db, u: UncertaintyInput)
    requires Inv(db) && MarkReservationUncertain(db, u).1.SettlementReply?
    requires MarkReservationUncertain(db, u).1.created
    ensures var after := MarkReservationUncertain(db, u).0;
      ForeignKeys(after) && Recorded(after, MarkUncertain(u))
  {
    var after := MarkReservationUncertain(db, u).0;
    MarkUncertainPreserves(db, u);
    var j := |db.events|;
    assert after.events[j] == UncertainEvent(after.events[j].reservation, u);
  }

  lemma ReconcileRecords(db: Db, c: Reconciliation)
    requires Inv(db) && ReconcileReservation(db, c).1.SettlementReply? && ReconcileReservation(db, c).1.created
    ensures var after := ReconcileReservation(db, c).0;
      ForeignKeys(after) && Recorded(after, Reconcile(c))
  {
    var after := ReconcileReservation(db, c).0;
    ReconcilePreserves(db, c);
    var i, j := FindByPublicId(db.reservations, c.reservationId).value, |db.events|;
    assert after == PostReconciliation(db, i, c);
    assert after.events[j] == ReconcileEvent(i, c);
    assert ReconciliationReplays(after, after.events[j], i, c);
  }

  lemma InitializeRecords(db: Db, g: PeriodConfig)
    requires Inv(db) && Initialize(db, g).1.PeriodReply? && Initialize(db, g).1.created
    ensures var after := Initialize(db, g).0;
      ForeignKeys(after) && Recorded(after, InitializePeriod(g))
  {
    var after := Initialize(db, g).0;
    InitializePreserves(db, g);
    assert after.entries[|db.entries|] == ReserveEntry(g, |db.periods|);
  }

  lemma EntryRecords(db: Db, e: EntryInput)
    requires Inv(db) && Record(db, e).1.EntryReply? && Record(db, e).1.created
    ensures var after := Record(db, e).0;
      ForeignKeys(after) && Recorded(after, RecordEntry(e))
  {
    var after := Record(db, e).0;
    RecordPreserves(db, e);
    assert after.entries[|db.entries|].digest == e.key;
    assert MatchesEntry(after, |db.entries|, e);
  }

  lemma CreatedIsRecorded(db: Db, c: Command)
    requires Inv(db) && !Apply(db, c).1.Rejected? && Apply(db, c).1.created
    ensures ForeignKeys(Apply(db, c).0) && Recorded(Apply(db, c).0, c)
  {
    match c
    case InitializePeriod(g) => InitializeRecords(db, g);
    case RecordEntry(e) => EntryRecords(db, e);
    case Reserve(q) => ReserveRecords(db, q);
    case Settle(key, b) => SettleRecords(db, key, b);
    case MarkUncertain(u) => MarkUncertainRecords(db, u);
    case Reconcile(r) => ReconcileRecords(db, r);
  }

  lemma EntryPersists(a: Db, b: Db, i: nat)
    requires Inv(a) && Inv(b) && Extends(a, b) && i < |a.entries|
    ensures b.entries[i] == a.entries[i]
    ensures SameAuthority(a.periods[a.entries[i].period], b.periods[a.entries[i].period])
    ensures a.entries[i].reference.Some? ==>
      b.entries[a.entries[i].reference.value] == a.entries[a.entries[i].reference.value]
  {
  }

  lemma EventPersists(a: Db, b: Db, j: nat)
    requires Inv(a) && Inv(b) && Extends(a, b) && j < |a.events|
    ensures b.events[j] == a.events[j]
    ensures Continues(a.reservations[a.events[j].reservation], b.reservations[a.events[j].reservation])
  {
  }

  lemma ReconciliationPersists(a: Db, b: Db, j: nat, c: Reconciliation)
    requires Inv(a) && Inv(b) && Extends(a, b) && j < |a.events|
    requires ReconciliationReplays(a, a.events[j], a.events[j].reservation, c)
    ensures ReconciliationReplays(b, b.events[j], b.events[j].reservation, c)
  {
    var i := a.events[j].reservation;
    EventPersists(a, b, j);
    assert ResolutionOk(a, i);
    if a.reservations[i].entry.Some? {
      EntryPersists(a, b, a.reservations[i].entry.value);
    }
  }

  lemma PeriodRecordPersists(a: Db, b: Db, g: PeriodConfig)
    requires Inv(a) && Inv(b) && Extends(a, b) && Recorded(a, InitializePeriod(g))
    ensures Recorded(b, InitializePeriod(g))
  {
    var i :| 0 <= i < |a.entries| && a.entries[i].digest == g.key
       && a.entries[i].reference.None?
       && MatchesReserve(a.entries[i], a.periods[a.entries[i].period], g);
    EntryPersists(a, b, i);
  }

  lemma EntryRecordPersists(a: Db, b: Db, e: EntryInput)
    requires Inv(a) && Inv(b) && Extends(a, b) && Recorded(a, RecordEntry(e))
    ensures Recorded(b, RecordEntry(e))
  {
    var i :| 0 <= i < |a.entries| && a.entries[i].digest == e.key && MatchesEntry(a, i, e);
    EntryPersists(a, b, i);
    assert MatchesEntry(b, i, e);
  }

  lemma ReservationPersists(a: Db, b: Db, i: nat, q: ReservationRequest, held: int)
    requires Inv(a) && Inv(b) && Extends(a, b) && i < |a.reservations|
    requires MatchesReservation(a, i, q, held)
    ensures MatchesReservation(b, i, q, held) && b.reservations[i].digest == a.reservations[i].digest
  {
    assert Continues(a.reservations[i], b.reservations[i]);
    assert SameAuthority(a.periods[a.reservations[i].period], b.periods[a.reservations[i].period]);
  }

  lemma ReservationRecordPersists(a: Db, b: Db, q: ReservationRequest)
    requires Inv(a) && Inv(b) && Extends(a, b) && Recorded(a, Reserve(q))
    ensures Recorded(b, Reserve(q))
  {
    var i :| 0 <= i < |a.reservations| && a.reservations[i].digest == q.key
       && MatchesReservation(a, i, q, WorstCase(q).value);
    ReservationPersists(a, b, i, q, WorstCase(q).value);
  }

  lemma EventRecordPersists(a: Db, b: Db, c: Command)
    requires Inv(a) && Inv(b) && Extends(a, b) && Recorded(a, c)
    requires c.Settle? || c.MarkUncertain? || c.Reconcile?
    ensures Recorded(b, c)
  {
    match c {
      case Settle(key, body) =>
        var j :| 0 <= j < |a.events| && a.events[j].digest == key
           && a.events[j].receipt == Some(body)
           && a.reservations[a.events[j].reservation].publicId == body.reservationId;
        EventPersists(a, b, j);
        assert b.events[j].digest == key;
      case MarkUncertain(u) =>
        var j :| 0 <= j < |a.events| && a.events[j].digest == u.key
           && a.events[j] == UncertainEvent(a.events[j].reservation, u)
           && a.reservations[a.events[j].reservation].publicId == u.reservationId;
        EventPersists(a, b, j);
        assert b.events[j] == UncertainEvent(b.events[j].reservation, u);
      case Reconcile(r) =>
        var j :| 0 <= j < |a.events| && a.events[j].digest == r.key
           && ReconciliationReplays(a, a.events[j], a.events[j].reservation, r)
           && a.reservations[a.events[j].reservation].publicId == r.reservationId;
        EventPersists(a, b, j);
        ReconciliationPersists(a, b, j, r);
    }
  }

  lemma RecordedPersists(a: Db, b: Db, c: Command)
    requires Inv(a) && Inv(b) && Extends(a, b) && Recorded(a, c)
    ensures Recorded(b, c)
  {
    if c.InitializePeriod? {
      PeriodRecordPersists(a, b, c.config);
    } else if c.RecordEntry? {
      EntryRecordPersists(a, b, c.input);
    } else if c.Reserve? {
      ReservationRecordPersists(a, b, c.request);
    } else {
      EventRecordPersists(a, b, c);
    }
  }

  /**
   * A command that created something, issued again verbatim after any further
   * commands, succeeds without creating anything and changes nothing.
   */
  lemma ReplayAtAnyLaterTime(db: Db, c: Command, commands: seq<Command>)
    requires Inv(db) && !Apply(db, c).1.Rejected? && Apply(db, c).1.created
    ensures Inv(Apply(db, c).0)
    ensures var later := Run(Apply(db, c).0, commands);
      && Apply(later, c).0 == later
      && !Apply(later, c).1.Rejected? && !Apply(later, c).1.created
  {
    var after := Apply(db, c).0;
    ApplyPreserves(db, c);
    CreatedIsRecorded(db, c);
    RunExtends(after, commands);
    RecordedPersists(after, Run(after, commands), c);
    RecordedReplays(Run(after, commands), c);
  }

  // ---- a recorded key under another payload ------------------------------

  /** The idempotency key and the table in which it must be unique. */
  datatype KeySpace = EntryKeys | ReservationKeys | EventKeys

  function KeyOf(c: Command): (KeySpace, string) {
    match c
    case InitializePeriod(g) => (EntryKeys, g.key)
    case RecordEntry(e) => (EntryKeys, e.key)
    case Reserve(q) => (ReservationKeys, q.key)
    case Settle(key, _) => (EventKeys, key)
    case MarkUncertain(u) => (EventKeys, u.key)
    case Reconcile(r) => (EventKeys, r.key)
  }

  /** The payload the ledger compares: price terms count as a list sorted by unit. */
  function Payload(c: Command): Command {
    if c.Reserve? then Reserve(c.request.(terms := SortByUnit(c.request.terms))) else c
  }

  lemma EntryKeyConflict(db: Db, c: Command, d: Command)
    requires Inv(db) && Recorded(db, c) && KeyOf(c) == KeyOf(d) && KeyOf(c).0 == EntryKeys
    requires !Apply(db, d).1.Rejected?
    ensures d == c
  {
    if c.InitializePeriod? {
      var g := c.config;
      var i :| 0 <= i < |db.entries| && db.entries[i].digest == g.key
         && db.entries[i].reference.None?
         && MatchesReserve(db.entries[i], db.periods[db.entries[i].period], g);
      EntryAt(db, i);
    } else {
      var e := c.input;
      var i :| 0 <= i < |db.entries| && db.entries[i].digest == e.key && MatchesEntry(db, i, e);
      EntryAt(db, i);
    }
  }

  lemma ReservationKeyConflict(db: Db, q: ReservationRequest, d: ReservationRequest)
    requires Inv(db) && Recorded(db, Reserve(q)) && q.key == d.key
    requires !ReserveForDispatch(db, d).1.Rejected?
    ensures Payload(Reserve(d)) == Payload(Reserve(q))
  {
    var i :| 0 <= i < |db.reservations| && db.reservations[i].digest == q.key
       && MatchesReservation(db, i, q, WorstCase(q).value);
    ReservationAt(db, i);
  }

  /** An accepted command under a stored event key agrees with that event. */
  lemma AcceptedSettleAgrees(db: Db, j: nat, key: string, b: ReceiptBody)
    requires Inv(db) && j < |db.events| && db.events[j].digest == key
    requires !SettleReservation(db, key, b).1.Rejected?
    ensures db.events[j].receipt == Some(b)
  {
    EventAt(db, j);
  }

  lemma AcceptedUncertainAgrees(db: Db, j: nat, u: UncertaintyInput)
    requires Inv(db) && j < |db.events| && db.events[j].digest == u.key
    requires !MarkReservationUncertain(db, u).1.Rejected?
    ensures var v := db.events[j];
      && v.occurredAt == u.occurredAt && v.reason == Some(Doubt(u.reason))
      && v.evidence == Some(u.evidence) && v.receipt.None?
      && db.reservations[v.reservation].publicId == u.reservationId
  {
    EventAt(db, j);
  }

  lemma AcceptedReconcileAgrees(db: Db, j: nat, r: Reconciliation)
    requires Inv(db) && j < |db.events| && db.events[j].digest == r.key
    requires !ReconcileReservation(db, r).1.Rejected?
    ensures ReconciliationReplays(db, db.events[j], db.events[j].reservation, r)
    ensures db.reservations[db.events[j].reservation].publicId == r.reservationId
  {
    EventAt(db, j);
  }

  /** Every accepted command under a stored event key, seen through that event. */
  ghost predicate Agrees(db: Db, j: nat, d: Command)
    requires ForeignKeys(db) && j < |db.events|
  {
    var v := db.events[j];
    match d
    case Settle(_, b) => v.receipt == Some(b)
    case MarkUncertain(u) =>
      && v.occurredAt == u.occurredAt && v.reason == Some(Doubt(u.reason))
      && v.evidence == Some(u.evidence) && v.receipt.None?
      && db.reservations[v.reservation].publicId == u.reservationId
    case Reconcile(r) =>
      ReconciliationReplays(db, v, v.reservation, r) && db.reservations[v.reservation].publicId == r.reservationId
    case InitializePeriod(_) => false
    case RecordEntry(_) => false
    case Reserve(_) => false
  }

  lemma AcceptedAgrees(db: Db, j: nat, d: Command)
    requires Inv(db) && j < |db.events| && KeyOf(d) == (EventKeys, db.events[j].digest)
    requires !Apply(db, d).1.Rejected?
    ensures Agrees(db, j, d)
  {
    match d {
      case Settle(key, b) => AcceptedSettleAgrees(db, j, key, b);
      case MarkUncertain(u) => AcceptedUncertainAgrees(db, j, u);
      case Reconcile(r) => AcceptedReconcileAgrees(db, j, r);
      case _ =>
    }
  }

  lemma SettleKeyConflict(db: Db, key: string, b: ReceiptBody, d: Command)
    requires Inv(db) && Recorded(db, Settle(key, b)) && KeyOf(d) == (EventKeys, key)
    requires !Apply(db, d).1.Rejected?
    ensures d == Settle(key, b)
  {
    var j :| 0 <= j < |db.events| && db.events[j].digest == key
       && db.events[j].receipt == Some(b)
       && db.reservations[db.events[j].reservation].publicId == b.reservationId;
    AcceptedAgrees(db, j, d);
  }

  lemma UncertainKeyConflict(db: Db, u: UncertaintyInput, d: Command)
    requires Inv(db) && Recorded(db, MarkUncertain(u)) && KeyOf(d) == (EventKeys, u.key)
    requires !Apply(db, d).1.Rejected?
    ensures d == MarkUncertain(u)
  {
    var j :| 0 <= j < |db.events| && db.events[j].digest == u.key
       && db.events[j] == UncertainEvent(db.events[j].reservation, u)
       && db.reservations[db.events[j].reservation].publicId == u.reservationId;
    AcceptedAgrees(db, j, d);
  }

  lemma ReconcileKeyConflict(db: Db, r: Reconciliation, d: Command)
    requires Inv(db) && Recorded(db, Reconcile(r)) && KeyOf(d) == (EventKeys, r.key)
    requires !Apply(db, d).1.Rejected?
    ensures d == Reconcile(r)
  {
    var j :| 0 <= j < |db.events| && db.events[j].digest == r.key
       && ReconciliationReplays(db, db.events[j], db.events[j].reservation, r)
       && db.reservations[db.events[j].reservation].publicId == r.reservationId;
    AcceptedAgrees(db, j, d);
  }

  lemma RecordedKeyConflict(db: Db, c: Command, d: Command)
    requires Inv(db) && Recorded(db, c) && KeyOf(c) == KeyOf(d) && Payload(c) != Payload(d)
    ensures Apply(db, d).1.Rejected?
  {
    if !Apply(db, d).1.Rejected? {
      match c
      case InitializePeriod(_) => EntryKeyConflict(db, c, d);
      case RecordEntry(_) => EntryKeyConflict(db, c, d);
      case Reserve(q) => ReservationKeyConflict(db, q, d.request);
      case Settle(key, b) => SettleKeyConflict(db, key, b, d);
      case MarkUncertain(u) => UncertainKeyConflict(db, u, d);
      case Reconcile(r) => ReconcileKeyConflict(db, r, d);
    }
  }

  /** A rejected command leaves the ledger exactly as it was. */
  lemma RejectionChangesNothing(db: Db, c: Command)
    requires Inv(db) && Apply(db, c).1.Rejected?
    ensures Apply(db, c).0 == db
  {
  }

  /**
   * Once a key is recorded, any other payload under it, of any command sharing
   * the key space, is rejected at every later time and changes nothing.
   */
  lemma ConflictAtAnyLaterTime(db: Db, c: Command, commands: seq<Command>, d: Command)
    requires Inv(db) && !Apply(db, c).1.Rejected? && Apply(db, c).1.created
    requires KeyOf(c) == KeyOf(d) && Payload(c) != Payload(d)
    ensures Inv(Apply(db, c).0)
    ensures var later := Run(Apply(db, c).0, commands);
      Apply(later, d).1.Rejected? && Apply(later, d).0 == later
  {
    var after := Apply(db, c).0;
    ApplyPreserves(db, c);
    CreatedIsRecorded(db, c);
    RunExtends(after, commands);
    var later := Run(after, commands);
    RecordedPersists(after, later, c);
    RecordedKeyConflict(later, c, d);
    RejectionChangesNothing(later, d);
  }
}
