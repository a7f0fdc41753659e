/**
 * The validators run whenever the ledger is opened, and exactly when they pass.
 *
 * They hold of every reachable ledger with one exception: the period window is
 * compared as text, and an entry in the first second of its month sorts before
 * the month's own boundary.
 */
module LedgerIntegrity {
  import opened Wrappers
  import opened Calendar
  import opened LedgerErrors
  import opened Pricing
  import opened LedgerRows
  import opened LedgerCommands
  import opened LedgerInvariant
  import opened LedgerPreservation
  import opened LedgerRuns
  import opened LedgerSettlement

  // ---- the queries ------------------------------------------------------

  predicate LimitsValid(db: Db) {
    && |db.periods| <= MAX_BUDGET_PERIODS && |db.entries| <= MAX_LEDGER_ENTRIES
    && |db.reservations| <= MAX_COST_RESERVATIONS && |db.events| <= MAX_RESERVATION_EVENTS
    && |db.prices| <= MAX_RESERVATION_PRICES
  }

  /** The grouped query over periods and entries, its time window compared as text. */
  predicate LedgerBalancesValid(db: Db) {
    forall p :: 0 <= p < |db.periods| ==>
      var x := db.periods[p];
      && x.entryCount == Total(Rows, db.entries, p)
      && x.net == Total(Net, db.entries, p)
      && Total(ReserveRows, db.entries, p) == 1
      && Total(ReserveAmount, db.entries, p) == x.reserve
      && Total(ReserveMatches(x.start, x.policyId), db.entries, p) == 1
      && Total(TextOutside(x.start, x.end), db.entries, p) == 0
  }

  predicate EntriesValid(db: Db)
    requires ForeignKeys(db)
  {
    && (forall p :: 0 <= p < |db.periods| ==>
          && db.periods[p].entryCount <= 100_000
          && Max(db.periods[p].net, 0) + db.periods[p].active <= Spendable(db.periods[p]))
    && (forall i :: 0 <= i < |db.entries| ==> db.entries[i].kind.RefundKind? ==>
          db.entries[i].reference.Some?
          && RefundMatches(db.entries[i], db.entries[db.entries[i].reference.value]))
    && (forall i :: 0 <= i < |db.entries| ==> Total(Refunds(i), db.entries, 0) <= db.entries[i].amount)
  }

  /** The same window again, compared as datetimes. */
  predicate TimestampsValid(db: Db)
    requires ForeignKeys(db)
  {
    && (forall p :: 0 <= p < |db.periods| ==>
          db.periods[p].start != LAST_MONTH && db.periods[p].end == Next(db.periods[p].start))
    && (forall i :: 0 <= i < |db.entries| ==>
          var x, at := db.periods[db.entries[i].period], InstantStamp(db.entries[i].occurredAt);
          !Before(at, FirstInstant(x.start)) && Before(at, FirstInstant(x.end)))
  }

  predicate ReservationBalancesValid(db: Db) {
    forall p :: 0 <= p < |db.periods| ==>
      && db.periods[p].active == Held(db.reservations, p)
      && Max(db.periods[p].net, 0) + db.periods[p].active <= Spendable(db.periods[p])
  }

  /** Price counts, event histories and entry links; a missing link compares as NULL. */
  predicate RelationsValid(db: Db)
    requires ForeignKeys(db)
  {
    forall i :: 0 <= i < |db.reservations| ==>
      var r := db.reservations[i];
      && 1 <= |TermsOf(db.prices, i)| <= 4
      && DispatchEvents(db.events, i) == 1 && LastState(db.events, i) == Some(r.state)
      && (r.entry.Some? && r.actual.Some? ==>
            var e := db.entries[r.entry.value];
            && (r.state.Settled? ==>
                  e.kind == ProviderCharge && e.direction == Debit && e.amount == r.actual.value
                  && e.period == r.period && e.source == r.providerId)
            && (r.state.Reconciled? && r.actual.value > 0 ==>
                  e.kind == ManualAdjustment && e.direction == Debit && e.amount == r.actual.value
                  && e.period == r.period))
  }

  /** Every priced reservation's terms have its digest and were current when it was made. */
  predicate PricingValid(db: Db) {
    forall i :: 0 <= i < |db.reservations| ==>
      && (StoredTerms(db, i) != [] ==> StoredTerms(db, i) == db.reservations[i].pricingDigest)
      && forall t :: t in StoredTerms(db, i) ==> Fresh(t, db.reservations[i].createdAt)
  }

  /** Whether the ledger can be opened at all. */
  predicate Validate(db: Db)
    requires ForeignKeys(db)
  {
    && LimitsValid(db) && LedgerBalancesValid(db) && EntriesValid(db) && TimestampsValid(db)
    && ReservationBalancesValid(db) && RelationsValid(db) && PricingValid(db)
  }

  // ---- when they pass ---------------------------------------------------

  predicate InFirstSecond(e: Entry) {
    e.occurredAt.At? && FirstSecond(e.occurredAt.stamp)
  }

  predicate NoneInFirstSecond(entries: seq<Entry>) {
    forall i :: 0 <= i < |entries| ==> !InFirstSecond(entries[i])
  }

  lemma OutsideTextIsFirstSecond(e: Entry, x: Period)
    requires InOwnMonth(e, x.start) && x.start != LAST_MONTH && x.end == Next(x.start)
    ensures OutsideText(e.occurredAt, x.start, x.end) <==> InFirstSecond(e)
  {
    if e.occurredAt.At? {
      MonthWindow(e.occurredAt.stamp, x.start);
      StampBeforeBoundaryText(e.occurredAt.stamp, x.start);
      StampBeforeBoundaryText(e.occurredAt.stamp, x.end);
    } else {
      BoundaryTextOrder(x.start, x.start);
      BoundaryTextOrder(x.start, x.end);
    }
  }

  lemma OutsideWeight(e: Entry, x: Period, p: nat)
    requires x.start != LAST_MONTH && x.end == Next(x.start)
    requires e.period == p ==> InOwnMonth(e, x.start)
    ensures Weight(TextOutside(x.start, x.end), e, p) == if e.period == p && InFirstSecond(e) then 1 else 0
  {
    if e.period == p {
      OutsideTextIsFirstSecond(e, x);
    }
  }

  /** The weights that a total adds, as a list of numbers. */
  function Weights(m: Measure, entries: seq<Entry>, p: nat): seq<int> {
    seq(|entries|, i requires 0 <= i < |entries| => Weight(m, entries[i], p))
  }

  function SumOf(s: seq<int>): int {
    if s == [] then 0 else SumOf(s[..|s| - 1]) + s[|s| - 1]
  }

  lemma {:induction false} TotalIsSum(m: Measure, entries: seq<Entry>, p: nat)
    ensures Total(m, entries, p) == SumOf(Weights(m, entries, p))
  {
    if entries != [] {
      var n := |entries| - 1;
      TotalIsSum(m, entries[..n], p);
      assert Weights(m, entries, p)[..n] == Weights(m, entries[..n], p);
    }
  }

  lemma {:induction false} ZeroSum(s: seq<int>)
    requires forall i :: 0 <= i < |s| ==> s[i] >= 0
    ensures SumOf(s) >= 0
    ensures SumOf(s) == 0 <==> forall i :: 0 <= i < |s| ==> s[i] == 0
  {
    if s != [] {
      var n := |s| - 1;
      ZeroSum(s[..n]);
      assert forall i :: 0 <= i < n ==> s[..n][i] == s[i];
    }
  }

  lemma ZeroTotal(m: Measure, entries: seq<Entry>, p: nat)
    requires forall i :: 0 <= i < |entries| ==> Weight(m, entries[i], p) >= 0
    ensures Total(m, entries, p) >= 0
    ensures Total(m, entries, p) == 0 <==>
      forall i :: 0 <= i < |entries| ==> Weight(m, entries[i], p) == 0
  {
    var s := Weights(m, entries, p);
    TotalIsSum(m, entries, p);
    ZeroSum(s);
    assert forall i :: 0 <= i < |entries| ==> s[i] == Weight(m, entries[i], p);
  }

  lemma {:induction false} RowsAtMost(entries: seq<Entry>, p: nat)
    ensures 0 <= Total(Rows, entries, p) <= |entries|
  {
    if entries != [] {
      RowsAtMost(entries[..|entries| - 1], p);
    }
  }

  lemma BalancesWhenNoFirstSecond(db: Db)
    requires Inv(db)
    ensures LedgerBalancesValid(db) <==> NoneInFirstSecond(db.entries)
  {
    if LedgerBalancesValid(db) {
      forall i | 0 <= i < |db.entries| ensures !InFirstSecond(db.entries[i]) {
        WindowCount(db, db.entries[i].period);
      }
    }
    if forall i :: 0 <= i < |db.entries| ==> !InFirstSecond(db.entries[i]) {
      forall p | 0 <= p < |db.periods|
        ensures PeriodOk(db, p) && Total(TextOutside(db.periods[p].start, db.periods[p].end), db.entries, p) == 0
      {
        WindowCount(db, p);
      }
    }
  }

  lemma WindowCount(db: Db, p: nat)
    requires Inv(db) && p < |db.periods|
    ensures PeriodOk(db, p)
    ensures Total(TextOutside(db.periods[p].start, db.periods[p].end), db.entries, p) == 0 <==>
      forall i :: 0 <= i < |db.entries| && db.entries[i].period == p ==> !InFirstSecond(db.entries[i])
  {
    var x := db.periods[p];
    var m := TextOutside(x.start, x.end);
    assert PeriodOk(db, p);
    forall i | 0 <= i < |db.entries|
      ensures Weight(m, db.entries[i], p)
        == if db.entries[i].period == p && InFirstSecond(db.entries[i]) then 1 else 0
    {
      assert EntryOk(db, i);
      OutsideWeight(db.entries[i], x, p);
    }
    ZeroTotal(m, db.entries, p);
  }

  lemma OtherQueriesPass(db: Db)
    requires Inv(db)
    ensures LimitsValid(db) && EntriesValid(db) && TimestampsValid(db)
    ensures ReservationBalancesValid(db) && RelationsValid(db) && PricingValid(db)
  {
    forall p | 0 <= p < |db.periods|
      ensures PeriodOk(db, p) && db.periods[p].entryCount <= 100_000
    {
      assert PeriodOk(db, p);
      RowsAtMost(db.entries, p);
    }
    forall i | 0 <= i < |db.entries|
      ensures EntryOk(db, i) && RefundBound(db, i)
      ensures var x, at := db.periods[db.entries[i].period], InstantStamp(db.entries[i].occurredAt);
        !Before(at, FirstInstant(x.start)) && Before(at, FirstInstant(x.end))
    {
      assert EntryOk(db, i) && RefundBound(db, i);
      if db.entries[i].occurredAt.At? {
        MonthWindow(db.entries[i].occurredAt.stamp, db.periods[db.entries[i].period].start);
      }
    }
    forall i | 0 <= i < |db.reservations|
      ensures AdmissionOk(db, i) && ResolutionOk(db, i) && HistoryOk(db, i)
      ensures forall t :: t in StoredTerms(db, i) ==> Fresh(t, db.reservations[i].createdAt)
    {
      assert AdmissionOk(db, i) && ResolutionOk(db, i) && HistoryOk(db, i);
      SortByUnitPermutes(TermsOf(db.prices, i));
    }
  }

  /** A reachable ledger passes its validators exactly when no entry is in a month's first second. */
  lemma ValidatesExactlyWhen(db: Db)
    requires Inv(db)
    ensures Validate(db) <==> NoneInFirstSecond(db.entries)
  {
    BalancesWhenNoFirstSecond(db);
    OtherQueriesPass(db);
  }

  // ---- the facade: validate, then run -----------------------------------

  function OpenAndApply(db: Db, c: Command): Step
    requires ForeignKeys(db)
  {
    if Validate(db) then Apply(db, c) else (db, Rejected(Integrity))
  }

  /** The instant at which a command would post a paid entry, if it posts one. */
  function PostingTime(db: Db, c: Command): Option<UtcStamp>
    requires ForeignKeys(db)
  {
    match c
    case RecordEntry(e) => Some(e.occurredAt)
    case Settle(_, b) => CreationTime(db, b.reservationId)
    case Reconcile(r) => CreationTime(db, r.reservationId)
    case InitializePeriod(_) => None
    case Reserve(_) => None
    case MarkUncertain(_) => None
  }

  function CreationTime(db: Db, publicId: string): Option<UtcStamp> {
    var at := FindByPublicId(db.reservations, publicId);
    if at.Some? then Some(db.reservations[at.value].createdAt) else None
  }

  /** What a step appends: at most one entry, paid at `at` or on a boundary when that is None. */
  predicate Posts(before: Db, after: Db, at: Option<UtcStamp>) {
    && before.entries <= after.entries && |after.entries| <= |before.entries| + 1
    && (|after.entries| == |before.entries| + 1 ==>
          var i := after.entries[|before.entries|].occurredAt;
          if at.Some? then i == At(at.value) else i.Boundary?)
  }

  /** Creation times stay, and a new reservation was created at `at`. */
  ghost predicate Admits(before: Db, after: Db, at: Option<UtcStamp>) {
    && |before.reservations| <= |after.reservations|
    && (forall i :: 0 <= i < |before.reservations| ==>
          after.reservations[i].createdAt == before.reservations[i].createdAt)
    && (forall i :: |before.reservations| <= i < |after.reservations| ==>
          at.Some? && after.reservations[i].createdAt == at.value)
  }

  lemma InitializePosts(db: Db, g: PeriodConfig)
    requires Inv(db)
    ensures Posts(db, Initialize(db, g).0, None) && Admits(db, Initialize(db, g).0, None)
  {
  }

  lemma RecordPosts(db: Db, e: EntryInput)
    requires Inv(db)
    ensures Posts(db, Record(db, e).0, Some(e.occurredAt)) && Admits(db, Record(db, e).0, None)
  {
  }

  lemma ReservePosts(db: Db, q: ReservationRequest)
    requires Inv(db)
    ensures Posts(db, ReserveForDispatch(db, q).0, None)
    ensures Admits(db, ReserveForDispatch(db, q).0, Some(q.occurredAt))
  {
  }

  lemma SettleLivePosts(db: Db, i: nat, key: string, b: ReceiptBody)
    requires Inv(db) && i < |db.reservations|
    ensures Posts(db, SettleLive(db, i, key, b).0, Some(db.reservations[i].createdAt))
    ensures Admits(db, SettleLive(db, i, key, b).0, None)
  {
  }

  lemma SettlePosts(db: Db, key: string, b: ReceiptBody)
    requires Inv(db)
    ensures Posts(db, SettleReservation(db, key, b).0, CreationTime(db, b.reservationId))
    ensures Admits(db, SettleReservation(db, key, b).0, None)
  {
    var at := FindByPublicId(db.reservations, b.reservationId);
    if at.Some? {
      SettleLivePosts(db, at.value, key, b);
    }
  }

  lemma MarkUncertainPosts(db: Db, u: UncertaintyInput)
    requires Inv(db)
    ensures Posts(db, MarkReservationUncertain(db, u).0, None) && Admits(db, MarkReservationUncertain(db, u).0, None)
  {
  }

  lemma ReconcilePosts(db: Db, r: Reconciliation)
    requires Inv(db)
    ensures Posts(db, ReconcileReservation(db, r).0, CreationTime(db, r.reservationId))
    ensures Admits(db, ReconcileReservation(db, r).0, None)
  {
  }

  function AdmissionTime(c: Command): Option<UtcStamp> {
    if c.Reserve? then Some(c.request.occurredAt) else None
  }

  lemma ApplyPosts(db: Db, c: Command)
    requires Inv(db)
    ensures Posts(db, Apply(db, c).0, PostingTime(db, c)) && Admits(db, Apply(db, c).0, AdmissionTime(c))
  {
    match c {
      case InitializePeriod(g) => InitializePosts(db, g);
      case RecordEntry(e) => RecordPosts(db, e);
      case Reserve(q) => ReservePosts(db, q);
      case Settle(key, b) => SettlePosts(db, key, b);
      case MarkUncertain(u) => MarkUncertainPosts(db, u);
      case Reconcile(r) => ReconcilePosts(db, r);
    }
  }

  /** The entry a step would post is timed in the first second of a month. */
  predicate PostsInFirstSecond(at: Option<UtcStamp>) {
    at.Some? && FirstSecond(at.value)
  }

  lemma PostingKeepsQuiet(db: Db, after: Db, at: Option<UtcStamp>)
    requires Posts(db, after, at) && NoneInFirstSecond(db.entries)
    ensures NoneInFirstSecond(after.entries) <==> |after.entries| == |db.entries| || !PostsInFirstSecond(at)
  {
    var n := |db.entries|;
    assert forall i :: 0 <= i < n ==> after.entries[i] == db.entries[i];
    if |after.entries| > n {
      assert InFirstSecond(after.entries[n]) <==> PostsInFirstSecond(at);
    }
  }

  lemma OpenAfterPosting(db: Db, after: Db, at: Option<UtcStamp>)
    requires Inv(db) && Validate(db) && Inv(after) && Posts(db, after, at)
    ensures Validate(after) <==> |after.entries| == |db.entries| || !PostsInFirstSecond(at)
  {
    ValidatesExactlyWhen(db);
    ValidatesExactlyWhen(after);
    PostingKeepsQuiet(db, after, at);
  }

  // ---- which commands post a paid entry ---------------------------------

  /** A new, valid entry whose month is open, with room for it, its charge and its amount. */
  predicate PostsInput(db: Db, e: EntryInput)
    requires ForeignKeys(db)
  {
    var at := FindPeriod(db.periods, MonthOf(e.occurredAt));
    && EntryError(e).None? && FindEntry(db.entries, e.key).None? && at.Some?
    && db.periods[at.value].entryCount < MAX_PERIOD_ENTRIES && |db.entries| < MAX_LEDGER_ENTRIES
    && ReferenceOf(db, e).Ok? && ProspectiveNet(db.periods[at.value], e).Ok?
  }

  /** A new event on a live reservation. */
  predicate FirstEvent(db: Db, publicId: string, key: string) {
    var at := FindByPublicId(db.reservations, publicId);
    && EvidenceIdentifier(key) && EvidenceIdentifier(publicId) && at.Some? && Live(db.reservations[at.value].state)
    && FindEvent(db.events, key).None? && |db.events| < MAX_RESERVATION_EVENTS
  }

  /** What a caller can read off the ledger and the command before issuing it. */
  ghost predicate PostsEntry(db: Db, c: Command)
    requires Inv(db)
  {
    match c
    case RecordEntry(e) => PostsInput(db, e)
    case Settle(key, b) =>
      FirstEvent(db, b.reservationId, key)
      && Settles(db, FindByPublicId(db.reservations, b.reservationId).value, key, b)
    case Reconcile(r) =>
      && r.ManualInput? && Sha256(r.evidence) && EvidenceIdentifier(r.manualSource)
      && FirstEvent(db, r.reservationId, r.key)
      && 0 < r.manualAmount <= db.reservations[FindByPublicId(db.reservations, r.reservationId).value].held
      && |db.entries| < MAX_LEDGER_ENTRIES && FindEntry(db.entries, ManualKey(r.key)).None?
    case InitializePeriod(_) => false
    case Reserve(_) => false
    case MarkUncertain(_) => false
  }

  lemma SettleLiveGrows(db: Db, i: nat, key: string, b: ReceiptBody)
    requires Inv(db) && i < |db.reservations| && Live(db.reservations[i].state)
    ensures |db.entries| < |SettleLive(db, i, key, b).0.entries| <==> Settles(db, i, key, b)
  {
    SettlesExactlyWhen(db, i, key, b);
  }

  lemma PostsEntryExactlyWhen(db: Db, c: Command)
    requires Inv(db) && PostingTime(db, c).Some?
    ensures |db.entries| < |Apply(db, c).0.entries| <==> PostsEntry(db, c)
  {
    match c {
      case RecordEntry(_) =>
      case Settle(key, b) =>
        var i := FindByPublicId(db.reservations, b.reservationId).value;
        if Live(db.reservations[i].state) {
          SettleLiveGrows(db, i, key, b);
        }
      case Reconcile(_) =>
      case InitializePeriod(_) =>
      case Reserve(_) =>
      case MarkUncertain(_) =>
    }
  }

  /**
   * An open ledger stays open after a command unless that command posts a paid
   * entry, and its time is in the first second of a month.
   */
  lemma StaysOpenExactlyWhen(db: Db, c: Command)
    requires Inv(db) && Validate(db)
    ensures Inv(Apply(db, c).0)
    ensures Validate(Apply(db, c).0) <==> !(PostsEntry(db, c) && PostsInFirstSecond(PostingTime(db, c)))
  {
    ApplyPreserves(db, c);
    ApplyPosts(db, c);
    OpenAfterPosting(db, Apply(db, c).0, PostingTime(db, c));
    if PostingTime(db, c).Some? {
      PostsEntryExactlyWhen(db, c);
    }
  }

  /** Once closed, the ledger refuses every command, and no command can reopen it. */
  lemma ClosedForever(db: Db, c: Command, commands: seq<Command>)
    requires Inv(db) && !Validate(db)
    ensures OpenAndApply(db, c) == (db, Rejected(Integrity))
    ensures !Validate(Run(db, commands))
  {
    var later := Run(db, commands);
    ValidatesExactlyWhen(db);
    ValidatesExactlyWhen(later);
    RunExtends(db, commands);
    var i :| 0 <= i < |db.entries| && InFirstSecond(db.entries[i]);
    assert later.entries[i] == db.entries[i];
  }

  /** The times a caller supplies for entries and reservations. */
  predicate AvoidsFirstSecond(c: Command) {
    match c
    case RecordEntry(e) => !FirstSecond(e.occurredAt)
    case Reserve(q) => !FirstSecond(q.occurredAt)
    case InitializePeriod(_) => true
    case Settle(_, _) => true
    case MarkUncertain(_) => true
    case Reconcile(_) => true
  }

  predicate Quiet(db: Db) {
    && NoneInFirstSecond(db.entries)
    && (forall i :: 0 <= i < |db.reservations| ==> !FirstSecond(db.reservations[i].createdAt))
  }

  lemma QuietAfter(db: Db, after: Db, at: Option<UtcStamp>, admitted: Option<UtcStamp>)
    requires Quiet(db) && Posts(db, after, at) && Admits(db, after, admitted)
    requires !PostsInFirstSecond(at) && !PostsInFirstSecond(admitted)
    ensures Quiet(after)
  {
    forall i | 0 <= i < |after.entries| ensures !InFirstSecond(after.entries[i]) {
      if i < |db.entries| {
        assert after.entries[i] == db.entries[i];
      }
    }
    forall i | 0 <= i < |after.reservations| ensures !FirstSecond(after.reservations[i].createdAt) {
      if i < |db.reservations| {
        assert after.reservations[i].createdAt == db.reservations[i].createdAt;
      }
    }
  }

  lemma QuietStep(db: Db, c: Command)
    requires Inv(db) && Quiet(db) && AvoidsFirstSecond(c)
    ensures Quiet(Apply(db, c).0)
  {
    ApplyPosts(db, c);
    QuietAfter(db, Apply(db, c).0, PostingTime(db, c), AdmissionTime(c));
  }

  lemma {:induction false} QuietRun(db: Db, commands: seq<Command>)
    requires Inv(db) && Quiet(db) && forall c :: c in commands ==> AvoidsFirstSecond(c)
    ensures Quiet(Run(db, commands))
    decreases |commands|
  {
    if commands != [] {
      assert commands[0] in commands;
      QuietStep(db, commands[0]);
      ApplyPreserves(db, commands[0]);
      QuietRun(Apply(db, commands[0]).0, commands[1..]);
    }
  }

  /** Callers that avoid the first second of every month never close the ledger. */
  lemma CarefulRunsStayOpen(commands: seq<Command>)
    requires forall c :: c in commands ==> AvoidsFirstSecond(c)
    ensures Validate(Run(EMPTY, commands))
  {
    EmptyInv();
    QuietRun(EMPTY, commands);
    ValidatesExactlyWhen(Run(EMPTY, commands));
  }

  // ---- a run that closes the ledger -------------------------------------

  function JulyBudget(): PeriodConfig {
    PeriodConfig(Month(2026, 7), 1, 1_000, 100, "USD", "p", 1, "r")
  }

  function MidnightDebit(): EntryInput {
    EntryInput("e", ManualAdjustment, Debit, 5, Stamp(2026, 7, 1, 0, 0, 0, 0), "USD", "s", None)
  }

  function JulyLedger(): Db {
    Db([NewPeriod(JulyBudget())], [ReserveEntry(JulyBudget(), 0)], [], [], [])
  }

  lemma JulyBudgetAccepted()
    ensures Initialize(EMPTY, JulyBudget()) == (JulyLedger(), PeriodReply(true, SummaryOf(NewPeriod(JulyBudget()))))
  {
    var c := JulyBudget();
    assert ConfigError(c).None?;
    assert FindEntry([], c.key).None? && FindPeriod([], c.startsOn).None?;
    assert [] + [NewPeriod(c)] == [NewPeriod(c)] && [] + [ReserveEntry(c, 0)] == [ReserveEntry(c, 0)];
  }

  lemma JulyBudgetOpens()
    ensures Inv(JulyLedger()) && Validate(JulyLedger())
  {
    EmptyInv();
    JulyBudgetAccepted();
    InitializePreserves(EMPTY, JulyBudget());
    ValidatesExactlyWhen(JulyLedger());
  }

  lemma MidnightDebitAccepted()
    ensures ForeignKeys(JulyLedger())
    ensures var step := Record(JulyLedger(), MidnightDebit());
      && step.1.EntryReply? && step.1.created
      && step.0.entries == [ReserveEntry(JulyBudget(), 0), NewEntry(MidnightDebit(), 0, None)]
  {
    var db, e := JulyLedger(), MidnightDebit();
    assert EntryError(e).None?;
    assert db.entries[0].digest == "r" && db.entries[..0] == [];
    assert FindEntry(db.entries, "e").None?;
    assert db.periods[..0] == [];
    assert FindPeriod(db.periods, Month(2026, 7)) == Some(0);
    assert ReferenceOf(db, e) == Ok(None);
    assert ProspectiveNet(db.periods[0], e) == Ok(5);
  }

  lemma MidnightDebitIsOutside()
    ensures ForeignKeys(JulyLedger()) && Inv(Record(JulyLedger(), MidnightDebit()).0)
    ensures !Validate(Record(JulyLedger(), MidnightDebit()).0)
  {
    JulyBudgetOpens();
    MidnightDebitAccepted();
    RecordPreserves(JulyLedger(), MidnightDebit());
    var after := Record(JulyLedger(), MidnightDebit()).0;
    assert InFirstSecond(after.entries[1]);
    ValidatesExactlyWhen(after);
  }

  /** Two accepted commands: the month's budget, then a debit at its very first instant. */
  lemma MidnightDebitClosesTheLedger()
    ensures Apply(EMPTY, InitializePeriod(JulyBudget())).0 == JulyLedger()
    ensures Inv(JulyLedger()) && Validate(JulyLedger())
    ensures var step := OpenAndApply(JulyLedger(), RecordEntry(MidnightDebit()));
      step.1.EntryReply? && step.1.created && Inv(step.0) && !Validate(step.0)
  {
    JulyBudgetAccepted();
    JulyBudgetOpens();
    MidnightDebitAccepted();
    MidnightDebitIsOutside();
    assert OpenAndApply(JulyLedger(), RecordEntry(MidnightDebit())) == Record(JulyLedger(), MidnightDebit());
  }
}
