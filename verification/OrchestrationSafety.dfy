/** What every interleaving of orchestrate processes keeps. */
module OrchestrationSafety {
  import opened Wrappers
  import opened OrchestrationGates
  import opened OrchestrationJournal
  import opened Orchestration

  // ---- where a process is -----------------------------------------------

  predicate BeforeClaim(pc: Pc) {
    || pc in {Begin, Ready, CreatingWorktree, MainAfterCreate, CancelPoll, MainBeforeCancel, WriteCancelled,
              CheckAuthority, Claim, Raised, MarkUncertain(Prepared)}
    || pc.Returned?
  }

  /** The life cycle the owner of a row expects to find it in. */
  function Expected(pc: Pc): Option<Lifecycle> {
    match pc
    case Patching => Some(Applying)
    case PatchRunning => Some(Applying)
    case MainAfterFailure(_) => Some(Applying)
    case WriteFailure(_) => Some(Applying)
    case MainAfterPatch(_) => Some(Applying)
    case WriteApplied(_) => Some(Applying)
    case RecheckAuthority(_) => Some(Applied)
    case WriteGating(_) => Some(Applied)
    case RunGates(_, _) => Some(Gating)
    case CheckIntegrity(_, _) => Some(Gating)
    case MainAfterGateError(_) => Some(Gating)
    case WriteGateError(_) => Some(Gating)
    case FinalIntegrity(_, _) => Some(Gating)
    case MainBeforeAccept(_, _) => Some(Gating)
    case WriteAccepted(_, _) => Some(Gating)
    case MarkUncertain(e) => Some(e)
    case Returned(r) => Some(r.lifecycle)
    case _ => None
  }

  /** Program points an owner can be at, with what it carries. */
  predicate OwnerPoint(q: Request, pc: Pc) {
    match pc
    case MainAfterFailure(r) => r.lifecycle in {Failed, Cancelled} && ReceiptValid(r)
    case WriteFailure(r) => r.lifecycle in {Failed, Cancelled} && ReceiptValid(r)
    case MainAfterGateError(r) => r.lifecycle in {Failed, Cancelled} && ReceiptValid(r)
    case WriteGateError(r) => r.lifecycle in {Failed, Cancelled} && ReceiptValid(r)
    case RunGates(_, results) => Passing(q, results)
    case CheckIntegrity(_, results) => results != [] && Passing(q, results)
    case FinalIntegrity(_, results) => AllPassing(q, results)
    case MainBeforeAccept(_, results) => AllPassing(q, results)
    case WriteAccepted(_, results) => AllPassing(q, results)
    case MarkUncertain(e) => e in {Applying, Applied, Gating}
    case Returned(r) => Terminal(r.lifecycle)
    case _ => !BeforeClaim(pc) || pc.Raised?
  }

  predicate Passing(q: Request, results: seq<GateExit>) {
    results != [] ==> Commands(q.target.lane).Some? && PassedPrefix(Commands(q.target.lane).value, results)
  }

  predicate AllPassing(q: Request, results: seq<GateExit>) {
    && Commands(q.target.lane).Some? && |results| == |Commands(q.target.lane).value|
    && PassedPrefix(Commands(q.target.lane).value, results)
  }

  // ---- the straight path to acceptance ----------------------------------

  predicate OnPath(pc: Pc) {
    match pc
    case Patching => true
    case PatchRunning => true
    case MainAfterPatch(_) => true
    case WriteApplied(_) => true
    case RecheckAuthority(_) => true
    case WriteGating(_) => true
    case RunGates(_, _) => true
    case CheckIntegrity(_, _) => true
    case FinalIntegrity(_, _) => true
    case MainBeforeAccept(_, _) => true
    case WriteAccepted(_, _) => true
    case _ => false
  }

  function Landing(p: nat, truth: Truth): seq<Event> {
    [MovedTo(p, Prepared, Applying), PatchStarted(p), PatchLanded(p, truth)]
  }

  function UpToGates(p: nat, truth: Truth): seq<Event> {
    Landing(p, truth)
    + [MainUnchanged(p), MovedTo(p, Applying, Applied), AuthorityHeld(p), MovedTo(p, Applied, Gating)]
  }

  /** Each gate's passing result, then the integrity check that held after it. */
  function GateTrail(p: nat, results: seq<GateExit>): seq<Event> {
    if results == [] then []
    else
      var n := |results| - 1;
      GateTrail(p, results[..n]) + [GateRan(p, results[n]), IntegrityHeld(p)]
  }

  /** Everything an owner has done when it stands at `pc` on the path to acceptance. */
  function Trail(p: nat, pc: Pc): seq<Event>
    requires OnPath(pc) && (pc.CheckIntegrity? ==> pc.results != [])
  {
    match pc
    case Patching => [MovedTo(p, Prepared, Applying)]
    case PatchRunning => [MovedTo(p, Prepared, Applying), PatchStarted(p)]
    case MainAfterPatch(truth) => Landing(p, truth)
    case WriteApplied(truth) => Landing(p, truth) + [MainUnchanged(p)]
    case RecheckAuthority(truth) => Landing(p, truth) + [MainUnchanged(p), MovedTo(p, Applying, Applied)]
    case WriteGating(truth) =>
      Landing(p, truth) + [MainUnchanged(p), MovedTo(p, Applying, Applied), AuthorityHeld(p)]
    case RunGates(truth, results) => UpToGates(p, truth) + GateTrail(p, results)
    case CheckIntegrity(truth, results) =>
      var n := |results| - 1;
      UpToGates(p, truth) + GateTrail(p, results[..n]) + [GateRan(p, results[n])]
    case FinalIntegrity(truth, results) => UpToGates(p, truth) + GateTrail(p, results)
    case MainBeforeAccept(truth, results) => UpToGates(p, truth) + GateTrail(p, results) + [FinalIntegrityHeld(p)]
    case WriteAccepted(truth, results) =>
      UpToGates(p, truth) + GateTrail(p, results) + [FinalIntegrityHeld(p), MainUnchanged(p)]
  }

  function AcceptedTrail(p: nat, truth: Truth, results: seq<GateExit>): seq<Event> {
    UpToGates(p, truth) + GateTrail(p, results)
    + [FinalIntegrityHeld(p), MainUnchanged(p), MovedTo(p, Gating, Accepted)]
  }

  // ---- the invariant ----------------------------------------------------

  predicate Story(events: seq<Event>, trail: seq<Event>) {
    events != [] && events[0].Inserted? && events[1..] == trail
  }

  /** The row of a request, if its digest is the stored one. */
  function OwnRow(rows: seq<Row>, q: Request): (k: Option<nat>)
    ensures k.Some? ==> k.value < |rows| && rows[k.value].digest == q
  {
    var k := FindRow(rows, q.id);
    if k.Some? && rows[k.value].digest == q then k else None
  }

  ghost predicate OwnerOk(s: State, p: nat)
    requires p < |s.procs|
  {
    var x := s.procs[p];
    && OwnerPoint(x.request, x.pc)
    && OwnRow(s.rows, x.request).Some?
    && var row := s.rows[OwnRow(s.rows, x.request).value];
       && !row.lifecycle.Prepared?
       && (row.lifecycle.Uncertain? || x.pc.Raised?
           || (Expected(x.pc) == Some(row.lifecycle)
               && (OnPath(x.pc) ==> Story(For(s.log, x.request), Trail(p, x.pc)))))
  }

  ghost predicate ProcOk(s: State, p: nat)
    requires p < |s.procs|
  {
    if s.procs[p].claimed then OwnerOk(s, p) else BeforeClaim(s.procs[p].pc)
  }

  /** How an accepted row came to be, told by the log alone. */
  ghost predicate AcceptedOk(row: Row, events: seq<Event>) {
    && row.receipt.Some? && row.receipt.value.truth.Some? && AllPassing(row.digest, row.receipt.value.gates)
    && |events| >= 2 && events[1].MovedTo?
    && Story(events, AcceptedTrail(events[1].who, row.receipt.value.truth.value, row.receipt.value.gates))
  }

  ghost predicate RowOk(s: State, k: nat)
    requires k < |s.rows|
  {
    var events := For(s.log, s.rows[k].digest);
    && (s.rows[k].lifecycle.Prepared? ==> Story(events, []))
    && (s.rows[k].lifecycle.Accepted? ==> AcceptedOk(s.rows[k], events))
    && (s.rows[k].receipt.Some? ==> ReceiptValid(s.rows[k].receipt.value))
  }

  /** One owner per request. */
  ghost predicate OneOwner(s: State) {
    forall p, q :: 0 <= p < q < |s.procs| && s.procs[p].claimed && s.procs[q].claimed ==>
      s.procs[p].request != s.procs[q].request
  }

  ghost predicate Logged(s: State, j: nat)
    requires j < |s.log|
  {
    && OwnRow(s.rows, s.log[j].request).Some?
    && (s.log[j].event.PatchStarted? ==>
          var p := s.log[j].event.who;
          p < |s.procs| && s.procs[p].claimed && s.procs[p].request == s.log[j].request && !s.procs[p].pc.Patching?)
  }

  ghost predicate StartedOnce(s: State) {
    forall i, j :: 0 <= i < j < |s.log| && s.log[i].event.PatchStarted? && s.log[j].event.PatchStarted? ==>
      s.log[i].request != s.log[j].request
  }

  ghost predicate Inv(s: State) {
    && JournalOk(s.rows) && OneOwner(s) && StartedOnce(s)
    && (forall p :: 0 <= p < |s.procs| ==> ProcOk(s, p))
    && (forall k :: 0 <= k < |s.rows| ==> RowOk(s, k))
    && (forall j :: 0 <= j < |s.log| ==> Logged(s, j))
  }

  // ---- the log ----------------------------------------------------------

  lemma ForAppend(log: seq<Entry>, e: Entry, q: Request)
    ensures For(log + [e], q) == For(log, q) + (if e.request == q then [e.event] else [])
  {
    assert (log + [e])[..|log|] == log;
  }

  lemma {:induction false} ForUnlogged(log: seq<Entry>, q: Request)
    requires forall j :: 0 <= j < |log| ==> log[j].request != q
    ensures For(log, q) == []
  {
    if log != [] {
      ForUnlogged(log[..|log| - 1], q);
    }
  }

  lemma OwnRowIs(rows: seq<Row>, k: nat)
    requires JournalOk(rows) && k < |rows|
    ensures OwnRow(rows, rows[k].digest) == Some(k)
  {
    assert RecordValid(rows[k].digest, rows[k]);
    FoundRow(rows, k);
  }

  /** Rewriting a row in place keeps every request's row where it was. */
  lemma OwnRowRewrite(rows: seq<Row>, k: nat, row: Row, q: Request)
    requires k < |rows| && JournalOk(rows) && JournalOk(rows[k := row])
    requires row.digest == rows[k].digest && row.id == rows[k].id
    ensures OwnRow(rows[k := row], q) == OwnRow(rows, q)
  {
    var after := rows[k := row];
    var a, b := FindRow(rows, q.id), FindRow(after, q.id);
    if a.Some? {
      assert after[a.value].id == q.id;
      FoundRow(after, a.value);
    }
  }

  lemma OwnRowAppend(rows: seq<Row>, row: Row, q: Request)
    ensures OwnRow(rows, q).Some? ==> OwnRow(rows + [row], q) == OwnRow(rows, q)
  {
    assert (rows + [row])[..|rows|] == rows;
  }

  // ---- quiet steps ------------------------------------------------------

  predicate SamePath(q: Request, p: nat, from: Pc, to: Pc) {
    && OwnerPoint(q, to)
    && (to.Raised? || (Expected(to) == Expected(from) && !from.Raised?))
    && (OnPath(to) ==> OnPath(from) && (from.CheckIntegrity? ==> from.results != []) && Trail(p, to) == Trail(p, from))
    && !to.Patching?
  }

  lemma GotoKeeps(s: State, p: nat, pc: Pc)
    requires Inv(s) && p < |s.procs|
    requires if s.procs[p].claimed then SamePath(s.procs[p].request, p, s.procs[p].pc, pc) else BeforeClaim(pc)
    ensures Inv(Goto(s, p, pc))
  {
    var t := Goto(s, p, pc);
    assert ProcOk(s, p);
    forall r | 0 <= r < |t.procs| ensures ProcOk(t, r) {
      assert ProcOk(s, r);
    }
    forall k | 0 <= k < |t.rows| ensures RowOk(t, k) {
      assert RowOk(s, k);
    }
    forall j | 0 <= j < |t.log| ensures Logged(t, j) {
      assert Logged(s, j);
    }
  }

  /** A step of the owner that only adds to its own trail. */
  predicate NextOnPath(q: Request, p: nat, from: Pc, event: Event, to: Pc) {
    && OwnerPoint(q, to) && !from.Raised? && !to.Raised? && Expected(to) == Expected(from)
    && Expected(from).Some? && !Expected(from).value.Accepted?
    && (OnPath(to) ==> OnPath(from) && (from.CheckIntegrity? ==> from.results != [])
                       && Trail(p, to) == Trail(p, from) + [event])
    && !to.Patching? && (event.PatchStarted? ==> from.Patching? && event.who == p)
  }

  lemma NoteKeeps(s: State, p: nat, event: Event, pc: Pc)
    requires Inv(s) && p < |s.procs| && s.procs[p].claimed
    requires NextOnPath(s.procs[p].request, p, s.procs[p].pc, event, pc)
    ensures Inv(Note(s, p, event, pc))
  {
    var t := Note(s, p, event, pc);
    NoteFor(s, t, s.procs[p].request, event);
    NoteProcs(s, p, event, pc);
    assert ProcOk(s, p);
    forall k | 0 <= k < |t.rows| ensures RowOk(t, k) {
      assert RowOk(s, k);
      OwnRowIs(s.rows, k);
    }
    NoteLogged(s, p, event, pc);
  }

  lemma NoteFor(s: State, t: State, q: Request, event: Event)
    requires t.log == s.log + [Entry(q, event)]
    ensures forall r: Request :: For(t.log, r) == For(s.log, r) + (if r == q then [event] else [])
  {
    forall r: Request ensures For(t.log, r) == For(s.log, r) + (if r == q then [event] else []) {
      ForAppend(s.log, Entry(q, event), r);
    }
  }

  lemma NoteProcs(s: State, p: nat, event: Event, pc: Pc)
    requires Inv(s) && p < |s.procs| && s.procs[p].claimed
    requires NextOnPath(s.procs[p].request, p, s.procs[p].pc, event, pc)
    ensures forall r :: 0 <= r < |s.procs| ==> ProcOk(Note(s, p, event, pc), r)
  {
    var t := Note(s, p, event, pc);
    NoteFor(s, t, s.procs[p].request, event);
    forall r | 0 <= r < |t.procs| ensures ProcOk(t, r) {
      assert ProcOk(s, r);
      if r == p && OnPath(pc) {
        var events, trail := For(s.log, s.procs[p].request), Trail(p, s.procs[p].pc);
        if Story(events, trail) {
          LongerStory(events, trail, event);
        }
      }
    }
  }

  lemma NoteLogged(s: State, p: nat, event: Event, pc: Pc)
    requires Inv(s) && p < |s.procs| && s.procs[p].claimed
    requires NextOnPath(s.procs[p].request, p, s.procs[p].pc, event, pc)
    ensures StartedOnce(Note(s, p, event, pc))
    ensures forall j :: 0 <= j < |s.log| + 1 ==> Logged(Note(s, p, event, pc), j)
  {
    var t := Note(s, p, event, pc);
    assert ProcOk(s, p);
    forall j | 0 <= j < |t.log| ensures Logged(t, j) {
      if j < |s.log| {
        assert Logged(s, j);
      }
    }
    if event.PatchStarted? {
      forall j | 0 <= j < |s.log| && s.log[j].event.PatchStarted?
        ensures s.log[j].request != s.procs[p].request
      {
        assert Logged(s, j);
      }
    }
  }

  // ---- steps that rewrite a row -----------------------------------------

  /** Process `p` rewrites row `k`, its own request's, and logs the move. */
  ghost predicate Rewrites(s: State, t: State, p: nat, k: nat, row: Row, x: Proc, event: Event) {
    && p < |s.procs| && k < |s.rows| && OwnRow(s.rows, x.request) == Some(k)
    && x.request == s.procs[p].request && (s.procs[p].claimed ==> x.claimed && !x.pc.Patching?)
    && row.id == s.rows[k].id && row.digest == s.rows[k].digest && !event.PatchStarted?
    && t == State(s.rows[k := row], s.procs[p := x], s.log + [Entry(x.request, event)])
    && JournalOk(t.rows)
  }

  predicate Unaffected(other: Proc, row: Row, x: Proc) {
    row.lifecycle.Uncertain? || other.request != x.request || !other.claimed
  }

  lemma RewriteReads(s: State, t: State, p: nat, k: nat, row: Row, x: Proc, event: Event)
    requires JournalOk(s.rows) && Rewrites(s, t, p, k, row, x, event)
    ensures forall r: Request :: For(t.log, r) == For(s.log, r) + (if r == x.request then [event] else [])
    ensures forall r: Request :: OwnRow(t.rows, r) == OwnRow(s.rows, r)
  {
    forall r: Request ensures For(t.log, r) == For(s.log, r) + (if r == x.request then [event] else []) {
      ForAppend(s.log, Entry(x.request, event), r);
    }
    forall r: Request ensures OwnRow(t.rows, r) == OwnRow(s.rows, r) {
      OwnRowRewrite(s.rows, k, row, r);
    }
  }

  lemma RewriteRows(s: State, t: State, p: nat, k: nat, row: Row, x: Proc, event: Event)
    requires Inv(s) && Rewrites(s, t, p, k, row, x, event)
    ensures forall i :: 0 <= i < |t.rows| && i != k ==> RowOk(t, i)
    ensures StartedOnce(t)
  {
    RewriteReads(s, t, p, k, row, x, event);
    forall i | 0 <= i < |t.rows| && i != k ensures RowOk(t, i) {
      assert RowOk(s, i);
      OwnRowIs(s.rows, i);
    }
  }

  lemma RewriteFrame(s: State, t: State, p: nat, k: nat, row: Row, x: Proc, event: Event)
    requires Inv(s) && Rewrites(s, t, p, k, row, x, event)
    ensures forall r: Request :: For(t.log, r) == For(s.log, r) + (if r == x.request then [event] else [])
    ensures forall r: Request :: OwnRow(t.rows, r) == OwnRow(s.rows, r)
    ensures forall i :: 0 <= i < |t.rows| && i != k ==> RowOk(t, i)
    ensures forall r :: 0 <= r < |t.procs| && r != p && Unaffected(s.procs[r], row, x) ==> ProcOk(t, r)
    ensures StartedOnce(t)
  {
    RewriteReads(s, t, p, k, row, x, event);
    RewriteRows(s, t, p, k, row, x, event);
    forall r | 0 <= r < |t.procs| && r != p && Unaffected(s.procs[r], row, x) ensures ProcOk(t, r) {
      assert ProcOk(s, r);
      OtherStands(s, t, p, r, k, row, x, event);
    }
  }

  lemma OtherStands(s: State, t: State, p: nat, r: nat, k: nat, row: Row, x: Proc, event: Event)
    requires Rewrites(s, t, p, k, row, x, event) && r < |s.procs| && r != p && ProcOk(s, r)
    requires Unaffected(s.procs[r], row, x)
    requires forall q: Request :: OwnRow(t.rows, q) == OwnRow(s.rows, q)
    requires forall q: Request :: For(t.log, q) == For(s.log, q) + (if q == x.request then [event] else [])
    ensures ProcOk(t, r)
  {
  }

  lemma RewriteLogged(s: State, t: State, p: nat, k: nat, row: Row, x: Proc, event: Event)
    requires Inv(s) && Rewrites(s, t, p, k, row, x, event)
    ensures forall j :: 0 <= j < |t.log| ==> Logged(t, j)
  {
    RewriteReads(s, t, p, k, row, x, event);
    forall j | 0 <= j < |t.log| ensures Logged(t, j) {
      if j < |s.log| {
        assert Logged(s, j);
      }
    }
  }

  /** The owner moves its row on. */
  predicate OwnerMove(q: Request, p: nat, from: Pc, m: Move, to: Pc) {
    && OwnerPoint(q, to) && Conforming(m)
    && m.expected in {Applying, Applied, Gating} && Expected(from) == Some(m.expected)
    && !m.target.Applying? && !m.target.Prepared?
    && (if m.target.Uncertain? then to.Raised? else Expected(to) == Some(m.target) && !to.Patching?)
    && (OnPath(to) ==> OnPath(from) && (from.CheckIntegrity? ==> from.results != [])
                       && Trail(p, to) == Trail(p, from) + [MovedTo(p, m.expected, m.target)])
    && (m.receipt.Some? ==> ReceiptValid(m.receipt.value))
    && (m.target.Accepted? ==> from.WriteAccepted? && AllPassing(q, from.results)
                               && m.receipt == Some(AcceptedReceipt(q, from.truth, from.results)))
  }

  /** A rewrite keeps the invariant once its own row and process are in order. */
  lemma RewriteKeepsInv(s: State, t: State, p: nat, k: nat, row: Row, x: Proc, event: Event)
    requires Inv(s) && Rewrites(s, t, p, k, row, x, event) && RowOk(t, k) && ProcOk(t, p)
    requires forall r :: 0 <= r < |s.procs| && r != p && s.procs[r].request == x.request ==> !s.procs[r].claimed
    ensures Inv(t)
  {
    RewriteFrame(s, t, p, k, row, x, event);
    RewriteLogged(s, t, p, k, row, x, event);
    forall r | 0 <= r < |t.procs| ensures ProcOk(t, r) {
      assert r != p ==> Unaffected(s.procs[r], row, x);
    }
  }

  /** A successful move rewrites the process's own row and nothing else. */
  lemma WriteRewrites(s: State, p: nat, m: Move, to: Pc, k: nat)
    requires Inv(s) && p < |s.procs| && Conforming(m) && OwnRow(s.rows, s.procs[p].request) == Some(k)
    requires Transition(s.rows, s.procs[p].request, m).1.Ok?
    requires s.procs[p].claimed ==> !to.Patching?
    ensures var x := s.procs[p];
      var y := x.(pc := to, claimed := x.claimed || m.target.Applying?);
      && Write(s, p, m, to).procs[p] == y && Write(s, p, m, to).rows[k] == Moved(s.rows[k], m)
      && s.rows[k].lifecycle == m.expected
      && Rewrites(s, Write(s, p, m, to), p, k, Moved(s.rows[k], m), y, MovedTo(p, m.expected, m.target))
  {
    TransitionKeeps(s.rows, s.procs[p].request, m);
  }

  lemma OwnerWriteKeeps(s: State, p: nat, m: Move, to: Pc)
    requires Inv(s) && p < |s.procs| && s.procs[p].claimed
    requires OwnerMove(s.procs[p].request, p, s.procs[p].pc, m, to)
    ensures Inv(Write(s, p, m, to))
  {
    var x := s.procs[p];
    assert ProcOk(s, p);
    if Transition(s.rows, x.request, m).1.Err? {
      GotoKeeps(s, p, Raised);
    } else {
      var k := OwnRow(s.rows, x.request).value;
      var after, event := Write(s, p, m, to), MovedTo(p, m.expected, m.target);
      WriteRewrites(s, p, m, to, k);
      RewriteReads(s, after, p, k, Moved(s.rows[k], m), after.procs[p], event);
      OwnerRowAfter(x, p, m, to, k, s.rows[k], after, For(s.log, x.request));
      RewriteKeepsInv(s, after, p, k, Moved(s.rows[k], m), after.procs[p], event);
    }
  }

  lemma OwnerRowAfter(x: Proc, p: nat, m: Move, to: Pc, k: nat, row: Row, after: State, events: seq<Event>)
    requires x.claimed && OwnerPoint(x.request, x.pc) && OwnerMove(x.request, p, x.pc, m, to)
    requires OnPath(x.pc) ==> Story(events, Trail(p, x.pc))
    requires p < |after.procs| && after.procs[p] == x.(pc := to)
    requires k < |after.rows| && after.rows[k] == Moved(row, m) && row.digest == x.request
    requires OwnRow(after.rows, x.request) == Some(k)
    requires For(after.log, x.request) == events + [MovedTo(p, m.expected, m.target)]
    ensures RowOk(after, k) && ProcOk(after, p)
  {
    if m.target.Accepted? {
      assert x.pc == WriteAccepted(x.pc.truth, x.pc.results);
      AcceptedRowOk(after, k, p, events, x.pc.truth, x.pc.results);
    }
    if OnPath(to) {
      LongerStory(events, Trail(p, x.pc), MovedTo(p, m.expected, m.target));
    }
    OwnerStands(after, p, k);
  }

  lemma AcceptedRowOk(after: State, k: nat, p: nat, events: seq<Event>, truth: Truth, results: seq<GateExit>)
    requires k < |after.rows| && after.rows[k].lifecycle.Accepted?
    requires after.rows[k].receipt == Some(AcceptedReceipt(after.rows[k].digest, truth, results))
    requires AllPassing(after.rows[k].digest, results) && ReceiptValid(after.rows[k].receipt.value)
    requires Story(events, Trail(p, WriteAccepted(truth, results)))
    requires For(after.log, after.rows[k].digest) == events + [MovedTo(p, Gating, Accepted)]
    ensures RowOk(after, k)
  {
    AcceptStory(events, p, truth, results);
    assert AcceptedOk(after.rows[k], For(after.log, after.rows[k].digest));
  }

  lemma OwnerStands(after: State, p: nat, k: nat)
    requires p < |after.procs| && after.procs[p].claimed && k < |after.rows|
    requires var x := after.procs[p];
      && OwnerPoint(x.request, x.pc) && OwnRow(after.rows, x.request) == Some(k)
      && !after.rows[k].lifecycle.Prepared?
      && (after.rows[k].lifecycle.Uncertain?
          || (Expected(x.pc) == Some(after.rows[k].lifecycle)
              && (OnPath(x.pc) ==> Story(For(after.log, x.request), Trail(p, x.pc)))))
    ensures ProcOk(after, p)
  {
  }

  lemma LongerStory(events: seq<Event>, trail: seq<Event>, event: Event)
    requires Story(events, trail)
    ensures Story(events + [event], trail + [event])
  {
    assert (events + [event])[1..] == events[1..] + [event];
  }

  lemma AcceptStory(events: seq<Event>, p: nat, truth: Truth, results: seq<GateExit>)
    requires Story(events, Trail(p, WriteAccepted(truth, results)))
    ensures var more := events + [MovedTo(p, Gating, Accepted)];
      && Story(more, AcceptedTrail(p, truth, results))
      && |more| >= 2 && more[1] == MovedTo(p, Prepared, Applying)
  {
    var trail, last := Trail(p, WriteAccepted(truth, results)), MovedTo(p, Gating, Accepted);
    LongerStory(events, trail, last);
    assert trail + [last] == AcceptedTrail(p, truth, results);
    assert AcceptedTrail(p, truth, results)[0] == MovedTo(p, Prepared, Applying);
    assert (events + [last])[1..][0] == (events + [last])[1];
  }

  /** A process that owns nothing moves a prepared row, and may become its owner. */
  predicate ClaimantMove(m: Move, to: Pc) {
    && Conforming(m) && m.expected.Prepared? && m.target in {Applying, Cancelled, Uncertain}
    && (m.receipt.Some? ==> ReceiptValid(m.receipt.value))
    && (if m.target.Applying? then to.Patching? else BeforeClaim(to))
  }

  lemma ClaimantWriteKeeps(s: State, p: nat, m: Move, to: Pc)
    requires Inv(s) && p < |s.procs| && !s.procs[p].claimed && ClaimantMove(m, to)
    ensures Inv(Write(s, p, m, to))
  {
    var x := s.procs[p];
    assert ProcOk(s, p);
    if Transition(s.rows, x.request, m).1.Err? {
      GotoKeeps(s, p, Raised);
    } else {
      var k := OwnRow(s.rows, x.request).value;
      var after, event := Write(s, p, m, to), MovedTo(p, m.expected, m.target);
      WriteRewrites(s, p, m, to, k);
      RewriteReads(s, after, p, k, Moved(s.rows[k], m), after.procs[p], event);
      NoOwnerYet(s, x.request, k);
      assert RowOk(s, k);
      assert (For(s.log, x.request) + [event])[1..] == [event];
      RewriteKeepsInv(s, after, p, k, Moved(s.rows[k], m), after.procs[p], event);
    }
  }

  lemma NoOwnerYet(s: State, q: Request, k: nat)
    requires Inv(s) && OwnRow(s.rows, q) == Some(k) && s.rows[k].lifecycle.Prepared?
    ensures forall r :: 0 <= r < |s.procs| && s.procs[r].request == q ==> !s.procs[r].claimed
  {
    forall r | 0 <= r < |s.procs| && s.procs[r].request == q ensures !s.procs[r].claimed {
      assert ProcOk(s, r);
    }
  }

  // ---- prepare ----------------------------------------------------------

  lemma PrepareStepKeeps(s: State, p: nat)
    requires Inv(s) && p < |s.procs| && !s.procs[p].claimed
    ensures Inv(PrepareStep(s, p))
  {
    var x := s.procs[p];
    var t := Prepare(s.rows, x.request);
    PrepareKeeps(s.rows, x.request);
    if t.0 == s.rows {
      GotoKeeps(s, p, AfterPrepare(x, t.1));
    } else if |t.0| > |s.rows| {
      InsertKeeps(s, p);
    } else {
      ReenterKeeps(s, p);
    }
  }

  lemma ReenterKeeps(s: State, p: nat)
    requires Inv(s) && p < |s.procs| && !s.procs[p].claimed
    requires |Prepare(s.rows, s.procs[p].request).0| == |s.rows| && Prepare(s.rows, s.procs[p].request).0 != s.rows
    ensures Inv(PrepareStep(s, p))
  {
    var x := s.procs[p];
    var after := PrepareStep(s, p);
    PrepareKeeps(s.rows, x.request);
    var k := OwnRow(s.rows, x.request).value;
    var row, y := Interrupt(s.rows[k]), after.procs[p];
    assert Rewrites(s, after, p, k, row, y, Reentered(p));
    RewriteFrame(s, after, p, k, row, y, Reentered(p));
    RewriteLogged(s, after, p, k, row, y, Reentered(p));
    assert after.rows[k] == row;
    forall r | 0 <= r < |after.procs| ensures ProcOk(after, r) {
      assert r != p ==> Unaffected(s.procs[r], row, y);
    }
  }

  lemma InsertKeeps(s: State, p: nat)
    requires Inv(s) && p < |s.procs| && !s.procs[p].claimed
    requires |Prepare(s.rows, s.procs[p].request).0| > |s.rows|
    ensures Inv(PrepareStep(s, p))
  {
    var q := s.procs[p].request;
    var t := PrepareStep(s, p);
    PrepareKeeps(s.rows, q);
    FirstOfItsRequest(s, q);
    InsertFrame(s, t, p, q);
    InsertProcs(s, t, p, q);
    forall j | 0 <= j < |t.log| ensures Logged(t, j) {
      if j < |s.log| {
        assert Logged(s, j);
      }
    }
  }

  lemma InsertProcs(s: State, t: State, p: nat, q: Request)
    requires Inv(s) && p < |s.procs| && !s.procs[p].claimed && OwnRow(s.rows, q).None?
    requires |t.procs| == |s.procs| && t.rows == s.rows + [NewRow(q)]
    requires forall r :: 0 <= r < |s.procs| && r != p ==> t.procs[r] == s.procs[r]
    requires !t.procs[p].claimed && BeforeClaim(t.procs[p].pc)
    requires forall r: Request :: For(t.log, r) == For(s.log, r) + (if r == q then [Inserted(p)] else [])
    requires forall r: Request :: OwnRow(s.rows, r).Some? ==> OwnRow(t.rows, r) == OwnRow(s.rows, r)
    ensures forall r :: 0 <= r < |t.procs| ==> ProcOk(t, r)
  {
    forall r | 0 <= r < |t.procs| ensures ProcOk(t, r) {
      assert ProcOk(s, r);
    }
  }

  /** A new row at the end and one log entry for it: everything else reads as before. */
  lemma InsertFrame(s: State, t: State, p: nat, q: Request)
    requires Inv(s) && JournalOk(t.rows) && t.rows == s.rows + [NewRow(q)]
    requires t.log == s.log + [Entry(q, Inserted(p))] && For(s.log, q) == [] && OwnRow(s.rows, q).None?
    ensures forall r: Request :: For(t.log, r) == For(s.log, r) + (if r == q then [Inserted(p)] else [])
    ensures forall r: Request :: OwnRow(s.rows, r).Some? ==> OwnRow(t.rows, r) == OwnRow(s.rows, r)
    ensures OwnRow(t.rows, q).Some?
    ensures forall k :: 0 <= k < |t.rows| ==> RowOk(t, k)
  {
    forall r: Request ensures For(t.log, r) == For(s.log, r) + (if r == q then [Inserted(p)] else [])
                      ensures OwnRow(s.rows, r).Some? ==> OwnRow(t.rows, r) == OwnRow(s.rows, r)
    {
      ForAppend(s.log, Entry(q, Inserted(p)), r);
      OwnRowAppend(s.rows, NewRow(q), r);
    }
    OwnRowIs(t.rows, |s.rows|);
    forall k | 0 <= k < |t.rows| ensures RowOk(t, k) {
      if k < |s.rows| {
        assert RowOk(s, k);
        OwnRowIs(s.rows, k);
      }
    }
  }

  lemma FirstOfItsRequest(s: State, q: Request)
    requires Inv(s) && FindRow(s.rows, q.id).None?
    ensures For(s.log, q) == [] && OwnRow(s.rows, q).None?
  {
    forall j | 0 <= j < |s.log| ensures s.log[j].request != q {
      assert Logged(s, j);
    }
    ForUnlogged(s.log, q);
  }

  // ---- receipts ---------------------------------------------------------

  lemma FailureReceiptsAreValid(q: Request, truth: Truth, code: string, gates: seq<GateExit>)
    ensures ReceiptValid(PatchErrorReceipt(q, code)) && PatchErrorReceipt(q, code).lifecycle in {Failed, Cancelled}
    ensures ReceiptValid(GateErrorReceipt(q, truth, code, gates))
    ensures GateErrorReceipt(q, truth, code, gates).lifecycle in {Failed, Cancelled}
    ensures ReceiptValid(BuildReceipt(q, Cancelled, "cancelled", None, []))
  {
  }

  /** Acceptance builds a valid receipt because every lane that has gates has at least one. */
  lemma AcceptedReceiptIsValid(q: Request, truth: Truth, results: seq<GateExit>)
    requires AllPassing(q, results)
    ensures ReceiptValid(AcceptedReceipt(q, truth, results))
  {
    var commands := Commands(q.target.lane).value;
    assert |commands| > 0;
    forall i | 0 <= i < |results| ensures results[i].state.Passed? {
      assert PassedAs(results[i], commands[i]);
    }
  }

  // ---- every step -------------------------------------------------------

  lemma InitialInv()
    ensures Inv(INITIAL)
  {
  }

  lemma SpawnKeeps(s: State, q: Request, targetExists: bool)
    requires Inv(s)
    ensures Inv(Do(s, Spawn(q, targetExists)))
  {
    var t := Do(s, Spawn(q, targetExists));
    forall p | 0 <= p < |t.procs| ensures ProcOk(t, p) {
      if p < |s.procs| {
        assert ProcOk(s, p);
      }
    }
    forall k | 0 <= k < |t.rows| ensures RowOk(t, k) {
      assert RowOk(s, k);
    }
    forall j | 0 <= j < |t.log| ensures Logged(t, j) {
      assert Logged(s, j);
    }
  }

  lemma CrashKeeps(s: State, p: nat)
    requires Inv(s)
    ensures Inv(Do(s, Crash(p)))
  {
    var t := Do(s, Crash(p));
    forall r | 0 <= r < |t.procs| ensures ProcOk(t, r) {
      assert ProcOk(s, r);
    }
    forall k | 0 <= k < |t.rows| ensures RowOk(t, k) {
      assert RowOk(s, k);
    }
    forall j | 0 <= j < |t.log| ensures Logged(t, j) {
      assert Logged(s, j);
    }
  }

  lemma EnsureMainKeeps(s: State, p: nat, a: Answer, expected: Lifecycle, next: Pc)
    requires Inv(s) && p < |s.procs|
    requires if s.procs[p].claimed
             then Expected(s.procs[p].pc) == Some(expected) && expected in {Applying, Gating} && !s.procs[p].pc.Raised?
                  && NextOnPath(s.procs[p].request, p, s.procs[p].pc, MainUnchanged(p), next)
             else expected.Prepared? && BeforeClaim(next)
    ensures Inv(EnsureMain(s, p, a, expected, next))
  {
    if !a.Yes? {
      GotoKeeps(s, p, MarkUncertain(expected));
    } else if expected.Prepared? {
      GotoKeeps(s, p, next);
    } else {
      NoteKeeps(s, p, MainUnchanged(p), next);
    }
  }

  lemma UnownedStepKeeps(s: State, p: nat, a: Answer)
    requires Inv(s) && p < |s.procs| && !s.procs[p].claimed
    ensures Inv(Advance(s, p, a))
  {
    var q := s.procs[p].request;
    assert ProcOk(s, p);
    match s.procs[p].pc {
      case Begin =>
        ReadTerminalKeeps(s, p);
      case Ready =>
        PrepareStepKeeps(s, p);
        GotoKeeps(s, p, Raised);
      case CreatingWorktree =>
        GotoKeeps(s, p, if a.Yes? then MainAfterCreate else MarkUncertain(Prepared));
      case MainAfterCreate =>
        EnsureMainKeeps(s, p, a, Prepared, CancelPoll);
      case CancelPoll =>
        GotoKeeps(s, p, if a.Yes? then MainBeforeCancel else CheckAuthority);
      case MainBeforeCancel =>
        EnsureMainKeeps(s, p, a, Prepared, WriteCancelled);
      case WriteCancelled =>
        var receipt := BuildReceipt(q, Cancelled, "cancelled", None, []);
        ClaimantWriteKeeps(s, p, WithReceipt(Prepared, receipt), Returned(receipt));
      case CheckAuthority =>
        GotoKeeps(s, p, if a.Yes? then Claim else Raised);
      case Claim =>
        ClaimantWriteKeeps(s, p, Plain(Prepared, Applying), Patching);
      case MarkUncertain(expected) =>
        ClaimantWriteKeeps(s, p, ToUncertain(Prepared), Raised);
      case _ =>
    }
  }

  lemma ReadTerminalKeeps(s: State, p: nat)
    requires Inv(s) && p < |s.procs| && !s.procs[p].claimed
    ensures Inv(ReadTerminal(s, p))
  {
    var r := TerminalReceipt(s.rows, s.procs[p].request);
    if r.Err? {
      GotoKeeps(s, p, Raised);
    } else if r.value.Some? {
      GotoKeeps(s, p, Returned(r.value.value));
    } else {
      GotoKeeps(s, p, Ready);
    }
  }

  lemma PatchStepKeeps(s: State, p: nat, a: Answer)
    requires Inv(s) && p < |s.procs| && s.procs[p].claimed && s.procs[p].pc.PatchRunning?
    ensures Inv(PatchStep(s, p, a))
  {
    if a.Landed? {
      assert Landing(p, a.truth) == Trail(p, PatchRunning) + [PatchLanded(p, a.truth)];
      NoteKeeps(s, p, PatchLanded(p, a.truth), MainAfterPatch(a.truth));
    } else if a.PatchError? && a.code == "interrupted" {
      GotoKeeps(s, p, MarkUncertain(Applying));
    } else if a.PatchError? {
      FailureReceiptsAreValid(s.procs[p].request, Truth("", "", ""), a.code, []);
      NoteKeeps(s, p, PatchFailed(p), MainAfterFailure(PatchErrorReceipt(s.procs[p].request, a.code)));
    }
  }

  lemma PatchedStepKeeps(s: State, p: nat, a: Answer)
    requires Inv(s) && p < |s.procs| && s.procs[p].claimed
    requires s.procs[p].pc.MainAfterPatch? || s.procs[p].pc.WriteApplied?
    ensures Inv(Advance(s, p, a))
  {
    assert ProcOk(s, p);
    var truth := s.procs[p].pc.truth;
    if s.procs[p].pc.MainAfterPatch? {
      EnsureMainKeeps(s, p, a, Applying, WriteApplied(truth));
    } else {
      assert Landing(p, truth) + [MainUnchanged(p), MovedTo(p, Applying, Applied)]
          == Landing(p, truth) + [MainUnchanged(p)] + [MovedTo(p, Applying, Applied)];
      OwnerWriteKeeps(s, p, Plain(Applying, Applied), RecheckAuthority(truth));
    }
  }

  lemma PatchingStepKeeps(s: State, p: nat, a: Answer)
    requires Inv(s) && p < |s.procs| && s.procs[p].claimed && Expected(s.procs[p].pc) == Some(Applying)
    ensures Inv(Advance(s, p, a))
  {
    assert ProcOk(s, p);
    match s.procs[p].pc {
      case Patching =>
        NoteKeeps(s, p, PatchStarted(p), PatchRunning);
      case PatchRunning =>
        PatchStepKeeps(s, p, a);
      case MainAfterFailure(receipt) =>
        EnsureMainKeeps(s, p, a, Applying, WriteFailure(receipt));
      case WriteFailure(receipt) =>
        OwnerWriteKeeps(s, p, WithReceipt(Applying, receipt), Returned(receipt));
      case MainAfterPatch(_) =>
        PatchedStepKeeps(s, p, a);
      case WriteApplied(_) =>
        PatchedStepKeeps(s, p, a);
      case MarkUncertain(expected) =>
        OwnerWriteKeeps(s, p, ToUncertain(expected), Raised);
      case _ =>
    }
  }

  lemma AppliedStepKeeps(s: State, p: nat, a: Answer)
    requires Inv(s) && p < |s.procs| && s.procs[p].claimed && Expected(s.procs[p].pc) == Some(Applied)
    ensures Inv(Advance(s, p, a))
  {
    assert ProcOk(s, p);
    match s.procs[p].pc {
      case RecheckAuthority(truth) =>
        if a.Yes? {
          assert Trail(p, WriteGating(truth)) == Trail(p, RecheckAuthority(truth)) + [AuthorityHeld(p)];
          NoteKeeps(s, p, AuthorityHeld(p), WriteGating(truth));
        } else {
          GotoKeeps(s, p, MarkUncertain(Applied));
        }
      case WriteGating(truth) =>
        assert UpToGates(p, truth) == Trail(p, WriteGating(truth)) + [MovedTo(p, Applied, Gating)];
        OwnerWriteKeeps(s, p, Plain(Applied, Gating), RunGates(truth, []));
      case MarkUncertain(expected) =>
        OwnerWriteKeeps(s, p, ToUncertain(expected), Raised);
      case _ =>
    }
  }

  lemma GatePassedKeeps(s: State, p: nat, truth: Truth, results: seq<GateExit>, result: GateExit)
    requires Inv(s) && p < |s.procs| && s.procs[p].claimed && s.procs[p].pc == RunGates(truth, results)
    requires Commands(s.procs[p].request.target.lane).Some?
    requires |results| < |Commands(s.procs[p].request.target.lane).value|
    requires PassedAs(result, Commands(s.procs[p].request.target.lane).value[|results|])
    ensures Inv(Note(s, p, GateRan(p, result), CheckIntegrity(truth, results + [result])))
  {
    assert ProcOk(s, p);
    assert (results + [result])[..|results|] == results;
    NoteKeeps(s, p, GateRan(p, result), CheckIntegrity(truth, results + [result]));
  }

  lemma GateStepKeeps(s: State, p: nat, a: Answer, truth: Truth, results: seq<GateExit>)
    requires Inv(s) && p < |s.procs| && s.procs[p].claimed && s.procs[p].pc == RunGates(truth, results)
    ensures Inv(GateStep(s, p, a, truth, results))
  {
    var q := s.procs[p].request;
    assert ProcOk(s, p);
    var commands := Commands(q.target.lane);
    if commands.None? {
      GotoKeeps(s, p, Raised);
    } else if |results| >= |commands.value| {
      GotoKeeps(s, p, FinalIntegrity(truth, results));
    } else if a.GateTurn? {
      var v := RunOne(commands.value[|results|], a.turn);
      if v.GateUnrecordable? {
        GotoKeeps(s, p, Raised);
      } else if v.GatePassed? {
        PassesExactlyWhen(commands.value[|results|], a.turn);
        GatePassedKeeps(s, p, truth, results, v.result);
      } else {
        GateStoppedKeeps(s, p, truth, v.code, if v.recorded.Some? then results + [v.recorded.value] else results);
      }
    }
  }

  lemma GateStoppedKeeps(s: State, p: nat, truth: Truth, code: string, gates: seq<GateExit>)
    requires Inv(s) && p < |s.procs| && s.procs[p].claimed && s.procs[p].pc.RunGates?
    ensures Inv(Goto(s, p, MainAfterGateError(GateErrorReceipt(s.procs[p].request, truth, code, gates))))
  {
    FailureReceiptsAreValid(s.procs[p].request, truth, code, gates);
    GotoKeeps(s, p, MainAfterGateError(GateErrorReceipt(s.procs[p].request, truth, code, gates)));
  }

  lemma IntegrityStepKeeps(s: State, p: nat, truth: Truth, results: seq<GateExit>)
    requires Inv(s) && p < |s.procs| && s.procs[p].claimed && s.procs[p].pc == CheckIntegrity(truth, results)
    ensures Inv(Note(s, p, IntegrityHeld(p), RunGates(truth, results)))
  {
    assert ProcOk(s, p);
    var n := |results| - 1;
    assert GateTrail(p, results) == GateTrail(p, results[..n]) + [GateRan(p, results[n])] + [IntegrityHeld(p)];
    NoteKeeps(s, p, IntegrityHeld(p), RunGates(truth, results));
  }

  lemma AcceptStepKeeps(s: State, p: nat, a: Answer)
    requires Inv(s) && p < |s.procs| && s.procs[p].claimed
    requires s.procs[p].pc.FinalIntegrity? || s.procs[p].pc.MainBeforeAccept? || s.procs[p].pc.WriteAccepted?
    ensures Inv(Advance(s, p, a))
  {
    var q := s.procs[p].request;
    assert ProcOk(s, p);
    match s.procs[p].pc {
      case FinalIntegrity(truth, results) =>
        if a.Yes? {
          NoteKeeps(s, p, FinalIntegrityHeld(p), MainBeforeAccept(truth, results));
        } else {
          GotoKeeps(s, p, MarkUncertain(Gating));
        }
      case MainBeforeAccept(truth, results) =>
        assert Trail(p, WriteAccepted(truth, results))
            == Trail(p, MainBeforeAccept(truth, results)) + [MainUnchanged(p)];
        EnsureMainKeeps(s, p, a, Gating, WriteAccepted(truth, results));
      case WriteAccepted(truth, results) =>
        var receipt := AcceptedReceipt(q, truth, results);
        AcceptedReceiptIsValid(q, truth, results);
        OwnerWriteKeeps(s, p, WithReceipt(Gating, receipt), Returned(receipt));
    }
  }

  lemma GatingStepKeeps(s: State, p: nat, a: Answer)
    requires Inv(s) && p < |s.procs| && s.procs[p].claimed && Expected(s.procs[p].pc) == Some(Gating)
    requires !s.procs[p].pc.FinalIntegrity? && !s.procs[p].pc.MainBeforeAccept? && !s.procs[p].pc.WriteAccepted?
    ensures Inv(Advance(s, p, a))
  {
    assert ProcOk(s, p);
    match s.procs[p].pc {
      case RunGates(truth, results) =>
        GateStepKeeps(s, p, a, truth, results);
      case CheckIntegrity(truth, results) =>
        if a.Yes? {
          IntegrityStepKeeps(s, p, truth, results);
        } else {
          GotoKeeps(s, p, MarkUncertain(Gating));
        }
      case _ =>
        GateErrorStepKeeps(s, p, a);
    }
  }

  lemma GateErrorStepKeeps(s: State, p: nat, a: Answer)
    requires Inv(s) && p < |s.procs| && s.procs[p].claimed && Expected(s.procs[p].pc) == Some(Gating)
    requires !OnPath(s.procs[p].pc)
    ensures Inv(Advance(s, p, a))
  {
    assert ProcOk(s, p);
    match s.procs[p].pc {
      case MainAfterGateError(receipt) =>
        EnsureMainKeeps(s, p, a, Gating, WriteGateError(receipt));
      case WriteGateError(receipt) =>
        OwnerWriteKeeps(s, p, WithReceipt(Gating, receipt), Returned(receipt));
      case MarkUncertain(expected) =>
        OwnerWriteKeeps(s, p, ToUncertain(expected), Raised);
      case _ =>
    }
  }

  /** Whatever happens next, the invariant holds after it. */
  lemma StepKeeps(s: State, action: Action)
    requires Inv(s)
    ensures Inv(Do(s, action))
  {
    match action {
      case Spawn(q, targetExists) => SpawnKeeps(s, q, targetExists);
      case Crash(p) => CrashKeeps(s, p);
      case Act(p, a) =>
        if p < |s.procs| && s.procs[p].alive {
          assert ProcOk(s, p);
          if !s.procs[p].claimed {
            UnownedStepKeeps(s, p, a);
          } else if Expected(s.procs[p].pc) == Some(Applying) {
            PatchingStepKeeps(s, p, a);
          } else if Expected(s.procs[p].pc) == Some(Applied) {
            AppliedStepKeeps(s, p, a);
          } else if s.procs[p].pc.FinalIntegrity? || s.procs[p].pc.MainBeforeAccept? || s.procs[p].pc.WriteAccepted? {
            AcceptStepKeeps(s, p, a);
          } else if Expected(s.procs[p].pc) == Some(Gating) {
            GatingStepKeeps(s, p, a);
          }
        }
    }
  }

  lemma {:induction false} RunKeeps(s: State, actions: seq<Action>)
    requires Inv(s)
    ensures Inv(Run(s, actions))
    decreases |actions|
  {
    if actions != [] {
      StepKeeps(s, actions[0]);
      RunKeeps(Do(s, actions[0]), actions[1..]);
    }
  }

  // ---- what follows for every run ---------------------------------------

  /** However many processes serve one request id, its patch is started at most once. */
  lemma PatchStartsAtMostOnce(actions: seq<Action>, i: nat, j: nat)
    requires i < j < |Run(INITIAL, actions).log|
    requires Run(INITIAL, actions).log[i].event.PatchStarted? && Run(INITIAL, actions).log[j].event.PatchStarted?
    ensures Run(INITIAL, actions).log[i].request.id != Run(INITIAL, actions).log[j].request.id
  {
    var s := Run(INITIAL, actions);
    InitialInv();
    RunKeeps(INITIAL, actions);
    assert Logged(s, i) && Logged(s, j);
  }

  /** No two active rows ever share an issue or a worktree. */
  lemma ActiveRowsAreDisjoint(actions: seq<Action>)
    ensures Exclusive(Run(INITIAL, actions).rows) && UniqueIds(Run(INITIAL, actions).rows)
  {
    InitialInv();
    RunKeeps(INITIAL, actions);
  }

  /**
   * An accepted row was taken the whole way by one process: its log is its own
   * insertion and then that path, with no re-entry anywhere, every gate passed
   * in the lane's order and the integrity check after each.
   */
  lemma AcceptanceIsTheWholePath(actions: seq<Action>, k: nat)
    requires k < |Run(INITIAL, actions).rows| && Run(INITIAL, actions).rows[k].lifecycle.Accepted?
    ensures var s := Run(INITIAL, actions);
      var row := s.rows[k];
      && row.receipt.Some? && row.receipt.value.truth.Some?
      && AllPassing(row.digest, row.receipt.value.gates)
      && exists first, owner ::
           For(s.log, row.digest)
             == [Inserted(first)] + AcceptedTrail(owner, row.receipt.value.truth.value, row.receipt.value.gates)
  {
    var s := Run(INITIAL, actions);
    InitialInv();
    RunKeeps(INITIAL, actions);
    assert RowOk(s, k);
    var events, receipt := For(s.log, s.rows[k].digest), s.rows[k].receipt.value;
    var owner := events[1].who;
    assert events == [Inserted(events[0].who)] + AcceptedTrail(owner, receipt.truth.value, receipt.gates);
  }

  /** Rows are never dropped, never return to prepared, and are final once terminal or uncertain. */
  ghost predicate Forward(rows: seq<Row>, later: seq<Row>) {
    && |rows| <= |later|
    && forall k :: 0 <= k < |rows| ==>
         && later[k].digest == rows[k].digest
         && (Terminal(rows[k].lifecycle) || rows[k].lifecycle.Uncertain? ==> later[k] == rows[k])
         && (!rows[k].lifecycle.Prepared? ==> !later[k].lifecycle.Prepared?)
  }

  lemma CallsMoveForward(rows: seq<Row>, q: Request, m: Move)
    ensures Forward(rows, Prepare(rows, q).0)
    ensures Forward(rows, Transition(rows, q, m).0)
  {
  }

  /** What a step does to the rows: nothing, or what one journal call does. */
  ghost predicate OneCall(s: State, q: Request, t: State) {
    || t.rows == s.rows
    || t.rows == Prepare(s.rows, q).0
    || exists m: Move :: t.rows == Transition(s.rows, q, m).0
  }

  lemma WriteIsOneCall(s: State, p: nat, m: Move, next: Pc)
    requires p < |s.procs|
    ensures OneCall(s, s.procs[p].request, Write(s, p, m, next))
  {
    assert Transition(s.rows, s.procs[p].request, m).1.Err? ==> Write(s, p, m, next).rows == s.rows;
  }

  predicate Writes(pc: Pc) {
    || pc.WriteCancelled? || pc.Claim? || pc.WriteFailure? || pc.WriteApplied? || pc.WriteGating?
    || pc.WriteGateError? || pc.WriteAccepted? || pc.MarkUncertain?
  }

  lemma QuietAdvance(s: State, p: nat, a: Answer)
    requires p < |s.procs| && !Writes(s.procs[p].pc)
    ensures Advance(s, p, a).rows == s.rows || Advance(s, p, a).rows == Prepare(s.rows, s.procs[p].request).0
  {
  }

  lemma WritingAdvance(s: State, p: nat, a: Answer)
    requires p < |s.procs| && Writes(s.procs[p].pc)
    ensures exists m, next :: Advance(s, p, a) == Write(s, p, m, next)
  {
    var q := s.procs[p].request;
    match s.procs[p].pc {
      case WriteCancelled =>
        var receipt := BuildReceipt(q, Cancelled, "cancelled", None, []);
        assert Advance(s, p, a) == Write(s, p, WithReceipt(Prepared, receipt), Returned(receipt));
      case Claim => assert Advance(s, p, a) == Write(s, p, Plain(Prepared, Applying), Patching);
      case WriteFailure(r) => assert Advance(s, p, a) == Write(s, p, WithReceipt(Applying, r), Returned(r));
      case WriteApplied(t) => assert Advance(s, p, a) == Write(s, p, Plain(Applying, Applied), RecheckAuthority(t));
      case WriteGating(t) => assert Advance(s, p, a) == Write(s, p, Plain(Applied, Gating), RunGates(t, []));
      case WriteGateError(r) => assert Advance(s, p, a) == Write(s, p, WithReceipt(Gating, r), Returned(r));
      case WriteAccepted(truth, results) =>
        var receipt := AcceptedReceipt(q, truth, results);
        assert Advance(s, p, a) == Write(s, p, WithReceipt(Gating, receipt), Returned(receipt));
      case MarkUncertain(expected) => assert Advance(s, p, a) == Write(s, p, ToUncertain(expected), Raised);
    }
  }

  lemma AdvanceIsOneCall(s: State, p: nat, a: Answer)
    requires p < |s.procs|
    ensures OneCall(s, s.procs[p].request, Advance(s, p, a))
  {
    if Writes(s.procs[p].pc) {
      WritingAdvance(s, p, a);
      var m, next :| Advance(s, p, a) == Write(s, p, m, next);
      WriteIsOneCall(s, p, m, next);
    } else {
      QuietAdvance(s, p, a);
    }
  }

  lemma StepForward(s: State, action: Action)
    ensures Forward(s.rows, Do(s, action).rows)
  {
    if action.Act? && action.p < |s.procs| && s.procs[action.p].alive {
      var q, t := s.procs[action.p].request, Advance(s, action.p, action.answer);
      AdvanceIsOneCall(s, action.p, action.answer);
      CallsMoveForward(s.rows, q, Plain(Prepared, Applying));
      if t.rows != s.rows && t.rows != Prepare(s.rows, q).0 {
        var m: Move :| t.rows == Transition(s.rows, q, m).0;
        CallsMoveForward(s.rows, q, m);
      }
    }
  }

  lemma {:induction false} RunForward(s: State, actions: seq<Action>)
    ensures Forward(s.rows, Run(s, actions).rows)
    decreases |actions|
  {
    if actions != [] {
      StepForward(s, actions[0]);
      RunForward(Do(s, actions[0]), actions[1..]);
    }
  }

  /** Every receipt the service stores is one its own model accepts. */
  lemma StoredReceiptsAreValid(actions: seq<Action>, k: nat)
    requires k < |Run(INITIAL, actions).rows| && Run(INITIAL, actions).rows[k].receipt.Some?
    ensures ReceiptValid(Run(INITIAL, actions).rows[k].receipt.value)
  {
    InitialInv();
    RunKeeps(INITIAL, actions);
    assert RowOk(Run(INITIAL, actions), k);
  }

  lemma ResolvedRowLater(earlier: seq<Action>, later: seq<Action>, k: nat)
    requires var row := Run(INITIAL, earlier).rows;
      k < |row| && (Terminal(row[k].lifecycle) || row[k].lifecycle.Uncertain?)
    ensures JournalOk(Run(Run(INITIAL, earlier), later).rows)
    ensures k < |Run(Run(INITIAL, earlier), later).rows|
    ensures Run(Run(INITIAL, earlier), later).rows[k] == Run(INITIAL, earlier).rows[k]
  {
    var s := Run(INITIAL, earlier);
    InitialInv();
    RunKeeps(INITIAL, earlier);
    RunForward(s, later);
    RunKeeps(s, later);
  }

  /** Every later prepare or receipt read of a finished request gives the stored receipt. */
  lemma ReceiptIsFinal(earlier: seq<Action>, later: seq<Action>, k: nat)
    requires k < |Run(INITIAL, earlier).rows| && Terminal(Run(INITIAL, earlier).rows[k].lifecycle)
    ensures var row := Run(INITIAL, earlier).rows[k];
      var rows := Run(Run(INITIAL, earlier), later).rows;
      && row.receipt.Some?
      && TerminalReceipt(rows, row.digest) == Ok(row.receipt)
      && Prepare(rows, row.digest) == (rows, Ok(row))
  {
    ResolvedRowLater(earlier, later, k);
    ReceiptIsReturned(Run(Run(INITIAL, earlier), later).rows, k);
  }

  /** An uncertain request stays uncertain and refuses every later prepare and read. */
  lemma UncertainIsAbsorbing(earlier: seq<Action>, later: seq<Action>, k: nat)
    requires k < |Run(INITIAL, earlier).rows| && Run(INITIAL, earlier).rows[k].lifecycle.Uncertain?
    ensures var row := Run(INITIAL, earlier).rows[k];
      var rows := Run(Run(INITIAL, earlier), later).rows;
      && k < |rows| && rows[k] == row
      && Prepare(rows, row.digest) == (rows, Err(UncertainRecoveryRequired))
      && TerminalReceipt(rows, row.digest) == Err(UncertainRecoveryRequired)
  {
    ResolvedRowLater(earlier, later, k);
    UncertainRefuses(Run(Run(INITIAL, earlier), later).rows, k);
  }
}
