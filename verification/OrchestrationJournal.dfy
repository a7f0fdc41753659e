/** The orchestration life-cycle table: one row per request, moved by compare-and-set. */
module OrchestrationJournal {
  import opened Wrappers
  import opened OrchestrationGates

  datatype Lifecycle = Prepared | Applying | Applied | Gating | Accepted | Failed | Cancelled | Uncertain

  datatype RowReason = NoReason | Interrupted

  datatype Lane = TinyDocs | DocsGuardrail | TestsOnly | NormalCode | SecurityRuntime | ReleaseCiArchitecture

  /** Scheduler identity that a receipt repeats from its request. */
  datatype Authority = Authority(
    jobId: string, assignmentId: string, ownerId: string, ownerEpoch: nat,
    selectorDigest: string, selectionDigest: string)

  /** The worktree, branch and patch that a receipt repeats from its request. */
  datatype Target = Target(
    worktreePath: string, branch: string, lane: Lane, proposal: string, scopes: seq<string>, base: string)

  /** `unbound` stands for the fields no receipt repeats; they still enter the digest. */
  datatype Request = Request(
    id: string, issue: nat, worktreeId: string, authority: Authority, target: Target, unbound: string)

  /** Head, manifest and diff of the applied patch. */
  datatype Truth = Truth(head: string, manifest: string, diff: string)

  /** A canonical digest is injective, so `digest` holds the request itself. */
  datatype Receipt = Receipt(
    requestId: string, digest: Request, issue: nat, worktreeId: string, authority: Authority, target: Target,
    lifecycle: Lifecycle, reason: string, authoritative: bool, truth: Option<Truth>, gates: seq<GateExit>)

  datatype Row = Row(
    id: string, digest: Request, issue: nat, worktreeId: string,
    lifecycle: Lifecycle, reason: RowReason, receipt: Option<Receipt>)

  datatype JournalError = RequestConflict | UncertainRecoveryRequired | JournalInvalid | AuthorityMismatch

  predicate Active(l: Lifecycle) {
    l in {Prepared, Applying, Applied, Gating, Uncertain}
  }

  predicate Terminal(l: Lifecycle) {
    l in {Accepted, Failed, Cancelled}
  }

  predicate Allowed(expected: Lifecycle, target: Lifecycle) {
    match expected
    case Prepared => target in {Applying, Cancelled, Failed, Uncertain}
    case Applying => target in {Applied, Failed, Cancelled, Uncertain}
    case Applied => target in {Gating, Failed, Cancelled, Uncertain}
    case Gating => target in {Accepted, Failed, Cancelled, Uncertain}
    case Accepted => false
    case Failed => false
    case Cancelled => false
    case Uncertain => false
  }

  predicate ReceiptMatches(q: Request, r: Receipt) {
    && r.requestId == q.id && r.digest == q && r.issue == q.issue && r.worktreeId == q.worktreeId
    && r.authority == q.authority && r.target == q.target
  }

  /** `_validate_record` does not raise. */
  predicate RecordValid(q: Request, row: Row) {
    && row.id == q.id && row.issue == q.issue && row.worktreeId == q.worktreeId
    && (Terminal(row.lifecycle) <==> row.receipt.Some?)
    && (row.receipt.Some? ==> row.receipt.value.lifecycle == row.lifecycle)
    && (row.lifecycle.Uncertain? <==> row.reason.Interrupted?)
    && (row.receipt.Some? ==> ReceiptMatches(q, row.receipt.value))
  }

  function FindRow(rows: seq<Row>, id: string): (k: Option<nat>)
    ensures k.Some? ==> k.value < |rows| && rows[k.value].id == id
    ensures k.None? ==> forall i :: 0 <= i < |rows| ==> rows[i].id != id
  {
    if rows == [] then None
    else
      var k := FindRow(rows[..|rows| - 1], id);
      if k.Some? then k else if rows[|rows| - 1].id == id then Some(|rows| - 1) else None
  }

  predicate Overlaps(row: Row, q: Request) {
    (row.issue == q.issue || row.worktreeId == q.worktreeId) && Active(row.lifecycle)
  }

  function FindOverlap(rows: seq<Row>, q: Request): (k: Option<nat>)
    ensures k.Some? ==> k.value < |rows| && Overlaps(rows[k.value], q)
    ensures k.None? ==> forall i :: 0 <= i < |rows| ==> !Overlaps(rows[i], q)
  {
    if rows == [] then None
    else
      var k := FindOverlap(rows[..|rows| - 1], q);
      if k.Some? then k else if Overlaps(rows[|rows| - 1], q) then Some(|rows| - 1) else None
  }

  function NewRow(q: Request): Row {
    Row(q.id, q, q.issue, q.worktreeId, Prepared, NoReason, None)
  }

  function Interrupt(row: Row): Row {
    row.(lifecycle := Uncertain, reason := Interrupted)
  }

  // ---- what each call does ----------------------------------------------

  function Prepare(rows: seq<Row>, q: Request): (seq<Row>, Result<Row, JournalError>) {
    var at := FindRow(rows, q.id);
    if at.None? then
      var overlap := FindOverlap(rows, q);
      if overlap.None? then (rows + [NewRow(q)], Ok(NewRow(q)))
      else (rows, Err(if rows[overlap.value].digest == q then JournalInvalid else AuthorityMismatch))
    else
      var row := rows[at.value];
      if row.digest != q then (rows, Err(RequestConflict))
      else if !RecordValid(q, row) then (rows, Err(JournalInvalid))
      else if row.lifecycle.Uncertain? then (rows, Err(UncertainRecoveryRequired))
      else if row.lifecycle in {Applying, Applied, Gating} then
        (rows[at.value := Interrupt(row)], Err(UncertainRecoveryRequired))
      else (rows, Ok(row))
  }

  function TerminalReceipt(rows: seq<Row>, q: Request): Result<Option<Receipt>, JournalError> {
    var at := FindRow(rows, q.id);
    if at.None? then Ok(None)
    else
      var row := rows[at.value];
      if row.digest != q then Err(RequestConflict)
      else if !RecordValid(q, row) then Err(JournalInvalid)
      else if row.lifecycle.Uncertain? then Err(UncertainRecoveryRequired)
      else if Terminal(row.lifecycle) then Ok(Some(row.receipt.value))
      else Ok(None)
  }

  datatype Move = Move(expected: Lifecycle, target: Lifecycle, reason: RowReason, receipt: Option<Receipt>)

  predicate MoveAccepted(q: Request, m: Move) {
    && Allowed(m.expected, m.target)
    && (Terminal(m.target) ==> m.receipt.Some?)
    && (m.receipt.Some? ==> m.receipt.value.lifecycle == m.target && ReceiptMatches(q, m.receipt.value))
  }

  function Moved(row: Row, m: Move): Row {
    row.(lifecycle := m.target, reason := m.reason, receipt := m.receipt)
  }

  function Transition(rows: seq<Row>, q: Request, m: Move): (seq<Row>, Result<Row, JournalError>) {
    var at := FindRow(rows, q.id);
    if !MoveAccepted(q, m) then (rows, Err(JournalInvalid))
    else if at.None? || rows[at.value].digest != q || rows[at.value].lifecycle != m.expected then
      (rows, Err(RequestConflict))
    else if !RecordValid(q, rows[at.value]) then (rows, Err(JournalInvalid))
    else (rows[at.value := Moved(rows[at.value], m)], Ok(Moved(rows[at.value], m)))
  }

  /** The stored table; every call is one transaction. */
  class Journal {
    var rows: seq<Row>

    constructor ()
      ensures rows == []
    {
      rows := [];
    }

    method PrepareRequest(q: Request) returns (r: Result<Row, JournalError>)
      modifies this
      ensures (rows, r) == Prepare(old(rows), q)
    {
      var at := FindRow(rows, q.id);
      if at.Some? {
        var existing := rows[at.value];
        if existing.digest != q {
          return Err(RequestConflict);
        }
        if !RecordValid(q, existing) {
          return Err(JournalInvalid);
        }
        if existing.lifecycle.Uncertain? {
          return Err(UncertainRecoveryRequired);
        }
        if existing.lifecycle in {Applying, Applied, Gating} {
          rows := rows[at.value := existing.(lifecycle := Uncertain, reason := Interrupted)];
          return Err(UncertainRecoveryRequired);
        }
        return Ok(existing);
      }
      var overlap := FindOverlap(rows, q);
      if overlap.Some? {
        return Err(if rows[overlap.value].digest == q then JournalInvalid else AuthorityMismatch);
      }
      var row := Row(q.id, q, q.issue, q.worktreeId, Prepared, NoReason, None);
      rows := rows + [row];
      return Ok(row);
    }

    method ReadTerminalReceipt(q: Request) returns (r: Result<Option<Receipt>, JournalError>)
      ensures r == TerminalReceipt(rows, q)
    {
      var at := FindRow(rows, q.id);
      if at.None? {
        return Ok(None);
      }
      var existing := rows[at.value];
      if existing.digest != q {
        return Err(RequestConflict);
      }
      if !RecordValid(q, existing) {
        return Err(JournalInvalid);
      }
      if existing.lifecycle.Uncertain? {
        return Err(UncertainRecoveryRequired);
      }
      if existing.lifecycle in {Accepted, Failed, Cancelled} {
        return Ok(existing.receipt);
      }
      return Ok(None);
    }

    method ApplyTransition(q: Request, m: Move) returns (r: Result<Row, JournalError>)
      modifies this
      ensures (rows, r) == Transition(old(rows), q, m)
    {
      if !Allowed(m.expected, m.target) {
        return Err(JournalInvalid);
      }
      if m.target in {Accepted, Failed, Cancelled} && m.receipt.None? {
        return Err(JournalInvalid);
      }
      if m.receipt.Some? && m.receipt.value.lifecycle != m.target {
        return Err(JournalInvalid);
      }
      if m.receipt.Some? && !ReceiptMatches(q, m.receipt.value) {
        return Err(JournalInvalid);
      }
      var at := FindRow(rows, q.id);
      if at.None? || rows[at.value].digest != q || rows[at.value].lifecycle != m.expected {
        return Err(RequestConflict);
      }
      if !RecordValid(q, rows[at.value]) {
        return Err(JournalInvalid);
      }
      var updated := rows[at.value].(lifecycle := m.target, reason := m.reason, receipt := m.receipt);
      rows := rows[at.value := updated];
      return Ok(updated);
    }
  }

  // ---- what the table keeps ---------------------------------------------

  /** No two active rows share an issue or a worktree. */
  ghost predicate Exclusive(rows: seq<Row>) {
    forall i, j :: 0 <= i < j < |rows| && Active(rows[i].lifecycle) && Active(rows[j].lifecycle) ==>
      rows[i].issue != rows[j].issue && rows[i].worktreeId != rows[j].worktreeId
  }

  ghost predicate UniqueIds(rows: seq<Row>) {
    forall i, j :: 0 <= i < j < |rows| ==> rows[i].id != rows[j].id
  }

  ghost predicate JournalOk(rows: seq<Row>) {
    && UniqueIds(rows) && Exclusive(rows)
    && forall i :: 0 <= i < |rows| ==> RecordValid(rows[i].digest, rows[i])
  }

  /** The arguments the service passes: a receipt exactly with a terminal state. */
  predicate Conforming(m: Move) {
    && (m.target.Uncertain? <==> m.reason.Interrupted?)
    && (m.receipt.Some? ==> Terminal(m.target))
  }

  lemma FoundRow(rows: seq<Row>, k: nat)
    requires UniqueIds(rows) && k < |rows|
    ensures FindRow(rows, rows[k].id) == Some(k)
  {
    var at := FindRow(rows, rows[k].id);
    assert at.Some?;
  }

  lemma PrepareKeeps(rows: seq<Row>, q: Request)
    requires JournalOk(rows)
    ensures JournalOk(Prepare(rows, q).0)
  {
    var at := FindRow(rows, q.id);
    var after := Prepare(rows, q).0;
    if at.None? && FindOverlap(rows, q).None? {
      forall i | 0 <= i < |rows| ensures rows[i].id != q.id && !Overlaps(rows[i], q) {
      }
      assert RecordValid(q, NewRow(q));
    } else if at.Some? && after != rows {
      RewriteKeeps(rows, at.value, Interrupt(rows[at.value]));
    }
  }

  /** Rewriting one row keeps the table sound when the row stays valid and does not become active. */
  lemma RewriteKeeps(rows: seq<Row>, k: nat, row: Row)
    requires JournalOk(rows) && k < |rows|
    requires row.id == rows[k].id && row.issue == rows[k].issue && row.worktreeId == rows[k].worktreeId
    requires RecordValid(row.digest, row) && (Active(row.lifecycle) ==> Active(rows[k].lifecycle))
    ensures JournalOk(rows[k := row])
  {
    var after := rows[k := row];
    forall i, j | 0 <= i < j < |after|
      ensures after[i].id != after[j].id
      ensures Active(after[i].lifecycle) && Active(after[j].lifecycle) ==>
        after[i].issue != after[j].issue && after[i].worktreeId != after[j].worktreeId
    {
      assert rows[i].id != rows[j].id;
    }
  }

  /** A successful move leaves the table sound exactly when its arguments conform. */
  lemma TransitionKeepsExactlyWhen(rows: seq<Row>, q: Request, m: Move)
    requires JournalOk(rows) && Transition(rows, q, m).1.Ok?
    ensures JournalOk(Transition(rows, q, m).0) <==> Conforming(m)
  {
    var k := FindRow(rows, q.id).value;
    var row := Moved(rows[k], m);
    var after := Transition(rows, q, m).0;
    assert after[k] == row;
    if Conforming(m) {
      RewriteKeeps(rows, k, row);
    }
  }

  lemma TransitionKeeps(rows: seq<Row>, q: Request, m: Move)
    requires JournalOk(rows) && Conforming(m)
    ensures JournalOk(Transition(rows, q, m).0)
  {
    if Transition(rows, q, m).1.Ok? {
      TransitionKeepsExactlyWhen(rows, q, m);
    }
  }

  /** Once a receipt is stored, its request reads back that receipt and changes nothing. */
  lemma ReceiptIsReturned(rows: seq<Row>, k: nat)
    requires JournalOk(rows) && k < |rows| && Terminal(rows[k].lifecycle)
    ensures rows[k].receipt.Some?
    ensures TerminalReceipt(rows, rows[k].digest) == Ok(rows[k].receipt)
    ensures Prepare(rows, rows[k].digest) == (rows, Ok(rows[k]))
  {
    assert RecordValid(rows[k].digest, rows[k]);
    FoundRow(rows, k);
  }

  /** Re-entry on a request in flight is an interruption. */
  lemma ReentryInterrupts(rows: seq<Row>, k: nat)
    requires JournalOk(rows) && k < |rows|
    requires rows[k].lifecycle in {Applying, Applied, Gating}
    ensures Prepare(rows, rows[k].digest).1 == Err(UncertainRecoveryRequired)
    ensures Prepare(rows, rows[k].digest).0 == rows[k := Interrupt(rows[k])]
  {
    assert RecordValid(rows[k].digest, rows[k]);
    FoundRow(rows, k);
  }

  lemma UncertainRefuses(rows: seq<Row>, k: nat)
    requires JournalOk(rows) && k < |rows| && rows[k].lifecycle.Uncertain?
    ensures Prepare(rows, rows[k].digest) == (rows, Err(UncertainRecoveryRequired))
    ensures TerminalReceipt(rows, rows[k].digest) == Err(UncertainRecoveryRequired)
  {
    assert RecordValid(rows[k].digest, rows[k]);
    FoundRow(rows, k);
  }

  /** Some row of the same issue or worktree is not closed. */
  predicate Busy(rows: seq<Row>, q: Request) {
    exists i :: 0 <= i < |rows| && !Terminal(rows[i].lifecycle)
                && (rows[i].issue == q.issue || rows[i].worktreeId == q.worktreeId)
  }

  predicate KnownId(rows: seq<Row>, id: string) {
    exists i :: 0 <= i < |rows| && rows[i].id == id
  }

  predicate KnownRequest(rows: seq<Row>, q: Request) {
    exists i :: 0 <= i < |rows| && rows[i].digest == q
  }

  /** On a sound table a request is admitted exactly when it is new and nothing open is in its way. */
  lemma AdmittedExactlyWhen(rows: seq<Row>, q: Request)
    requires JournalOk(rows)
    ensures |Prepare(rows, q).0| == |rows| + 1 <==> !KnownId(rows, q.id) && !Busy(rows, q)
    ensures !KnownId(rows, q.id) && !Busy(rows, q) ==> Prepare(rows, q) == (rows + [NewRow(q)], Ok(NewRow(q)))
    ensures Prepare(rows, q).1 != Err(JournalInvalid)
  {
    var at, overlap := FindRow(rows, q.id), FindOverlap(rows, q);
    if at.Some? {
      assert RecordValid(rows[at.value].digest, rows[at.value]);
    } else if overlap.Some? {
      assert RecordValid(rows[overlap.value].digest, rows[overlap.value]);
      assert !Terminal(rows[overlap.value].lifecycle);
    } else {
      forall i | 0 <= i < |rows| ensures !Overlaps(rows[i], q) {
      }
    }
  }

  lemma KnownIsFound(rows: seq<Row>, q: Request)
    requires JournalOk(rows)
    ensures KnownId(rows, q.id) <==> FindRow(rows, q.id).Some?
    ensures KnownRequest(rows, q) <==>
      FindRow(rows, q.id).Some? && rows[FindRow(rows, q.id).value].digest == q
    ensures FindRow(rows, q.id).Some? ==>
      RecordValid(rows[FindRow(rows, q.id).value].digest, rows[FindRow(rows, q.id).value])
  {
    if i :| 0 <= i < |rows| && rows[i].digest == q {
      assert RecordValid(rows[i].digest, rows[i]);
      FoundRow(rows, i);
    }
    var at := FindRow(rows, q.id);
    if at.Some? {
      assert RecordValid(rows[at.value].digest, rows[at.value]);
    }
  }

  /** Which refusal a request gets, and from which rows. */
  lemma RefusedExactlyWhen(rows: seq<Row>, q: Request)
    requires JournalOk(rows)
    ensures Prepare(rows, q).1 == Err(RequestConflict) <==> KnownId(rows, q.id) && !KnownRequest(rows, q)
    ensures TerminalReceipt(rows, q) == Err(RequestConflict) <==> KnownId(rows, q.id) && !KnownRequest(rows, q)
    ensures Prepare(rows, q).1 == Err(AuthorityMismatch) <==> !KnownId(rows, q.id) && Busy(rows, q)
    ensures Prepare(rows, q).1 == Err(UncertainRecoveryRequired) <==>
      exists i :: 0 <= i < |rows| && rows[i].digest == q && rows[i].lifecycle in {Applying, Applied, Gating, Uncertain}
    ensures TerminalReceipt(rows, q) == Err(UncertainRecoveryRequired) <==>
      exists i :: 0 <= i < |rows| && rows[i].digest == q && rows[i].lifecycle.Uncertain?
    ensures TerminalReceipt(rows, q) != Err(JournalInvalid)
    ensures TerminalReceipt(rows, q) == Ok(None) <==>
      !KnownId(rows, q.id)
      || exists i :: 0 <= i < |rows| && rows[i].digest == q && rows[i].lifecycle in {Prepared, Applying, Applied, Gating}
  {
    KnownIsFound(rows, q);
    AdmittedExactlyWhen(rows, q);
    var at := FindRow(rows, q.id);
    forall i | 0 <= i < |rows| && rows[i].digest == q ensures at == Some(i) {
      assert RecordValid(rows[i].digest, rows[i]);
      FoundRow(rows, i);
    }
  }

  /** The next life cycle on the way to acceptance. */
  function Following(l: Lifecycle): Option<Lifecycle> {
    match l
    case Prepared => Some(Applying)
    case Applying => Some(Applied)
    case Applied => Some(Gating)
    case Gating => Some(Accepted)
    case _ => None
  }

  /** Every open row can be closed or become uncertain, or take one step towards acceptance. */
  predicate Reachable(from: Lifecycle, to: Lifecycle) {
    Following(from).Some? && (to in {Failed, Cancelled, Uncertain} || Following(from) == Some(to))
  }

  /** A move succeeds exactly on the request's own row, in the expected life cycle, with a fitting receipt. */
  lemma MovesExactlyWhen(rows: seq<Row>, q: Request, m: Move)
    requires JournalOk(rows)
    ensures var proper := Reachable(m.expected, m.target) && (Terminal(m.target) ==> m.receipt.Some?)
        && (m.receipt.Some? ==> m.receipt.value.lifecycle == m.target && ReceiptMatches(q, m.receipt.value));
      var present := exists k :: 0 <= k < |rows| && rows[k].digest == q && rows[k].lifecycle == m.expected;
      && (Transition(rows, q, m).1.Ok? <==> proper && present)
      && (Transition(rows, q, m).1 == Err(JournalInvalid) <==> !proper)
      && (Transition(rows, q, m).1 == Err(RequestConflict) <==> proper && !present)
    ensures Transition(rows, q, m).1.Err? ==> Transition(rows, q, m).0 == rows
    ensures Transition(rows, q, m).1.Ok? ==>
      forall k :: 0 <= k < |rows| && rows[k].digest == q ==>
        Transition(rows, q, m).0 == rows[k := rows[k].(lifecycle := m.target, reason := m.reason, receipt := m.receipt)]
  {
    assert Allowed(m.expected, m.target) <==> Reachable(m.expected, m.target);
    KnownIsFound(rows, q);
    forall k | 0 <= k < |rows| && rows[k].digest == q ensures FindRow(rows, q.id) == Some(k) {
      assert RecordValid(rows[k].digest, rows[k]);
      FoundRow(rows, k);
    }
  }
}
