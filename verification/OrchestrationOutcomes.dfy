/** How a process that nobody disturbs answers each failure, and where it leaves its row. */
module OrchestrationOutcomes {
  import opened Wrappers
  import opened OrchestrationGates
  import opened OrchestrationJournal
  import opened Orchestration
  import opened OrchestrationSafety

  /** Process `p` is alive at `pc`, and row `k` is its request's, in life cycle `l`. */
  predicate Standing(s: State, p: nat, k: nat, pc: Pc, l: Lifecycle) {
    && p < |s.procs| && s.procs[p].alive && s.procs[p].pc == pc
    && k < |s.rows| && s.rows[k].digest == s.procs[p].request && s.rows[k].lifecycle == l
  }

  /** From `s` to `t` only row `k` has moved: to `l`, for `reason` and with `receipt`. */
  predicate RowMoved(s: State, t: State, k: nat, l: Lifecycle, reason: RowReason, receipt: Option<Receipt>)
    requires k < |s.rows|
  {
    t.rows == s.rows[k := s.rows[k].(lifecycle := l, reason := reason, receipt := receipt)]
  }

  function Then(s: State, p: nat, a: Answer): State {
    Do(s, Act(p, a))
  }

  lemma ReachableIsSound(earlier: seq<Action>)
    ensures Inv(Run(INITIAL, earlier)) && JournalOk(Run(INITIAL, earlier).rows)
  {
    InitialInv();
    RunKeeps(INITIAL, earlier);
  }

  lemma RowFound(rows: seq<Row>, k: nat)
    requires JournalOk(rows) && k < |rows|
    ensures FindRow(rows, rows[k].digest.id) == Some(k) && RecordValid(rows[k].digest, rows[k])
  {
    assert RecordValid(rows[k].digest, rows[k]);
    FoundRow(rows, k);
  }

  /** A process that marks its row uncertain does so, and raises. */
  lemma Interrupts(s: State, p: nat, k: nat, l: Lifecycle, a: Answer)
    requires JournalOk(s.rows) && Standing(s, p, k, MarkUncertain(l), l)
    requires l in {Prepared, Applying, Applied, Gating}
    ensures var t := Then(s, p, a);
      |t.procs| == |s.procs| && t.procs[p].pc.Raised? && RowMoved(s, t, k, Uncertain, Interrupted, None)
  {
    RowFound(s.rows, k);
  }

  /** Main is unchanged and the row is closed with a receipt. */
  lemma Closes(s: State, p: nat, k: nat, receipt: Receipt)
    requires JournalOk(s.rows) && Standing(s, p, k, MainAfterFailure(receipt), Applying)
    requires ReceiptMatches(s.procs[p].request, receipt) && receipt.lifecycle in {Failed, Cancelled}
    ensures var t := Then(Then(s, p, Yes), p, Yes);
      && |t.procs| == |s.procs| && t.procs[p].pc == Returned(receipt)
      && RowMoved(s, t, k, receipt.lifecycle, NoReason, Some(receipt))
  {
    RowFound(s.rows, k);
  }

  /** The receipt of a patch that did not land, as the service fills it in. */
  function Unpatched(q: Request, l: Lifecycle, reason: string): Receipt {
    Receipt(q.id, q, q.issue, q.worktreeId, q.authority, q.target, l, reason, true, None, [])
  }

  predicate GitCode(code: string) {
    code in {"worktree-mismatch", "worktree-dirty", "stale-base", "proposal-invalid", "scope-denied",
             "patch-check-failed", "patch-apply-failed", "post-apply-mismatch"}
  }

  /** What a patch error leaves unless it was interrupted. */
  function FailureOf(q: Request, code: string): Receipt {
    if code == "cancelled" then Unpatched(q, Cancelled, "cancelled")
    else Unpatched(q, Failed, if GitCode(code) then code else "post-apply-mismatch")
  }

  lemma ErrorStep(s: State, p: nat, code: string)
    requires p < |s.procs| && s.procs[p].alive && s.procs[p].pc == PatchRunning
    ensures Then(s, p, PatchError(code)) ==
      if code == "interrupted" then Goto(s, p, MarkUncertain(Applying))
      else Note(s, p, PatchFailed(p), MainAfterFailure(FailureOf(s.procs[p].request, code)))
  {
  }

  /**
   * A patch that fails: interrupted halfway its row turns uncertain and the call
   * raises; otherwise the row is cancelled, or failed for the reason given, and
   * the receipt is returned.
   */
  lemma PatchErrorEndsExactly(earlier: seq<Action>, p: nat, k: nat, code: string)
    requires Standing(Run(INITIAL, earlier), p, k, PatchRunning, Applying)
    ensures var s := Run(INITIAL, earlier);
      var q, t := s.procs[p].request, Then(Then(Then(s, p, PatchError(code)), p, Yes), p, Yes);
      && |t.procs| == |s.procs| && |t.rows| == |s.rows|
      && (t.rows[k].lifecycle.Uncertain? <==> code == "interrupted")
      && (t.rows[k].lifecycle.Cancelled? <==> code == "cancelled")
      && (if code == "interrupted" then
            t.procs[p].pc.Raised? && RowMoved(s, t, k, Uncertain, Interrupted, None)
          else
            var receipt := FailureOf(q, code);
            t.procs[p].pc == Returned(receipt) && RowMoved(s, t, k, receipt.lifecycle, NoReason, Some(receipt)))
  {
    var s := Run(INITIAL, earlier);
    ReachableIsSound(earlier);
    ErrorStep(s, p, code);
    var u := Then(s, p, PatchError(code));
    if code == "interrupted" {
      Interrupts(u, p, k, Applying, Yes);
    } else {
      Closes(u, p, k, FailureOf(s.procs[p].request, code));
    }
  }

  /** The questions whose negative answer interrupts a request, with the life cycle they are asked in. */
  function AskedIn(pc: Pc): Option<Lifecycle> {
    match pc
    case CreatingWorktree => Some(Prepared)
    case MainAfterCreate => Some(Prepared)
    case MainBeforeCancel => Some(Prepared)
    case MainAfterFailure(_) => Some(Applying)
    case MainAfterPatch(_) => Some(Applying)
    case RecheckAuthority(_) => Some(Applied)
    case CheckIntegrity(_, _) => Some(Gating)
    case MainAfterGateError(_) => Some(Gating)
    case FinalIntegrity(_, _) => Some(Gating)
    case MainBeforeAccept(_, _) => Some(Gating)
    case _ => None
  }

  /** Worktree creation, changed main, lost authority or lost integrity: the row turns uncertain. */
  lemma NoTurnsUncertain(earlier: seq<Action>, p: nat, k: nat, pc: Pc)
    requires AskedIn(pc).Some? && Standing(Run(INITIAL, earlier), p, k, pc, AskedIn(pc).value)
    ensures var s := Run(INITIAL, earlier);
      var t := Then(Then(s, p, No), p, Yes);
      |t.procs| == |s.procs| && t.procs[p].pc.Raised? && RowMoved(s, t, k, Uncertain, Interrupted, None)
  {
    var s := Run(INITIAL, earlier);
    ReachableIsSound(earlier);
    var u := Then(s, p, No);
    assert u == Goto(s, p, MarkUncertain(AskedIn(pc).value));
    Interrupts(u, p, k, AskedIn(pc).value, Yes);
  }

  /** A cancellation seen before the patch closes the row without ever starting it; a denied authority leaves it prepared. */
  lemma StoppedBeforePatch(earlier: seq<Action>, p: nat, k: nat)
    requires Standing(Run(INITIAL, earlier), p, k, CancelPoll, Prepared)
    ensures var s := Run(INITIAL, earlier);
      var cancelled := Unpatched(s.procs[p].request, Cancelled, "cancelled");
      var t, u := Then(Then(Then(s, p, Yes), p, Yes), p, Yes), Then(Then(s, p, No), p, No);
      && |t.procs| == |s.procs| == |u.procs|
      && t.log == s.log + [Entry(s.procs[p].request, MovedTo(p, Prepared, Cancelled))]
      && t.procs[p].pc == Returned(cancelled) && RowMoved(s, t, k, Cancelled, NoReason, Some(cancelled))
      && u.procs[p].pc.Raised? && u.rows == s.rows && u.log == s.log
  {
    var s := Run(INITIAL, earlier);
    ReachableIsSound(earlier);
    RowFound(s.rows, k);
  }

  /** The receipt read: a closed or uncertain row ends the call, any other lets it go on. */
  lemma ReadsFirst(s: State, p: nat, k: nat, a: Answer)
    requires JournalOk(s.rows) && k < |s.rows| && Standing(s, p, k, Begin, s.rows[k].lifecycle)
    ensures var row := s.rows[k];
      && (Terminal(row.lifecycle) ==> row.receipt.Some? && Then(s, p, a) == Goto(s, p, Returned(row.receipt.value)))
      && (row.lifecycle.Uncertain? ==> Then(s, p, a) == Goto(s, p, Raised))
      && (row.lifecycle in {Prepared, Applying, Applied, Gating} ==> Then(s, p, a) == Goto(s, p, Ready))
  {
    RowFound(s.rows, k);
  }

  lemma PreparesNext(s: State, p: nat, k: nat)
    requires JournalOk(s.rows) && k < |s.rows| && Standing(s, p, k, Ready, s.rows[k].lifecycle)
    requires s.rows[k].lifecycle in {Prepared, Applying, Applied, Gating}
    ensures var t := Then(s, p, Yes);
      && |t.procs| == |s.procs|
      && (if s.rows[k].lifecycle.Prepared? then
            t.rows == s.rows && t.procs[p].pc == if s.procs[p].targetExists then CancelPoll else CreatingWorktree
          else t.procs[p].pc.Raised? && RowMoved(s, t, k, Uncertain, Interrupted, None))
  {
    RowFound(s.rows, k);
    assert s.rows[k].receipt.None?;
  }

  /**
   * A process that starts on a request with a row: a closed row gives its
   * receipt, a prepared one is taken up, one in flight turns uncertain, and the
   * last two kinds of row make the call raise.
   */
  lemma StartsOnARow(earlier: seq<Action>, p: nat, k: nat)
    requires k < |Run(INITIAL, earlier).rows|
    requires Standing(Run(INITIAL, earlier), p, k, Begin, Run(INITIAL, earlier).rows[k].lifecycle)
    ensures var s := Run(INITIAL, earlier);
      var row, t := s.rows[k], Then(Then(s, p, Yes), p, Yes);
      && |t.procs| == |s.procs|
      && (Terminal(row.lifecycle) ==>
            t.rows == s.rows && row.receipt.Some? && t.procs[p].pc == Returned(row.receipt.value))
      && (row.lifecycle.Prepared? ==>
            t.rows == s.rows
            && t.procs[p].pc == if s.procs[p].targetExists then CancelPoll else CreatingWorktree)
      && (row.lifecycle in {Applying, Applied, Gating} ==>
            t.procs[p].pc.Raised? && RowMoved(s, t, k, Uncertain, Interrupted, None))
      && (row.lifecycle.Uncertain? ==> t.rows == s.rows && t.procs[p].pc.Raised?)
  {
    var s := Run(INITIAL, earlier);
    ReachableIsSound(earlier);
    ReadsFirst(s, p, k, Yes);
    if s.rows[k].lifecycle in {Prepared, Applying, Applied, Gating} {
      PreparesNext(Goto(s, p, Ready), p, k);
    }
  }

  function PassedGate(command: string): GateExit {
    GateExit(command, Some(0), None, Passed)
  }

  /** Only documentation requests are ever accepted, and each with its own lane's gates. */
  lemma AcceptedGates(actions: seq<Action>, k: nat)
    requires k < |Run(INITIAL, actions).rows| && Run(INITIAL, actions).rows[k].lifecycle.Accepted?
    ensures var row := Run(INITIAL, actions).rows[k];
      && row.receipt.Some?
      && (row.digest.target.lane.TinyDocs? || row.digest.target.lane.DocsGuardrail?)
      && row.receipt.value.gates ==
           if row.digest.target.lane.TinyDocs? then [PassedGate("doc-governance-v1")]
           else [PassedGate("agent-workflow-docs-v1"), PassedGate("doc-governance-v1")]
  {
    AcceptanceIsTheWholePath(actions, k);
  }
}
