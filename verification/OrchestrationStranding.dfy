/** Gate failures that no result record fits: the run ends and its row stays behind in `gating`. */
module OrchestrationStranding {
  import opened Wrappers
  import opened OrchestrationGates
  import opened OrchestrationJournal
  import opened Orchestration
  import opened OrchestrationSafety
  import opened OrchestrationWitness

  /** Process `p`, alive, is about to run its next gate, and row `k` is its request's, in gating. */
  predicate AtGate(s: State, p: nat, k: nat, truth: Truth, results: seq<GateExit>) {
    && p < |s.procs| && s.procs[p].alive && s.procs[p].pc == RunGates(truth, results)
    && Commands(s.procs[p].request.target.lane).Some?
    && |results| < |Commands(s.procs[p].request.target.lane).value|
    && k < |s.rows| && s.rows[k].digest == s.procs[p].request && s.rows[k].lifecycle.Gating?
  }

  function NextGate(s: State, p: nat, k: nat, truth: Truth, results: seq<GateExit>): string
    requires AtGate(s, p, k, truth, results)
  {
    Commands(s.procs[p].request.target.lane).value[|results|]
  }

  /** The gate was cancelled, cut off or timed out, and its process still ended with code zero. */
  predicate StoppedWithZero(turn: Turn) {
    && !turn.cancelledBefore && turn.run.Some? && turn.run.value.returncode == 0
    && (turn.run.value.cancelled || turn.run.value.outputExceeded || turn.run.value.timedOut)
  }

  /** The process alone takes its gate turn and two more steps: main unchanged, then the write. */
  function AfterTurn(s: State, p: nat, turn: Turn): State {
    Do(Do(Do(s, Act(p, GateTurn(turn))), Act(p, Yes)), Act(p, Yes))
  }

  function FailedAs(code: string): Lifecycle {
    if code == "cancelled" then Cancelled else Failed
  }

  lemma WritesGateError(s: State, p: nat, k: nat, receipt: Receipt)
    requires JournalOk(s.rows) && p < |s.procs| && s.procs[p].alive && s.procs[p].pc == WriteGateError(receipt)
    requires k < |s.rows| && s.rows[k].digest == s.procs[p].request && s.rows[k].lifecycle.Gating?
    requires ReceiptMatches(s.procs[p].request, receipt) && receipt.lifecycle in {Failed, Cancelled}
    ensures var t := Do(s, Act(p, Yes));
      && t.rows == s.rows[k := Moved(s.rows[k], WithReceipt(Gating, receipt))]
      && |t.procs| == |s.procs| && t.procs[p].pc == Returned(receipt)
  {
    assert RecordValid(s.rows[k].digest, s.rows[k]);
    FoundRow(s.rows, k);
  }

  lemma GateErrorWrites(s: State, p: nat, k: nat, receipt: Receipt)
    requires JournalOk(s.rows) && p < |s.procs| && s.procs[p].alive && s.procs[p].pc == MainAfterGateError(receipt)
    requires k < |s.rows| && s.rows[k].digest == s.procs[p].request && s.rows[k].lifecycle.Gating?
    requires ReceiptMatches(s.procs[p].request, receipt) && receipt.lifecycle in {Failed, Cancelled}
    ensures var t := Do(Do(s, Act(p, Yes)), Act(p, Yes));
      && t.rows == s.rows[k := Moved(s.rows[k], WithReceipt(Gating, receipt))]
      && |t.procs| == |s.procs| && t.procs[p].pc == Returned(receipt)
  {
    var u := Do(s, Act(p, Yes));
    assert u == Note(s, p, MainUnchanged(p), WriteGateError(receipt));
    WritesGateError(u, p, k, receipt);
  }

  lemma FailingTurn(s: State, p: nat, k: nat, truth: Truth, results: seq<GateExit>, turn: Turn)
    requires AtGate(s, p, k, truth, results) && !RunOne(NextGate(s, p, k, truth, results), turn).GatePassed?
    ensures var q, v := s.procs[p].request, RunOne(NextGate(s, p, k, truth, results), turn);
      Do(s, Act(p, GateTurn(turn))) == Goto(s, p,
        if v.GateUnrecordable? then Raised
        else MainAfterGateError(GateErrorReceipt(q, truth, v.code,
               if v.recorded.Some? then results + [v.recorded.value] else results)))
  {
  }

  lemma UnrecordableTurnStrands(s: State, p: nat, k: nat, truth: Truth, results: seq<GateExit>, turn: Turn)
    requires AtGate(s, p, k, truth, results) && RunOne(NextGate(s, p, k, truth, results), turn).GateUnrecordable?
    ensures var t := AfterTurn(s, p, turn);
      t.rows == s.rows && |t.procs| == |s.procs| && t.procs[p].pc.Raised?
  {
    FailingTurn(s, p, k, truth, results, turn);
  }

  predicate StopCode(code: string) {
    code in {"cancelled", "gate-output-exceeded", "gate-timeout", "gate-failed"}
  }

  lemma ReceiptFor(q: Request, truth: Truth, code: string, gates: seq<GateExit>)
    requires StopCode(code)
    ensures GateErrorReceipt(q, truth, code, gates)
      == Receipt(q.id, q, q.issue, q.worktreeId, q.authority, q.target, FailedAs(code), code, true, Some(truth), gates)
  {
  }

  lemma StopCodeOf(command: string, turn: Turn)
    requires RunOne(command, turn).GateStopped?
    ensures StopCode(RunOne(command, turn).code)
  {
    StopsFor(command, turn);
  }

  lemma StoppedTurnFails(s: State, p: nat, k: nat, truth: Truth, results: seq<GateExit>, turn: Turn)
    requires AtGate(s, p, k, truth, results) && RunOne(NextGate(s, p, k, truth, results), turn).GateStopped?
    requires JournalOk(s.rows)
    ensures var v, t := RunOne(NextGate(s, p, k, truth, results), turn), AfterTurn(s, p, turn);
      Recorded(s, t, p, k, truth, v.code, if v.recorded.Some? then results + [v.recorded.value] else results)
  {
    var q, v := s.procs[p].request, RunOne(NextGate(s, p, k, truth, results), turn);
    var all := if v.recorded.Some? then results + [v.recorded.value] else results;
    FailingTurn(s, p, k, truth, results, turn);
    StopCodeOf(NextGate(s, p, k, truth, results), turn);
    ReceiptFor(q, truth, v.code, all);
    GateErrorWrites(Do(s, Act(p, GateTurn(turn))), p, k, GateErrorReceipt(q, truth, v.code, all));
  }

  /** From `s` to `t` row `k` alone changed: it is failed, or cancelled, for this reason and with these results. */
  predicate Recorded(s: State, t: State, p: nat, k: nat, truth: Truth, code: string, results: seq<GateExit>)
    requires p < |s.procs| && k < |s.rows|
  {
    var q := s.procs[p].request;
    var receipt := Receipt(q.id, q, q.issue, q.worktreeId, q.authority, q.target, FailedAs(code), code, true,
                           Some(truth), results);
    && |t.procs| == |s.procs| && t.procs[p].pc == Returned(receipt)
    && t.rows == s.rows[k := s.rows[k].(lifecycle := FailedAs(code), reason := NoReason, receipt := Some(receipt))]
  }

  /**
   * A gate that does not pass leaves its row in gating and its process without
   * an outcome exactly when it was stopped with code zero.  Every other failure
   * is recorded: the row is failed, or cancelled, with the results so far.
   */
  lemma FailingGateStrandsExactlyWhen(
    earlier: seq<Action>, p: nat, k: nat, truth: Truth, results: seq<GateExit>, turn: Turn)
    requires AtGate(Run(INITIAL, earlier), p, k, truth, results)
    requires !RunOne(NextGate(Run(INITIAL, earlier), p, k, truth, results), turn).GatePassed?
    requires turn.run.Some? ==> -255 <= turn.run.value.returncode <= 255
    ensures var s := Run(INITIAL, earlier);
      var v, t := RunOne(NextGate(s, p, k, truth, results), turn), AfterTurn(s, p, turn);
      if StoppedWithZero(turn) then t.rows == s.rows && |t.procs| == |s.procs| && t.procs[p].pc.Raised?
      else
        v.GateStopped?
        && Recorded(s, t, p, k, truth, v.code, if v.recorded.Some? then results + [v.recorded.value] else results)
  {
    var s := Run(INITIAL, earlier);
    InitialInv();
    RunKeeps(INITIAL, earlier);
    UnrecordableExactlyWhen(NextGate(s, p, k, truth, results), turn);
    if StoppedWithZero(turn) {
      UnrecordableTurnStrands(s, p, k, truth, results, turn);
    } else {
      StoppedTurnFails(s, p, k, truth, results, turn);
    }
  }

  // ---- the stranded row is never finished -------------------------------

  /** The owner of row `k` has raised, and the row is not resolved. */
  predicate Stranded(s: State, p: nat, k: nat) {
    && p < |s.procs| && s.procs[p].claimed && s.procs[p].pc.Raised?
    && k < |s.rows| && s.rows[k].digest == s.procs[p].request && s.rows[k].lifecycle in {Gating, Uncertain}
  }

  lemma OthersLeaveRow(rows: seq<Row>, k: nat, q: Request, m: Move)
    requires k < |rows| && (rows[k].digest != q || rows[k].lifecycle != m.expected)
    ensures k < |Transition(rows, q, m).0| && Transition(rows, q, m).0[k] == rows[k]
    ensures rows[k].digest != q ==> k < |Prepare(rows, q).0| && Prepare(rows, q).0[k] == rows[k]
  {
  }

  /** A process that has not claimed the request can only find its row prepared, or interrupt it. */
  lemma UnclaimedLeavesRow(s: State, r: nat, a: Answer, k: nat)
    requires JournalOk(s.rows) && r < |s.procs| && BeforeClaim(s.procs[r].pc)
    requires k < |s.rows| && s.rows[k].lifecycle in {Gating, Uncertain}
    ensures var t := Advance(s, r, a);
      k < |t.rows| && (t.rows[k] == s.rows[k] || t.rows[k] == Interrupt(s.rows[k]))
  {
    var q := s.procs[r].request;
    if Writes(s.procs[r].pc) {
      var m := match s.procs[r].pc
        case WriteCancelled => WithReceipt(Prepared, BuildReceipt(q, Cancelled, "cancelled", None, []))
        case Claim => Plain(Prepared, Applying)
        case _ => ToUncertain(Prepared);
      OthersLeaveRow(s.rows, k, q, m);
    } else {
      QuietAdvance(s, r, a);
    }
  }

  lemma ClaimedLeavesRow(s: State, r: nat, a: Answer, k: nat)
    requires r < |s.procs| && k < |s.rows| && s.rows[k].digest != s.procs[r].request
    ensures k < |Advance(s, r, a).rows| && Advance(s, r, a).rows[k] == s.rows[k]
  {
    var q, t := s.procs[r].request, Advance(s, r, a);
    AdvanceIsOneCall(s, r, a);
    OthersLeaveRow(s.rows, k, q, Plain(Prepared, Applying));
    if t.rows != s.rows && t.rows != Prepare(s.rows, q).0 {
      var m: Move :| t.rows == Transition(s.rows, q, m).0;
      OthersLeaveRow(s.rows, k, q, m);
    }
  }

  lemma {:induction false} OthersStay(s: State, r: nat, a: Answer, p: nat)
    requires r < |s.procs| && p < |s.procs| && r != p
    ensures var t := Advance(s, r, a); |t.procs| == |s.procs| && t.procs[p] == s.procs[p]
  {
  }

  lemma StrandedStep(s: State, action: Action, p: nat, k: nat)
    requires Inv(s) && Stranded(s, p, k)
    ensures var t := Do(s, action);
      Stranded(t, p, k) && (t.rows[k] == s.rows[k] || t.rows[k] == Interrupt(s.rows[k]))
  {
    if action.Act? && action.p < |s.procs| && s.procs[action.p].alive {
      var r, a := action.p, action.answer;
      if r != p {
        assert ProcOk(s, r);
        OthersStay(s, r, a, p);
        if s.procs[r].claimed {
          ClaimedLeavesRow(s, r, a, k);
        } else {
          UnclaimedLeavesRow(s, r, a, k);
        }
      }
    }
  }

  lemma {:induction false} StrandedRun(s: State, actions: seq<Action>, p: nat, k: nat)
    requires Inv(s) && Stranded(s, p, k)
    ensures var t := Run(s, actions);
      Stranded(t, p, k) && (t.rows[k] == s.rows[k] || t.rows[k] == Interrupt(s.rows[k]))
    decreases |actions|
  {
    if actions != [] {
      StepKeeps(s, actions[0]);
      StrandedStep(s, actions[0], p, k);
      StrandedRun(Do(s, actions[0]), actions[1..], p, k);
    }
  }

  /** Whatever any process does later, the row is never accepted, failed or cancelled. */
  lemma StrandedForever(
    earlier: seq<Action>, p: nat, k: nat, truth: Truth, results: seq<GateExit>, turn: Turn, later: seq<Action>)
    requires AtGate(Run(INITIAL, earlier), p, k, truth, results)
    requires RunOne(NextGate(Run(INITIAL, earlier), p, k, truth, results), turn).GateUnrecordable?
    ensures var s := Run(INITIAL, earlier);
      var rows := Run(Do(s, Act(p, GateTurn(turn))), later).rows;
      k < |rows| && (rows[k] == s.rows[k] || rows[k] == Interrupt(s.rows[k]))
  {
    var s := Run(INITIAL, earlier);
    InitialInv();
    RunKeeps(INITIAL, earlier);
    assert ProcOk(s, p);
    StepKeeps(s, Act(p, GateTurn(turn)));
    StrandedRun(Do(s, Act(p, GateTurn(turn))), later, p, k);
  }

  // ---- a run that strands its row ---------------------------------------

  /** The gate's output passed its limit, and its process ended with code zero. */
  function CutOff(): Turn {
    Turn(false, Some(ProcessRun(0, false, true, false)), true)
  }

  /** Any documentation request, whatever patch it carries, can end like this. */
  lemma StrandingIsReachable(q: Request, truth: Truth)
    requires q.target.lane.TinyDocs?
    ensures exists actions ::
      var s := Run(INITIAL, actions);
      |s.rows| == 1 && s.rows[0].digest == q && s.rows[0].lifecycle.Gating? && |s.procs| == 1 && s.procs[0].pc.Raised?
  {
    assert Run(INITIAL, []) == INITIAL;
    ReachedThen(INITIAL, Spawn(q, true));
    var s0 := Do(INITIAL, Spawn(q, true));
    ReachedThen(s0, Act(0, Yes));
    ReachedThen(Next(s0, Yes), Act(0, Yes));
    Prepares(q);
    var s1 := Next(Next(s0, Yes), Yes);
    Applies(s1, q, truth);
    ThreeMore(s1, No, Yes, Yes);
    var s2 := Next(Next(Next(s1, No), Yes), Yes);
    ThreeMore(s2, Yes, Landed(truth), Yes);
    StrandsFrom(Next(Next(s2, Yes), Landed(truth)), q, truth);
  }

  lemma StrandsFrom(s: State, q: Request, truth: Truth)
    requires Reached(Next(s, Yes)) && q.target.lane.TinyDocs?
    requires Alone(s, q, Applying, None, true, MainAfterPatch(truth))
    ensures exists actions ::
      var s := Run(INITIAL, actions);
      |s.rows| == 1 && s.rows[0].digest == q && s.rows[0].lifecycle.Gating? && |s.procs| == 1 && s.procs[0].pc.Raised?
  {
    ReachesGates(s, q, truth);
    ThreeMore(Next(s, Yes), Yes, Yes, Yes);
    var t := Next(Next(Next(Next(s, Yes), Yes), Yes), Yes);
    ReachedThen(t, Act(0, GateTurn(CutOff())));
    var u := Next(t, GateTurn(CutOff()));
    Goes(t, q, Gating, true, RunGates(truth, []), Raised);
    assert !Recordable(ExitOf("doc-governance-v1", CutOff().run.value));
    var actions :| Run(INITIAL, actions) == u;
  }
}
