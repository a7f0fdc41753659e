/** Acceptance is reachable: one undisturbed process takes a one-gate request all the way. */
module OrchestrationWitness {
  import opened Wrappers
  import opened OrchestrationGates
  import opened OrchestrationJournal
  import opened Orchestration

  /** One row, one live process, whatever the log. */
  predicate Alone(s: State, q: Request, l: Lifecycle, receipt: Option<Receipt>, claimed: bool, pc: Pc) {
    && s.rows == [NewRow(q).(lifecycle := l, receipt := receipt)]
    && s.procs == [Proc(q, true, true, claimed, pc)]
  }

  lemma OnlyRow(s: State, q: Request, l: Lifecycle, receipt: Option<Receipt>, claimed: bool, pc: Pc)
    requires Alone(s, q, l, receipt, claimed, pc)
    ensures FindRow(s.rows, q.id) == Some(0)
    ensures !Terminal(l) && receipt.None? && !l.Uncertain? ==> RecordValid(q, s.rows[0])
  {
    assert s.rows[..0] == [];
  }

  lemma Moves(s: State, q: Request, l: Lifecycle, claimed: bool, pc: Pc, m: Move, next: Pc)
    requires Alone(s, q, l, None, claimed, pc) && m.expected == l && !Terminal(l) && !l.Uncertain?
    requires MoveAccepted(q, m) && m.reason.NoReason?
    ensures Alone(Write(s, 0, m, next), q, m.target, m.receipt, claimed || m.target.Applying?, next)
  {
    OnlyRow(s, q, l, None, claimed, pc);
    var t := Write(s, 0, m, next);
    assert t.rows == [Moved(s.rows[0], m)];
    assert t.procs == [Proc(q, true, true, claimed || m.target.Applying?, next)];
  }

  lemma Goes(s: State, q: Request, l: Lifecycle, claimed: bool, pc: Pc, next: Pc)
    requires Alone(s, q, l, None, claimed, pc)
    ensures Alone(Goto(s, 0, next), q, l, None, claimed, next)
    ensures forall e :: Alone(Note(s, 0, e, next), q, l, None, claimed, next)
  {
    assert Goto(s, 0, next).procs == [Proc(q, true, true, claimed, next)];
  }

  /** From an empty journal to a prepared row. */
  lemma Prepares(q: Request)
    ensures var s := Do(Do(Do(INITIAL, Spawn(q, true)), Act(0, Yes)), Act(0, Yes));
      Alone(s, q, Prepared, None, false, CancelPoll)
  {
    var s1 := Do(INITIAL, Spawn(q, true));
    assert s1.procs == [Proc(q, true, true, false, Begin)] && s1.rows == [];
    var s2 := Do(s1, Act(0, Yes));
    assert s2.procs == [Proc(q, true, true, false, Ready)] && s2.rows == [];
    var s3 := Do(s2, Act(0, Yes));
    assert Prepare([], q).0 == [NewRow(q)];
    assert s3.procs == [Proc(q, true, true, false, CancelPoll)];
  }

  function Next(s: State, a: Answer): State {
    Do(s, Act(0, a))
  }

  lemma Applies(s: State, q: Request, truth: Truth)
    requires Alone(s, q, Prepared, None, false, CancelPoll)
    ensures var t := Next(Next(Next(Next(Next(s, No), Yes), Yes), Yes), Landed(truth));
      Alone(t, q, Applying, None, true, MainAfterPatch(truth))
  {
    var s1 := Next(s, No);
    Goes(s, q, Prepared, false, CancelPoll, CheckAuthority);
    var s2 := Next(s1, Yes);
    Goes(s1, q, Prepared, false, CheckAuthority, Claim);
    Moves(s2, q, Prepared, false, Claim, Plain(Prepared, Applying), Patching);
    var s3 := Next(s2, Yes);
    Goes(s3, q, Applying, true, Patching, PatchRunning);
    var s4 := Next(s3, Yes);
    Goes(s4, q, Applying, true, PatchRunning, MainAfterPatch(truth));
  }

  lemma ReachesGates(s: State, q: Request, truth: Truth)
    requires Alone(s, q, Applying, None, true, MainAfterPatch(truth))
    ensures var t := Next(Next(Next(Next(s, Yes), Yes), Yes), Yes);
      Alone(t, q, Gating, None, true, RunGates(truth, []))
  {
    var s1 := Next(s, Yes);
    Goes(s, q, Applying, true, MainAfterPatch(truth), WriteApplied(truth));
    Moves(s1, q, Applying, true, WriteApplied(truth), Plain(Applying, Applied), RecheckAuthority(truth));
    var s2 := Next(s1, Yes);
    Goes(s2, q, Applied, true, RecheckAuthority(truth), WriteGating(truth));
    var s3 := Next(s2, Yes);
    Moves(s3, q, Applied, true, WriteGating(truth), Plain(Applied, Gating), RunGates(truth, []));
  }

  function Pass(): Answer {
    GateTurn(Turn(false, Some(ProcessRun(0, false, false, false)), true))
  }

  lemma PassesGate(s: State, q: Request, truth: Truth)
    requires q.target.lane.TinyDocs? && Alone(s, q, Gating, None, true, RunGates(truth, []))
    ensures var g := GateExit("doc-governance-v1", Some(0), None, Passed);
      Alone(Next(Next(Next(s, Pass()), Yes), Yes), q, Gating, None, true, FinalIntegrity(truth, [g]))
  {
    var command := "doc-governance-v1";
    var g := GateExit(command, Some(0), None, Passed);
    PassesExactlyWhen(command, Pass().turn);
    assert RunOne(command, Pass().turn) == GatePassed(g);
    assert [] + [g] == [g];
    var s1 := Next(s, Pass());
    Goes(s, q, Gating, true, RunGates(truth, []), CheckIntegrity(truth, [g]));
    assert s1 == Note(s, 0, GateRan(0, g), CheckIntegrity(truth, [g]));
    var s2 := Next(s1, Yes);
    Goes(s1, q, Gating, true, CheckIntegrity(truth, [g]), RunGates(truth, [g]));
    assert s2 == Note(s1, 0, IntegrityHeld(0), RunGates(truth, [g]));
    Goes(s2, q, Gating, true, RunGates(truth, [g]), FinalIntegrity(truth, [g]));
  }

  lemma Accepts(s: State, q: Request, truth: Truth, results: seq<GateExit>)
    requires Alone(s, q, Gating, None, true, FinalIntegrity(truth, results))
    ensures var receipt := AcceptedReceipt(q, truth, results);
      Alone(Next(Next(Next(s, Yes), Yes), Yes), q, Accepted, Some(receipt), true, Returned(receipt))
  {
    var receipt := AcceptedReceipt(q, truth, results);
    var s1 := Next(s, Yes);
    Goes(s, q, Gating, true, FinalIntegrity(truth, results), MainBeforeAccept(truth, results));
    var s2 := Next(s1, Yes);
    Goes(s1, q, Gating, true, MainBeforeAccept(truth, results), WriteAccepted(truth, results));
    Moves(s2, q, Gating, true, WriteAccepted(truth, results), WithReceipt(Gating, receipt), Returned(receipt));
  }

  ghost predicate Reached(s: State) {
    exists actions :: Run(INITIAL, actions) == s
  }

  lemma {:induction false} RunThen(s: State, actions: seq<Action>, a: Action)
    ensures Run(s, actions + [a]) == Do(Run(s, actions), a)
    decreases |actions|
  {
    if actions == [] {
      assert [] + [a] == [a] && [a][1..] == [];
      assert Run(Do(s, a), []) == Do(s, a);
    } else {
      assert (actions + [a])[1..] == actions[1..] + [a];
      RunThen(Do(s, actions[0]), actions[1..], a);
    }
  }

  lemma ReachedThen(s: State, a: Action)
    requires Reached(s)
    ensures Reached(Do(s, a))
  {
    var actions :| Run(INITIAL, actions) == s;
    RunThen(INITIAL, actions, a);
  }

  lemma ThreeMore(s: State, a: Answer, b: Answer, c: Answer)
    requires Reached(s)
    ensures Reached(Next(Next(Next(s, a), b), c))
  {
    ReachedThen(s, Act(0, a));
    ReachedThen(Next(s, a), Act(0, b));
    ReachedThen(Next(Next(s, a), b), Act(0, c));
  }

  /** Every documentation request can be accepted, whatever patch it carries. */
  lemma AcceptanceIsReachable(q: Request, truth: Truth)
    requires q.target.lane.TinyDocs?
    ensures exists actions ::
      var rows := Run(INITIAL, actions).rows;
      |rows| == 1 && rows[0].digest == q && rows[0].lifecycle.Accepted?
  {
    assert Run(INITIAL, []) == INITIAL;
    ReachedThen(INITIAL, Spawn(q, true));
    var s0 := Do(INITIAL, Spawn(q, true));
    ReachedThen(s0, Act(0, Yes));
    ReachedThen(Next(s0, Yes), Act(0, Yes));
    Prepares(q);
    var s1 := Next(Next(s0, Yes), Yes);
    Applies(s1, q, truth);
    ThreeMore(s1, No, Yes, Yes);
    var s2 := Next(Next(Next(s1, No), Yes), Yes);
    ReachedThen(s2, Act(0, Yes));
    ReachedThen(Next(s2, Yes), Act(0, Landed(truth)));
    var s3 := Next(Next(s2, Yes), Landed(truth));
    FinishesFrom(s3, q, truth);
  }

  lemma FinishesFrom(s: State, q: Request, truth: Truth)
    requires Reached(s) && q.target.lane.TinyDocs? && Alone(s, q, Applying, None, true, MainAfterPatch(truth))
    ensures exists actions ::
      var rows := Run(INITIAL, actions).rows;
      |rows| == 1 && rows[0].digest == q && rows[0].lifecycle.Accepted?
  {
    ReachesGates(s, q, truth);
    ThreeMore(s, Yes, Yes, Yes);
    var s4 := Next(Next(Next(s, Yes), Yes), Yes);
    ReachedThen(s4, Act(0, Yes));
    var s5 := Next(s4, Yes);
    PassesGate(s5, q, truth);
    ThreeMore(s5, Pass(), Yes, Yes);
    var s6 := Next(Next(Next(s5, Pass()), Yes), Yes);
    Accepts(s6, q, truth, [GateExit("doc-governance-v1", Some(0), None, Passed)]);
    ThreeMore(s6, Yes, Yes, Yes);
    var s7 := Next(Next(Next(s6, Yes), Yes), Yes);
    var actions :| Run(INITIAL, actions) == s7;
    assert Run(INITIAL, actions).rows[0].lifecycle.Accepted?;
  }
}
