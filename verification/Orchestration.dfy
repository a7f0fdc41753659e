/**
 * Any number of orchestrate processes over one journal.
 *
 * Each journal call and each outside effect is one atomic step; the environment
 * answers every question a step asks, and a process may stop between any two.
 */
module Orchestration {
  import opened Wrappers
  import opened OrchestrationGates
  import opened OrchestrationJournal

  /** The point a process has reached in its program. */
  datatype Pc =
    | Begin | Ready | CreatingWorktree | MainAfterCreate | CancelPoll
    | MainBeforeCancel | WriteCancelled | CheckAuthority | Claim
    | Patching | PatchRunning
    | MainAfterFailure(receipt: Receipt) | WriteFailure(receipt: Receipt)
    | MainAfterPatch(truth: Truth) | WriteApplied(truth: Truth)
    | RecheckAuthority(truth: Truth) | WriteGating(truth: Truth)
    | RunGates(truth: Truth, results: seq<GateExit>) | CheckIntegrity(truth: Truth, results: seq<GateExit>)
    | MainAfterGateError(receipt: Receipt) | WriteGateError(receipt: Receipt)
    | FinalIntegrity(truth: Truth, results: seq<GateExit>) | MainBeforeAccept(truth: Truth, results: seq<GateExit>)
    | WriteAccepted(truth: Truth, results: seq<GateExit>)
    | MarkUncertain(expected: Lifecycle)
    | Returned(receipt: Receipt) | Raised

  /** `claimed` remembers that this process won the prepared-to-applying move. */
  datatype Proc = Proc(request: Request, targetExists: bool, alive: bool, claimed: bool, pc: Pc)

  /** What changed the journal or the worktree, or was established by the owner. */
  datatype Event =
    | Inserted(who: nat) | Reentered(who: nat) | MovedTo(who: nat, from: Lifecycle, to: Lifecycle)
    | PatchStarted(who: nat) | PatchLanded(who: nat, truth: Truth) | PatchFailed(who: nat)
    | GateRan(who: nat, result: GateExit) | IntegrityHeld(who: nat) | FinalIntegrityHeld(who: nat)
    | MainUnchanged(who: nat) | AuthorityHeld(who: nat)

  datatype Entry = Entry(request: Request, event: Event)

  datatype State = State(rows: seq<Row>, procs: seq<Proc>, log: seq<Entry>)

  /** How the environment answers the question of one step. */
  datatype Answer = Yes | No | Landed(truth: Truth) | PatchError(code: string) | GateTurn(turn: Turn)

  datatype Action = Spawn(request: Request, targetExists: bool) | Act(p: nat, answer: Answer) | Crash(p: nat)

  const INITIAL := State([], [], [])

  // ---- receipts ---------------------------------------------------------

  function BuildReceipt(q: Request, lifecycle: Lifecycle, reason: string,
                        truth: Option<Truth>, gates: seq<GateExit>): Receipt
  {
    Receipt(q.id, q, q.issue, q.worktreeId, q.authority, q.target, lifecycle, reason, true, truth, gates)
  }

  function GitReason(code: string): string {
    if code in {"worktree-mismatch", "worktree-dirty", "stale-base", "proposal-invalid", "scope-denied",
                "patch-check-failed", "patch-apply-failed", "post-apply-mismatch"}
    then code else "post-apply-mismatch"
  }

  function GateReason(code: string): string {
    if code in {"gate-failed", "gate-timeout", "gate-output-exceeded", "gate-drift", "cancelled"}
    then code else "gate-failed"
  }

  function PatchErrorReceipt(q: Request, code: string): Receipt {
    if code == "cancelled" then BuildReceipt(q, Cancelled, "cancelled", None, [])
    else BuildReceipt(q, Failed, GitReason(code), None, [])
  }

  function GateErrorReceipt(q: Request, truth: Truth, code: string, gates: seq<GateExit>): Receipt {
    BuildReceipt(q, if code == "cancelled" then Cancelled else Failed, GateReason(code), Some(truth), gates)
  }

  function AcceptedReceipt(q: Request, truth: Truth, gates: seq<GateExit>): Receipt {
    BuildReceipt(q, Accepted, "accepted", Some(truth), gates)
  }

  /** The receipt model accepts the fields; building any other receipt raises. */
  predicate ReceiptValid(r: Receipt) {
    && (r.lifecycle.Accepted? <==> r.reason == "accepted")
    && (r.lifecycle.Accepted? ==>
          && r.authoritative && r.truth.Some? && r.gates != []
          && forall i :: 0 <= i < |r.gates| ==> r.gates[i].state.Passed?)
    && (r.reason == "plan-only" ==> !r.authoritative && r.lifecycle.Prepared?)
  }

  /** `commands_for_lane`; the remaining lanes raise. */
  function Commands(lane: Lane): Option<seq<string>> {
    match lane
    case TinyDocs => Some(["doc-governance-v1"])
    case DocsGuardrail => Some(["agent-workflow-docs-v1", "doc-governance-v1"])
    case TestsOnly => None
    case NormalCode => None
    case SecurityRuntime => None
    case ReleaseCiArchitecture => None
  }

  // ---- steps ------------------------------------------------------------

  function Goto(s: State, p: nat, pc: Pc): State
    requires p < |s.procs|
  {
    s.(procs := s.procs[p := s.procs[p].(pc := pc)])
  }

  function Note(s: State, p: nat, event: Event, pc: Pc): State
    requires p < |s.procs|
  {
    Goto(s, p, pc).(log := s.log + [Entry(s.procs[p].request, event)])
  }

  /** A compare-and-set; any journal error ends the process. */
  function Write(s: State, p: nat, m: Move, next: Pc): State
    requires p < |s.procs|
  {
    var x := s.procs[p];
    var t := Transition(s.rows, x.request, m);
    if t.1.Err? then Goto(s, p, Raised)
    else
      State(t.0, s.procs[p := x.(pc := next, claimed := x.claimed || m.target.Applying?)],
            s.log + [Entry(x.request, MovedTo(p, m.expected, m.target))])
  }

  function Plain(expected: Lifecycle, target: Lifecycle): Move {
    Move(expected, target, NoReason, None)
  }

  function WithReceipt(expected: Lifecycle, receipt: Receipt): Move {
    Move(expected, receipt.lifecycle, NoReason, Some(receipt))
  }

  function ToUncertain(expected: Lifecycle): Move {
    Move(expected, Uncertain, Interrupted, None)
  }

  function EnsureMain(s: State, p: nat, a: Answer, expected: Lifecycle, next: Pc): State
    requires p < |s.procs|
  {
    if !a.Yes? then Goto(s, p, MarkUncertain(expected))
    else if expected.Prepared? then Goto(s, p, next)
    else Note(s, p, MainUnchanged(p), next)
  }

  function ReadTerminal(s: State, p: nat): State
    requires p < |s.procs|
  {
    var r := TerminalReceipt(s.rows, s.procs[p].request);
    if r.Err? then Goto(s, p, Raised)
    else if r.value.Some? then Goto(s, p, Returned(r.value.value))
    else Goto(s, p, Ready)
  }

  function AfterPrepare(x: Proc, r: Result<Row, JournalError>): Pc {
    if r.Err? then Raised
    else if r.value.receipt.Some? then Returned(r.value.receipt.value)
    else if x.targetExists then CancelPoll
    else CreatingWorktree
  }

  function PrepareStep(s: State, p: nat): State
    requires p < |s.procs|
  {
    var x := s.procs[p];
    var t := Prepare(s.rows, x.request);
    var pc := AfterPrepare(x, t.1);
    if t.0 == s.rows then Goto(s, p, pc)
    else if |t.0| > |s.rows| then Note(s, p, Inserted(p), pc).(rows := t.0)
    else Note(s, p, Reentered(p), pc).(rows := t.0)
  }

  function PatchStep(s: State, p: nat, a: Answer): State
    requires p < |s.procs|
  {
    if a.Landed? then Note(s, p, PatchLanded(p, a.truth), MainAfterPatch(a.truth))
    else if !a.PatchError? then s
    else if a.code == "interrupted" then Goto(s, p, MarkUncertain(Applying))
    else Note(s, p, PatchFailed(p), MainAfterFailure(PatchErrorReceipt(s.procs[p].request, a.code)))
  }

  function GateStep(s: State, p: nat, a: Answer, truth: Truth, results: seq<GateExit>): State
    requires p < |s.procs|
  {
    var q := s.procs[p].request;
    var commands := Commands(q.target.lane);
    if commands.None? then Goto(s, p, Raised)
    else if |results| >= |commands.value| then Goto(s, p, FinalIntegrity(truth, results))
    else if !a.GateTurn? then s
    else
      var v := RunOne(commands.value[|results|], a.turn);
      if v.GateUnrecordable? then Goto(s, p, Raised)
      else if v.GatePassed? then Note(s, p, GateRan(p, v.result), CheckIntegrity(truth, results + [v.result]))
      else
        var all := if v.recorded.Some? then results + [v.recorded.value] else results;
        Goto(s, p, MainAfterGateError(GateErrorReceipt(q, truth, v.code, all)))
  }

  function Advance(s: State, p: nat, a: Answer): State
    requires p < |s.procs|
  {
    var q := s.procs[p].request;
    match s.procs[p].pc
    case Begin => ReadTerminal(s, p)
    case Ready => if a.Yes? then PrepareStep(s, p) else Goto(s, p, Raised)
    case CreatingWorktree => Goto(s, p, if a.Yes? then MainAfterCreate else MarkUncertain(Prepared))
    case MainAfterCreate => EnsureMain(s, p, a, Prepared, CancelPoll)
    case CancelPoll => Goto(s, p, if a.Yes? then MainBeforeCancel else CheckAuthority)
    case MainBeforeCancel => EnsureMain(s, p, a, Prepared, WriteCancelled)
    case WriteCancelled =>
      var receipt := BuildReceipt(q, Cancelled, "cancelled", None, []);
      Write(s, p, WithReceipt(Prepared, receipt), Returned(receipt))
    case CheckAuthority => Goto(s, p, if a.Yes? then Claim else Raised)
    case Claim => Write(s, p, Plain(Prepared, Applying), Patching)
    case Patching => Note(s, p, PatchStarted(p), PatchRunning)
    case PatchRunning => PatchStep(s, p, a)
    case MainAfterFailure(receipt) => EnsureMain(s, p, a, Applying, WriteFailure(receipt))
    case WriteFailure(receipt) => Write(s, p, WithReceipt(Applying, receipt), Returned(receipt))
    case MainAfterPatch(truth) => EnsureMain(s, p, a, Applying, WriteApplied(truth))
    case WriteApplied(truth) => Write(s, p, Plain(Applying, Applied), RecheckAuthority(truth))
    case RecheckAuthority(truth) =>
      if a.Yes? then Note(s, p, AuthorityHeld(p), WriteGating(truth)) else Goto(s, p, MarkUncertain(Applied))
    case WriteGating(truth) => Write(s, p, Plain(Applied, Gating), RunGates(truth, []))
    case RunGates(truth, results) => GateStep(s, p, a, truth, results)
    case CheckIntegrity(truth, results) =>
      if a.Yes? then Note(s, p, IntegrityHeld(p), RunGates(truth, results)) else Goto(s, p, MarkUncertain(Gating))
    case MainAfterGateError(receipt) => EnsureMain(s, p, a, Gating, WriteGateError(receipt))
    case WriteGateError(receipt) => Write(s, p, WithReceipt(Gating, receipt), Returned(receipt))
    case FinalIntegrity(truth, results) =>
      if a.Yes? then Note(s, p, FinalIntegrityHeld(p), MainBeforeAccept(truth, results))
      else Goto(s, p, MarkUncertain(Gating))
    case MainBeforeAccept(truth, results) => EnsureMain(s, p, a, Gating, WriteAccepted(truth, results))
    case WriteAccepted(truth, results) =>
      var receipt := AcceptedReceipt(q, truth, results);
      Write(s, p, WithReceipt(Gating, receipt), Returned(receipt))
    case MarkUncertain(expected) => Write(s, p, ToUncertain(expected), Raised)
    case Returned(_) => s
    case Raised => s
  }

  /** A dead, finished or unknown process does nothing. */
  function Do(s: State, action: Action): State {
    match action
    case Spawn(request, targetExists) => s.(procs := s.procs + [Proc(request, targetExists, true, false, Begin)])
    case Act(p, answer) => if p < |s.procs| && s.procs[p].alive then Advance(s, p, answer) else s
    case Crash(p) => if p < |s.procs| then s.(procs := s.procs[p := s.procs[p].(alive := false)]) else s
  }

  /** Every interleaving of starts, steps and crashes is such a run. */
  function Run(s: State, actions: seq<Action>): State
    decreases |actions|
  {
    if actions == [] then s else Run(Do(s, actions[0]), actions[1..])
  }

  /** The events of one request, in order. */
  function For(log: seq<Entry>, q: Request): seq<Event> {
    if log == [] then []
    else
      var last := log[|log| - 1];
      For(log[..|log| - 1], q) + (if last.request == q then [last.event] else [])
  }
}
