/** Verification gates: one process after another, Git truth checked after each. */
module OrchestrationGates {
  import opened Wrappers

  datatype GateState = Passed | FailedGate | TimedOut | OutputExceeded | CancelledGate

  /** What a bounded process reports. */
  datatype ProcessRun = ProcessRun(returncode: int, timedOut: bool, outputExceeded: bool, cancelled: bool)

  datatype GateExit = GateExit(command: string, exitCode: Option<int>, signal: Option<int>, state: GateState)

  /** What surrounds one command: the cancellation poll, the process, the integrity check. */
  datatype Turn = Turn(cancelledBefore: bool, run: Option<ProcessRun>, intact: bool)

  datatype Verdict =
    | GatePassed(result: GateExit)
    | GateStopped(code: string, recorded: Option<GateExit>)
    | GateUnrecordable

  datatype Outcome =
    | AllPassed(results: seq<GateExit>)
    | GateRunError(code: string, results: seq<GateExit>)
    | ResultRejected

  function ProcessState(run: ProcessRun): (GateState, Option<string>) {
    if run.cancelled then (CancelledGate, Some("cancelled"))
    else if run.outputExceeded then (OutputExceeded, Some("gate-output-exceeded"))
    else if run.timedOut then (TimedOut, Some("gate-timeout"))
    else if run.returncode != 0 then (FailedGate, Some("gate-failed"))
    else (Passed, None)
  }

  function ExitOf(command: string, run: ProcessRun): GateExit {
    GateExit(command,
             if run.returncode >= 0 then Some(run.returncode) else None,
             if run.returncode < 0 then Some(-run.returncode) else None,
             ProcessState(run).0)
  }

  /** The result model refuses an exit code of zero on any gate that did not pass. */
  predicate Recordable(g: GateExit) {
    && (g.exitCode.Some? ==> 0 <= g.exitCode.value <= 255)
    && (g.signal.Some? ==> 1 <= g.signal.value <= 255)
    && !(g.exitCode.Some? && g.signal.Some?)
    && (g.state.Passed? ==> g.exitCode == Some(0) && g.signal.None?)
    && (g.state.FailedGate? ==> !(g.exitCode in {None, Some(0)} && g.signal.None?))
    && (!g.state.Passed? ==> g.exitCode != Some(0))
  }

  /** One command up to its recorded result. */
  function RunOne(command: string, turn: Turn): Verdict {
    if turn.cancelledBefore then GateStopped("cancelled", None)
    else if turn.run.None? then GateStopped("gate-failed", None)
    else
      var result := ExitOf(command, turn.run.value);
      var code := ProcessState(turn.run.value).1;
      if !Recordable(result) then GateUnrecordable
      else if code.Some? then GateStopped(code.value, Some(result))
      else GatePassed(result)
  }

  predicate PassesTurn(turn: Turn) {
    !turn.cancelledBefore && turn.run == Some(ProcessRun(0, false, false, false)) && turn.intact
  }

  predicate PassedAs(result: GateExit, command: string) {
    result == GateExit(command, Some(0), None, Passed)
  }

  /** Every recorded result is its own command's, in order, and passed. */
  predicate PassedPrefix(commands: seq<string>, results: seq<GateExit>) {
    && |results| <= |commands|
    && forall i :: 0 <= i < |results| ==> PassedAs(results[i], commands[i])
  }

  /** A gate passes exactly when its process ended with code zero and nothing else happened. */
  lemma PassesExactlyWhen(command: string, turn: Turn)
    ensures RunOne(command, turn).GatePassed? && turn.intact <==> PassesTurn(turn)
    ensures RunOne(command, turn).GatePassed? ==> PassedAs(RunOne(command, turn).result, command)
  {
    if PassesTurn(turn) {
      assert Recordable(ExitOf(command, turn.run.value));
    }
  }

  /**
   * A process that was stopped or cut off but still left exit code zero has no
   * recordable result, so the run ends without any orchestration outcome.
   */
  lemma UnrecordableExactlyWhen(command: string, turn: Turn)
    requires turn.run.Some? ==> -255 <= turn.run.value.returncode <= 255
    ensures RunOne(command, turn).GateUnrecordable? <==>
      !turn.cancelledBefore && turn.run.Some? && turn.run.value.returncode == 0
      && (turn.run.value.cancelled || turn.run.value.outputExceeded || turn.run.value.timedOut)
  {
    if turn.run.Some? {
      var r := turn.run.value;
      assert ExitOf(command, r).exitCode == (if r.returncode >= 0 then Some(r.returncode) else None);
    }
  }

  /** A cancellation comes first, then the output limit, then the timeout, then the exit code. */
  predicate StopsAs(turn: Turn, code: string, state: GateState) {
    && turn.run.Some?
    && var r := turn.run.value;
       || (r.cancelled && code == "cancelled" && state == CancelledGate)
       || (!r.cancelled && r.outputExceeded && code == "gate-output-exceeded" && state == OutputExceeded)
       || (!r.cancelled && !r.outputExceeded && r.timedOut && code == "gate-timeout" && state == TimedOut)
       || (!r.cancelled && !r.outputExceeded && !r.timedOut && code == "gate-failed" && state == FailedGate)
  }

  /** Why a gate stopped, and what is recorded of it: nothing when it never ran. */
  lemma StopsFor(command: string, turn: Turn)
    requires RunOne(command, turn).GateStopped?
    ensures var v := RunOne(command, turn);
      && (v.recorded.None? <==> turn.cancelledBefore || turn.run.None?)
      && (v.recorded.None? ==> v.code == if turn.cancelledBefore then "cancelled" else "gate-failed")
      && (v.recorded.Some? ==>
            var c := turn.run.value.returncode;
            && v.recorded.value.command == command && StopsAs(turn, v.code, v.recorded.value.state)
            && (c > 0 ==> v.recorded.value.exitCode == Some(c) && v.recorded.value.signal == None)
            && (c < 0 ==> v.recorded.value.exitCode == None && v.recorded.value.signal == Some(-c)))
  {
  }

  /** What an early stop after command `k` has recorded. */
  predicate StoppedAt(commands: seq<string>, turns: seq<Turn>, k: nat, code: string, results: seq<GateExit>)
    requires k < |commands| && |commands| <= |turns|
  {
    && (forall i :: 0 <= i < k ==> PassesTurn(turns[i]))
    && |results| <= k + 1 && PassedPrefix(commands, results[..Min(|results|, k)])
    && match RunOne(commands[k], turns[k])
       case GateStopped(stop, last) =>
         code == stop && |results| == (if last.Some? then k + 1 else k)
         && (last.Some? ==> results[k] == last.value && !last.value.state.Passed?)
       case GatePassed(last) =>
         code == "gate-drift" && !turns[k].intact && |results| == k + 1 && results[k] == last
       case GateUnrecordable => false
  }

  function Min(a: nat, b: nat): nat {
    if a <= b then a else b
  }

  /** The loop over the lane's commands; `turns` are the environment's answers. */
  method RunGateCommands(commands: seq<string>, turns: seq<Turn>) returns (outcome: Outcome)
    requires |commands| <= |turns|
    ensures outcome.AllPassed? <==> forall i :: 0 <= i < |commands| ==> PassesTurn(turns[i])
    ensures outcome.AllPassed? ==> |outcome.results| == |commands| && PassedPrefix(commands, outcome.results)
    ensures outcome.GateRunError? ==> exists k: nat ::
              k < |commands| && StoppedAt(commands, turns, k, outcome.code, outcome.results)
    ensures outcome.ResultRejected? ==> exists k: nat ::
              k < |commands| && (forall i :: 0 <= i < k ==> PassesTurn(turns[i])) && RunOne(commands[k], turns[k]).GateUnrecordable?
  {
    var results: seq<GateExit> := [];
    var k := 0;
    while k < |commands|
      invariant 0 <= k <= |commands| && |results| == k
      invariant forall i :: 0 <= i < k ==> PassesTurn(turns[i])
      invariant PassedPrefix(commands, results)
    {
      PassesExactlyWhen(commands[k], turns[k]);
      var verdict := RunOne(commands[k], turns[k]);
      match verdict {
        case GateUnrecordable =>
          return ResultRejected;
        case GateStopped(code, last) =>
          outcome := GateRunError(code, if last.Some? then results + [last.value] else results);
          assert outcome.results[..k] == results;
          assert StoppedAt(commands, turns, k, code, outcome.results);
          return;
        case GatePassed(result) =>
          var before := results;
          results := results + [result];
          assert results[..k] == before;
          if !turns[k].intact {
            assert StoppedAt(commands, turns, k, "gate-drift", results);
            return GateRunError("gate-drift", results);
          }
      }
      k := k + 1;
    }
    return AllPassed(results);
  }
}
