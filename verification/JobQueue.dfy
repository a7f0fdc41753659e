/**
 * The AI job queue: four directories of job files and any number of run-next
 * processes, each killed anywhere between two file operations.
 */
module JobQueue {
  import opened Wrappers
  import opened Text

  const GRACE := 60

  /** The fields the protocol reads; times and timeouts are None when absent or invalid. */
  datatype Job = Job(
    startedAt: Option<int>, updatedAt: Option<int>, timeout: Option<int>, attempts: nat, status: string)

  datatype File = Readable(job: Job) | Unreadable

  type Directory = map<string, File>

  datatype Queue = Queue(queued: Directory, running: Directory, completed: Directory, failed: Directory)

  /** `remaining` is the recovery's remaining listing, or None when the file is the process's own claim. */
  datatype Pc =
    | Begin
    | Recovering(rest: seq<string>)
    | CheckQueue
    | Claiming(names: seq<string>)
    | Owned(name: string)
    | Restoring(name: string)
    | Starting(name: string, job: Job)
    | Working(name: string, job: Job)
    | WriteTerminal(ok: bool, name: string, job: Job, remaining: Option<seq<string>>)
    | Unlinking(name: string, remaining: Option<seq<string>>)
    | Finished

  datatype Proc = Proc(alive: bool, pc: Pc)

  datatype Event = Submitted(name: string) | Claimed(who: nat, name: string) | Restored(name: string)

  datatype State = State(queue: Queue, procs: seq<Proc>, log: seq<Event>)

  datatype PaidRecovery = NotPaid | PaidError | PaidCompleted | PaidFailed

  /** What the environment answers: a listing, the clock, a check, the worker's outcome. */
  datatype Answer =
    | Listing(all: seq<string>) | Clock(now: int, paid: PaidRecovery)
    | Yes | No | Broken | Worked(ok: bool)

  datatype Action = Submit(name: string, job: Job) | Spawn | Act(p: nat, answer: Answer) | Crash(p: nat)

  const EMPTY := State(Queue(map[], map[], map[], map[]), [], [])

  // ---- decisions --------------------------------------------------------

  function CorruptJob(): Job {
    Job(None, None, None, 0, "corrupt-queued-job")
  }

  /** Why a running file is taken over, if it is. */
  function RecoverableStatus(job: Job, now: int): Option<string> {
    var since := if job.startedAt.Some? then job.startedAt else job.updatedAt;
    if since.None? || job.timeout.None? then Some("invalid-running-job")
    else if now > since.value + job.timeout.value + GRACE then Some("stale-running-job")
    else None
  }

  predicate IsListing(names: seq<string>, d: Directory) {
    StrictlySorted(names) && Elements(names) == d.Keys
  }

  // ---- file operations --------------------------------------------------

  function Goto(s: State, p: nat, pc: Pc): State
    requires p < |s.procs|
  {
    s.(procs := s.procs[p := s.procs[p].(pc := pc)])
  }

  /** `rename` queued to running; it succeeds for one process only. */
  function Claim(s: State, p: nat, name: string): State
    requires p < |s.procs| && name in s.queue.queued
  {
    var q := s.queue;
    Goto(s, p, Owned(name)).(
      queue := q.(queued := q.queued - {name}, running := q.running[name := q.queued[name]]),
      log := s.log + [Claimed(p, name)])
  }

  function Restore(s: State, p: nat, name: string): State
    requires p < |s.procs|
  {
    var q := s.queue;
    if name !in q.running then Goto(s, p, Finished)
    else
      Goto(s, p, Finished).(
        queue := q.(running := q.running - {name}, queued := q.queued[name := q.running[name]]),
        log := s.log + [Restored(name)])
  }

  function Write(s: State, p: nat, ok: bool, name: string, job: Job, pc: Pc): State
    requires p < |s.procs|
  {
    var q := s.queue;
    Goto(s, p, pc).(queue := if ok then q.(completed := q.completed[name := Readable(job)])
                             else q.(failed := q.failed[name := Readable(job)]))
  }

  function Unlink(s: State, p: nat, name: string, pc: Pc): State
    requires p < |s.procs|
  {
    Goto(s, p, pc).(queue := s.queue.(running := s.queue.running - {name}))
  }

  function Recover(s: State, p: nat, names: seq<string>, now: int, paid: PaidRecovery): State
    requires p < |s.procs| && names != []
  {
    var name, rest := names[0], names[1..];
    if name !in s.queue.running || s.queue.running[name].Unreadable? then
      Goto(s, p, WriteTerminal(false, name, CorruptJob(), Some(rest)))
    else
      var job := s.queue.running[name].job;
      var status := RecoverableStatus(job, now);
      if status.None? then Goto(s, p, Recovering(rest))
      else if paid.PaidCompleted? then
        Goto(s, p, WriteTerminal(true, name, job.(status := "paid-cost-already-settled"), Some(rest)))
      else
        var why := if paid.PaidError? then "paid-cost-recovery-failed"
                   else if paid.PaidFailed? then "stale-paid-worker" else status.value;
        Goto(s, p, WriteTerminal(false, name, job.(status := why), Some(rest)))
  }

  function Inspect(s: State, p: nat, name: string, a: Answer): State
    requires p < |s.procs|
  {
    if name !in s.queue.running || s.queue.running[name].Unreadable? || a.Broken? then
      Goto(s, p, WriteTerminal(false, name, CorruptJob(), None))
    else if a.No? then Goto(s, p, Restoring(name))
    else if a.Yes? then Goto(s, p, Starting(name, s.queue.running[name].job))
    else s
  }

  function Begun(job: Job, now: int): Job {
    job.(startedAt := Some(now), updatedAt := Some(now), attempts := job.attempts + 1, status := "running")
  }

  function Advance(s: State, p: nat, a: Answer): State
    requires p < |s.procs|
  {
    match s.procs[p].pc
    case Begin => if a.Listing? && IsListing(a.all, s.queue.running) then Goto(s, p, Recovering(a.all)) else s
    case Recovering(rest) =>
      if rest == [] then Goto(s, p, CheckQueue)
      else if a.Clock? then Recover(s, p, rest, a.now, a.paid)
      else s
    case CheckQueue =>
      if a.Listing? && IsListing(a.all, s.queue.queued) then Goto(s, p, Claiming(a.all))
      else if a.No? then Goto(s, p, Finished)
      else s
    case Claiming(names) =>
      if names == [] then Goto(s, p, Finished)
      else if names[0] in s.queue.queued then Claim(s, p, names[0])
      else Goto(s, p, Claiming(names[1..]))
    case Owned(name) => Inspect(s, p, name, a)
    case Restoring(name) => Restore(s, p, name)
    case Starting(name, job) =>
      if a.Clock? then
        Goto(s, p, Working(name, Begun(job, a.now))).(
          queue := s.queue.(running := s.queue.running[name := Readable(Begun(job, a.now))]))
      else s
    case Working(name, job) =>
      if a.No? then Goto(s, p, WriteTerminal(false, name, job.(status := "paid-authorization-invalid"), None))
      else if a.Worked? then
        Goto(s, p, WriteTerminal(a.ok, name, job.(status := if a.ok then "completed" else "failed"), None))
      else s
    case WriteTerminal(ok, name, job, rest) => Write(s, p, ok, name, job, Unlinking(name, rest))
    case Unlinking(name, rest) => Unlink(s, p, name, if rest.Some? then Recovering(rest.value) else Finished)
    case Finished => s
  }

  /** Job ids are fresh, so a name is submitted once. */
  function Do(s: State, a: Action): State {
    match a
    case Submit(name, job) =>
      if Submitted(name) in s.log then s
      else s.(queue := s.queue.(queued := s.queue.queued[name := Readable(job)]), log := s.log + [Submitted(name)])
    case Spawn => s.(procs := s.procs + [Proc(true, Begin)])
    case Act(p, answer) => if p < |s.procs| && s.procs[p].alive then Advance(s, p, answer) else s
    case Crash(p) => if p < |s.procs| then s.(procs := s.procs[p := s.procs[p].(alive := false)]) else s
  }

  function Run(s: State, actions: seq<Action>): State
    decreases |actions|
  {
    if actions == [] then s else Run(Do(s, actions[0]), actions[1..])
  }

  // ---- counting ---------------------------------------------------------

  predicate Places(e: Event, name: string) {
    e == Submitted(name) || e == Restored(name)
  }

  predicate Takes(e: Event, name: string) {
    e.Claimed? && e.name == name
  }

  function Placements(log: seq<Event>, name: string): nat {
    if log == [] then 0
    else Placements(log[..|log| - 1], name) + (if Places(log[|log| - 1], name) then 1 else 0)
  }

  function Claims(log: seq<Event>, name: string): nat {
    if log == [] then 0
    else Claims(log[..|log| - 1], name) + (if Takes(log[|log| - 1], name) then 1 else 0)
  }

  lemma CountOne(log: seq<Event>, e: Event, name: string)
    ensures Placements(log + [e], name) == Placements(log, name) + (if Places(e, name) then 1 else 0)
    ensures Claims(log + [e], name) == Claims(log, name) + (if Takes(e, name) then 1 else 0)
  {
    assert (log + [e])[..|log|] == log;
  }

  // ---- the invariant ----------------------------------------------------

  predicate Terminal(q: Queue, name: string) {
    name in q.completed || name in q.failed
  }

  predicate Present(q: Queue, name: string) {
    name in q.queued || name in q.running || Terminal(q, name)
  }

  /** The job a process has claimed and not yet given up. */
  function Owns(pc: Pc): Option<string> {
    match pc
    case Owned(name) => Some(name)
    case Restoring(name) => Some(name)
    case Starting(name, _) => Some(name)
    case Working(name, _) => Some(name)
    case WriteTerminal(_, name, _, rest) => if rest.None? then Some(name) else None
    case Unlinking(name, rest) => if rest.None? then Some(name) else None
    case _ => None
  }

  ghost predicate ProcOk(s: State, p: nat)
    requires p < |s.procs|
  {
    var pc := s.procs[p].pc;
    && (pc.Unlinking? ==> Terminal(s.queue, pc.name))
    && (Owns(pc).Some? ==> Owns(pc).value !in s.queue.queued && Submitted(Owns(pc).value) in s.log)
  }

  ghost predicate SoleOwners(s: State) {
    forall p, r :: 0 <= p < r < |s.procs| && Owns(s.procs[p].pc).Some? ==> Owns(s.procs[p].pc) != Owns(s.procs[r].pc)
  }

  ghost predicate NameOk(s: State, name: string) {
    && (Submitted(name) in s.log ==> Present(s.queue, name))
    && (name in s.queue.queued ==> Submitted(name) in s.log)
    && Placements(s.log, name) == Claims(s.log, name) + (if name in s.queue.queued then 1 else 0)
  }

  ghost predicate Inv(s: State) {
    && SoleOwners(s)
    && (forall p :: 0 <= p < |s.procs| ==> ProcOk(s, p))
    && (forall name :: NameOk(s, name))
  }

  lemma InitialInv()
    ensures Inv(EMPTY)
  {
  }

  /** A step that moves no file keeps everything, if it takes nothing over. */
  lemma GotoKeeps(s: State, p: nat, pc: Pc)
    requires Inv(s) && p < |s.procs|
    requires !pc.Unlinking? && (Owns(pc).Some? ==> Owns(pc) == Owns(s.procs[p].pc))
    ensures Inv(Goto(s, p, pc))
  {
    var t := Goto(s, p, pc);
    forall r | 0 <= r < |t.procs| ensures ProcOk(t, r) {
      assert ProcOk(s, r) && ProcOk(s, p);
    }
    forall name ensures NameOk(t, name) {
      assert NameOk(s, name);
    }
  }

  lemma ClaimKeeps(s: State, p: nat, name: string)
    requires Inv(s) && p < |s.procs| && name in s.queue.queued && Owns(s.procs[p].pc).None?
    ensures Inv(Claim(s, p, name))
  {
    var t := Claim(s, p, name);
    assert NameOk(s, name);
    forall r | 0 <= r < |t.procs| ensures ProcOk(t, r) && (r != p ==> Owns(t.procs[r].pc) != Some(name)) {
      assert ProcOk(s, r);
    }
    forall n ensures NameOk(t, n) {
      assert NameOk(s, n);
      CountOne(s.log, Claimed(p, name), n);
    }
  }

  lemma RestoreKeeps(s: State, p: nat, name: string)
    requires Inv(s) && p < |s.procs| && Owns(s.procs[p].pc) == Some(name)
    ensures Inv(Restore(s, p, name))
  {
    var t := Restore(s, p, name);
    assert ProcOk(s, p);
    if name !in s.queue.running {
      GotoKeeps(s, p, Finished);
    } else {
      forall r | 0 <= r < |t.procs| ensures ProcOk(t, r) {
        assert ProcOk(s, r);
        assert r != p ==> Owns(s.procs[r].pc) != Some(name);
      }
      forall n ensures NameOk(t, n) {
        assert NameOk(s, n);
        CountOne(s.log, Restored(name), n);
      }
    }
  }

  lemma WriteKeeps(s: State, p: nat, ok: bool, name: string, job: Job, rest: Option<seq<string>>)
    requires Inv(s) && p < |s.procs| && s.procs[p].pc == WriteTerminal(ok, name, job, rest)
    ensures Inv(Write(s, p, ok, name, job, Unlinking(name, rest)))
  {
    var t := Write(s, p, ok, name, job, Unlinking(name, rest));
    forall r | 0 <= r < |t.procs| ensures ProcOk(t, r) {
      assert ProcOk(s, r);
    }
    forall n ensures NameOk(t, n) {
      assert NameOk(s, n);
    }
  }

  lemma UnlinkKeeps(s: State, p: nat, name: string, pc: Pc)
    requires Inv(s) && p < |s.procs| && s.procs[p].pc.Unlinking? && s.procs[p].pc.name == name
    requires !pc.Unlinking? && Owns(pc).None?
    ensures Inv(Unlink(s, p, name, pc))
  {
    var t := Unlink(s, p, name, pc);
    assert ProcOk(s, p);
    forall r | 0 <= r < |t.procs| ensures ProcOk(t, r) {
      assert ProcOk(s, r);
    }
    forall n ensures NameOk(t, n) {
      assert NameOk(s, n);
    }
  }

  lemma StartKeeps(s: State, p: nat, name: string, job: Job, now: int)
    requires Inv(s) && p < |s.procs| && s.procs[p].pc == Starting(name, job)
    ensures Inv(Advance(s, p, Clock(now, NotPaid)))
  {
    var t := Advance(s, p, Clock(now, NotPaid));
    forall r | 0 <= r < |t.procs| ensures ProcOk(t, r) {
      assert ProcOk(s, r);
    }
    forall n ensures NameOk(t, n) {
      assert NameOk(s, n);
    }
  }

  lemma AdvanceKeeps(s: State, p: nat, a: Answer)
    requires Inv(s) && p < |s.procs|
    ensures Inv(Advance(s, p, a))
  {
    match s.procs[p].pc {
      case Begin =>
        if a.Listing? {
          GotoKeeps(s, p, Recovering(a.all));
        }
      case Recovering(rest) =>
        if rest == [] {
          GotoKeeps(s, p, CheckQueue);
        } else if a.Clock? {
          var t := Recover(s, p, rest, a.now, a.paid);
          GotoKeeps(s, p, t.procs[p].pc);
        }
      case CheckQueue =>
        if a.Listing? {
          GotoKeeps(s, p, Claiming(a.all));
        }
        GotoKeeps(s, p, Finished);
      case Claiming(names) =>
        if names == [] {
          GotoKeeps(s, p, Finished);
        } else if names[0] in s.queue.queued {
          ClaimKeeps(s, p, names[0]);
        } else {
          GotoKeeps(s, p, Claiming(names[1..]));
        }
      case Owned(name) =>
        var t := Inspect(s, p, name, a);
        GotoKeeps(s, p, t.procs[p].pc);
      case Restoring(name) =>
        RestoreKeeps(s, p, name);
      case Starting(name, job) =>
        if a.Clock? {
          StartKeeps(s, p, name, job, a.now);
        }
      case Working(name, job) =>
        var t := Advance(s, p, a);
        GotoKeeps(s, p, t.procs[p].pc);
      case WriteTerminal(ok, name, job, rest) =>
        WriteKeeps(s, p, ok, name, job, rest);
      case Unlinking(name, rest) =>
        UnlinkKeeps(s, p, name, if rest.Some? then Recovering(rest.value) else Finished);
      case Finished =>
    }
  }

  lemma SubmitKeeps(s: State, name: string, job: Job)
    requires Inv(s)
    ensures Inv(Do(s, Submit(name, job)))
  {
    if Submitted(name) !in s.log {
      var t := Do(s, Submit(name, job));
      forall r | 0 <= r < |t.procs| ensures ProcOk(t, r) {
        assert ProcOk(s, r);
      }
      forall n ensures NameOk(t, n) {
        assert NameOk(s, n);
        CountOne(s.log, Submitted(name), n);
      }
    }
  }

  lemma StepKeeps(s: State, a: Action)
    requires Inv(s)
    ensures Inv(Do(s, a))
  {
    match a {
      case Submit(name, job) => SubmitKeeps(s, name, job);
      case Act(p, answer) =>
        if p < |s.procs| && s.procs[p].alive {
          AdvanceKeeps(s, p, answer);
        }
      case Spawn => SameFilesKeep(s, Do(s, a));
      case Crash(p) => SameFilesKeep(s, Do(s, a));
    }
  }

  lemma SameFilesKeep(s: State, t: State)
    requires Inv(s) && t.queue == s.queue && t.log == s.log && |s.procs| <= |t.procs|
    requires forall p :: 0 <= p < |s.procs| ==> t.procs[p].pc == s.procs[p].pc
    requires forall p :: |s.procs| <= p < |t.procs| ==> t.procs[p].pc.Begin?
    ensures Inv(t)
  {
    forall r | 0 <= r < |t.procs| ensures ProcOk(t, r) {
      if r < |s.procs| {
        assert ProcOk(s, r);
      }
    }
    forall n ensures NameOk(t, n) {
      assert NameOk(s, n);
    }
  }

  lemma {:induction false} RunKeeps(s: State, actions: seq<Action>)
    requires Inv(s)
    ensures Inv(Run(s, actions))
    decreases |actions|
  {
    if actions != [] {
      StepKeeps(s, actions[0]);
      RunKeeps(Do(s, actions[0]), actions[1..]);
    }
  }

  // ---- safety over all runs ---------------------------------------------

  /** A submitted job is never lost, whoever is killed where. */
  lemma SubmittedJobsStayPresent(actions: seq<Action>, name: string)
    requires Submitted(name) in Run(EMPTY, actions).log
    ensures Present(Run(EMPTY, actions).queue, name)
  {
    InitialInv();
    RunKeeps(EMPTY, actions);
    assert NameOk(Run(EMPTY, actions), name);
  }

  /** Every placement in the queue is claimed by one process, or still waits. */
  lemma EachPlacementIsClaimedOnce(actions: seq<Action>, name: string)
    ensures var s := Run(EMPTY, actions);
      Placements(s.log, name) == Claims(s.log, name) + (if name in s.queue.queued then 1 else 0)
  {
    InitialInv();
    RunKeeps(EMPTY, actions);
    assert NameOk(Run(EMPTY, actions), name);
  }

  /** No two processes hold a claim on the same job. */
  lemma ClaimsAreExclusive(actions: seq<Action>)
    ensures SoleOwners(Run(EMPTY, actions))
  {
    InitialInv();
    RunKeeps(EMPTY, actions);
  }

  lemma {:induction false} TerminalFilesRemain(s: State, actions: seq<Action>)
    ensures s.queue.completed.Keys <= Run(s, actions).queue.completed.Keys
    ensures s.queue.failed.Keys <= Run(s, actions).queue.failed.Keys
    decreases |actions|
  {
    if actions != [] {
      TerminalFilesRemain(Do(s, actions[0]), actions[1..]);
    }
  }
}
