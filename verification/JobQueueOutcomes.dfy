/** What one process leaves of a job: its file, its directory, and when a recovery may take it. */
module JobQueueOutcomes {
  import opened Wrappers
  import opened Text
  import opened JobQueue
  import opened JobQueueTerminals

  function Then(s: State, p: nat, a: Answer): State {
    Do(s, Act(p, a))
  }

  predicate LiveAt(s: State, p: nat, pc: Pc) {
    p < |s.procs| && s.procs[p] == Proc(true, pc)
  }

  /** The job's file has left `running` for the terminal directory of this outcome. */
  predicate Ended(q: Queue, after: Queue, ok: bool, name: string, job: Job) {
    after == Queue(q.queued, q.running - {name},
                   if ok then q.completed[name := Readable(job)] else q.completed,
                   if ok then q.failed else q.failed[name := Readable(job)])
  }

  // ---- the owner --------------------------------------------------------

  lemma TerminalSteps(s: State, p: nat, ok: bool, name: string, job: Job, rest: Option<seq<string>>)
    requires LiveAt(s, p, WriteTerminal(ok, name, job, rest))
    ensures var t := Then(Then(s, p, Yes), p, Yes);
      && Ended(s.queue, t.queue, ok, name, job) && t.log == s.log
      && LiveAt(t, p, if rest.Some? then Recovering(rest.value) else Finished)
  {
  }

  /** A claimed job whose worker answers ends in that worker's directory, dated and counted. */
  lemma OwnerEndsJob(s: State, p: nat, name: string, job: Job, now: int, ok: bool)
    requires LiveAt(s, p, Owned(name)) && name in s.queue.running && s.queue.running[name] == Readable(job)
    ensures var u := Then(Then(s, p, Yes), p, Clock(now, NotPaid));
      var begun := Job(Some(now), Some(now), job.timeout, job.attempts + 1, "running");
      && u.queue == s.queue.(running := s.queue.running[name := Readable(begun)])
      && LiveAt(u, p, Working(name, begun))
      && (var t := Then(Then(Then(u, p, Worked(ok)), p, Yes), p, Yes);
          Ended(u.queue, t.queue, ok, name, begun.(status := if ok then "completed" else "failed"))
          && LiveAt(t, p, Finished))
      && (var t := Then(Then(Then(u, p, No), p, Yes), p, Yes);
          Ended(u.queue, t.queue, false, name, begun.(status := "paid-authorization-invalid"))
          && LiveAt(t, p, Finished))
  {
    var u := Then(Then(s, p, Yes), p, Clock(now, NotPaid));
    var begun := Job(Some(now), Some(now), job.timeout, job.attempts + 1, "running");
    assert LiveAt(u, p, Working(name, begun));
    TerminalSteps(Then(u, p, Worked(ok)), p, ok, name, begun.(status := if ok then "completed" else "failed"), None);
    TerminalSteps(Then(u, p, No), p, false, name, begun.(status := "paid-authorization-invalid"), None);
  }

  /** A blocked job goes back as it was; a broken one fails as corrupt. */
  lemma OwnerGivesUp(s: State, p: nat, name: string, job: Job)
    requires LiveAt(s, p, Owned(name)) && name in s.queue.running && s.queue.running[name] == Readable(job)
    ensures var t := Then(Then(s, p, No), p, Yes);
      && t.queue == s.queue.(running := s.queue.running - {name}, queued := s.queue.queued[name := Readable(job)])
      && t.log == s.log + [Restored(name)] && LiveAt(t, p, Finished)
    ensures var t := Then(Then(Then(s, p, Broken), p, Yes), p, Yes);
      && Ended(s.queue, t.queue, false, name, Job(None, None, None, 0, "corrupt-queued-job")) && LiveAt(t, p, Finished)
  {
    TerminalSteps(Then(s, p, Broken), p, false, name, CorruptJob(), None);
  }

  /** With the queue listed, a process claims the first waiting name, and its file moves unchanged. */
  lemma ClaimsTheFirst(s: State, p: nat, all: seq<string>)
    requires LiveAt(s, p, CheckQueue) && StrictlySorted(all) && Elements(all) == s.queue.queued.Keys && all != []
    ensures var t, first := Then(Then(s, p, Listing(all)), p, Yes), all[0];
      && (forall n :: n in s.queue.queued && n != first ==> TextBefore(first, n))
      && first in s.queue.queued && LiveAt(t, p, Owned(first))
      && t.queue == s.queue.(queued := s.queue.queued - {first},
                             running := s.queue.running[first := s.queue.queued[first]])
      && t.log == s.log + [Claimed(p, first)]
  {
    assert all[0] in Elements(all);
    forall n | n in s.queue.queued && n != all[0] ensures TextBefore(all[0], n) {
      assert n in Elements(all);
      var k :| 0 <= k < |all| && all[k] == n;
    }
  }

  // ---- recovery ---------------------------------------------------------

  /** Why a job on a recovery's list fails, from its file and what the paid ledger says. */
  predicate FailsAs(job: Job, paid: PaidRecovery, status: string) {
    match paid
    case PaidError => status == "paid-cost-recovery-failed"
    case PaidFailed => status == "stale-paid-worker"
    case PaidCompleted => false
    case NotPaid =>
      var undated := (job.startedAt.None? && job.updatedAt.None?) || job.timeout.None?;
      status == if undated then "invalid-running-job" else "stale-running-job"
  }

  /** When the job was last known to be worked on. */
  function Since(job: Job): Option<int> {
    if job.startedAt.Some? then job.startedAt else job.updatedAt
  }

  /** Longer than its timeout and the minute of grace. */
  predicate Overdue(job: Job, now: int) {
    Since(job).Some? && job.timeout.Some? ==> now - Since(job).value > job.timeout.value + 60
  }

  /** A listed file that is there: left alone until it is overdue, then ended as the ledger and the file say. */
  lemma RecoveryEndsExactly(s: State, p: nat, name: string, rest: seq<string>, job: Job, now: int, paid: PaidRecovery)
    requires LiveAt(s, p, Recovering([name] + rest))
    requires name in s.queue.running && s.queue.running[name] == Readable(job)
    ensures var u := Then(s, p, Clock(now, paid));
      var t := Then(Then(u, p, Yes), p, Yes);
      && (!Overdue(job, now) ==> u.queue == s.queue && LiveAt(u, p, Recovering(rest)))
      && (Overdue(job, now) && paid.PaidCompleted? ==>
            Ended(s.queue, t.queue, true, name, job.(status := "paid-cost-already-settled"))
            && LiveAt(t, p, Recovering(rest)))
      && (Overdue(job, now) && !paid.PaidCompleted? ==>
            exists status :: FailsAs(job, paid, status) && Ended(s.queue, t.queue, false, name, job.(status := status))
                             && LiveAt(t, p, Recovering(rest)))
  {
    assert ([name] + rest)[0] == name && ([name] + rest)[1..] == rest;
    var u := Then(s, p, Clock(now, paid));
    if Overdue(job, now) {
      TerminalSteps(u, p, u.procs[p].pc.ok, name, u.procs[p].pc.job, Some(rest));
      assert paid.PaidCompleted? || FailsAs(job, paid, u.procs[p].pc.job.status);
    }
  }

  /** A listed file that is gone or unreadable by then is failed as corrupt. */
  lemma RecoveryOfNothing(s: State, p: nat, name: string, rest: seq<string>, now: int, paid: PaidRecovery)
    requires LiveAt(s, p, Recovering([name] + rest))
    requires name in s.queue.running ==> s.queue.running[name].Unreadable?
    ensures var t := Then(Then(Then(s, p, Clock(now, paid)), p, Yes), p, Yes);
      Ended(s.queue, t.queue, false, name, Job(None, None, None, 0, "corrupt-queued-job"))
      && LiveAt(t, p, Recovering(rest))
  {
    assert ([name] + rest)[0] == name && ([name] + rest)[1..] == rest;
    TerminalSteps(Then(s, p, Clock(now, paid)), p, false, name, CorruptJob(), Some(rest));
  }

  // ---- a worker and the recoveries of others ----------------------------

  predicate WorkingOn(s: State, p: nat, name: string, job: Job) {
    LiveAt(s, p, Working(name, job)) && name in s.queue.running && s.queue.running[name] == Readable(job)
  }

  predicate NotOf(a: Action, p: nat) {
    match a
    case Act(r, _) => r != p
    case Crash(r) => r != p
    case Submit(_, _) => true
    case Spawn => true
  }

  /** While nobody takes the job over, no other process touches a worker's file. */
  lemma WorkerStep(s: State, a: Action, p: nat, name: string, job: Job)
    requires Sound(s, name) && WorkingOn(s, p, name, job) && NotOf(a, p) && !TakesOver(s, a, name)
    ensures WorkingOn(Do(s, a), p, name, job)
  {
    assert PcSound(s.queue, s.log, s.procs[p].pc, name);
    if a.Act? && a.p < |s.procs| && s.procs[a.p].alive {
      assert Compatible(s.procs[p].pc, s.procs[a.p].pc, name);
      OtherLeavesFile(s, a.p, a.answer, p, name);
    }
  }

  lemma OtherLeavesFile(s: State, r: nat, a: Answer, p: nat, name: string)
    requires r < |s.procs| && p < |s.procs| && r != p && Holds(s.procs[r].pc) != Some(name)
    requires name in s.queue.running && name !in s.queue.queued
    ensures var t := Advance(s, r, a);
      && |t.procs| == |s.procs| && t.procs[p] == s.procs[p]
      && name in t.queue.running && t.queue.running[name] == s.queue.running[name]
  {
  }

  lemma {:induction false} WorkerRun(s: State, actions: seq<Action>, p: nat, name: string, job: Job)
    requires Sound(s, name) && WorkingOn(s, p, name, job) && NoTakeovers(s, actions, name)
    requires forall a :: a in actions ==> NotOf(a, p)
    ensures WorkingOn(Run(s, actions), p, name, job)
    decreases |actions|
  {
    if actions != [] {
      assert actions[0] in actions;
      WorkerStep(s, actions[0], p, name, job);
      StepSound(s, actions[0], name);
      WorkerRun(Do(s, actions[0]), actions[1..], p, name, job);
    }
  }

  /**
   * A worker that started at `begun` and is still at it: whatever the others
   * did since, the first recovery that looks at its file takes it over exactly
   * when it has no timeout or has passed it by more than a minute.
   */
  lemma WorkersAreLeftUntilOverdue(earlier: seq<Action>, p: nat, name: string, job: Job, begun: int,
                                   since: seq<Action>, r: nat, rest: seq<string>, now: int, paid: PaidRecovery)
    requires GuardedRun(EMPTY, earlier, name) && LiveAt(Run(EMPTY, earlier), p, Starting(name, job))
    requires var s := Then(Run(EMPTY, earlier), p, Clock(begun, NotPaid));
      && NoTakeovers(s, since, name) && (forall a :: a in since ==> NotOf(a, p))
      && LiveAt(Run(s, since), r, Recovering([name] + rest))
    ensures var t := Run(Then(Run(EMPTY, earlier), p, Clock(begun, NotPaid)), since);
      TakesOver(t, Act(r, Clock(now, paid)), name) <==>
        (job.timeout.Some? ==> now - begun > job.timeout.value + 60)
  {
    RunSound(EMPTY, earlier, name);
    var s0 := Run(EMPTY, earlier);
    StepSound(s0, Act(p, Clock(begun, NotPaid)), name);
    var s, work := Then(s0, p, Clock(begun, NotPaid)), Begun(job, begun);
    WorkerRun(s, since, p, name, work);
    assert ([name] + rest)[0] == name;
  }
}
