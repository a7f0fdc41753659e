/** One job in both terminal directories: exactly which recoveries can cause it. */
module JobQueueTerminals {
  import opened Wrappers
  import opened Text
  import opened JobQueue

  /** The job a process has yet to finish with, claimed by itself or taken over by a recovery. */
  function Holds(pc: Pc): Option<string> {
    match pc
    case Owned(name) => Some(name)
    case Restoring(name) => Some(name)
    case Starting(name, _) => Some(name)
    case Working(name, _) => Some(name)
    case WriteTerminal(_, name, _, _) => Some(name)
    case Unlinking(name, _) => Some(name)
    case _ => None
  }

  /** The running files a recovery has listed and not yet looked at. */
  function Listed(pc: Pc): seq<string> {
    match pc
    case Recovering(rest) => rest
    case WriteTerminal(_, _, _, rest) => if rest.Some? then rest.value else []
    case Unlinking(_, rest) => if rest.Some? then rest.value else []
    case _ => []
  }

  predicate InDirectory(q: Queue, ok: bool, name: string) {
    if ok then name in q.completed else name in q.failed
  }

  predicate InBoth(q: Queue, name: string) {
    name in q.completed && name in q.failed
  }

  // ---- takeovers --------------------------------------------------------

  /** The step at which a recovery decides to finish the listed job itself. */
  predicate TakesOver(s: State, a: Action, name: string) {
    && a.Act? && a.p < |s.procs| && s.procs[a.p].alive && a.answer.Clock?
    && s.procs[a.p].pc.Recovering? && s.procs[a.p].pc.rest != [] && s.procs[a.p].pc.rest[0] == name
    && Do(s, a).procs[a.p].pc.WriteTerminal?
  }

  predicate Agrees(pc: Pc, ok: bool, name: string) {
    Holds(pc) == Some(name) ==> pc.Unlinking? || (pc.WriteTerminal? && pc.ok == ok)
  }

  /**
   * The job is not back in the queue, not in the other terminal directory, and
   * no other living process could still write the other outcome.
   */
  predicate Guarded(s: State, a: Action, name: string)
    requires TakesOver(s, a, name)
  {
    var ok := Do(s, a).procs[a.p].pc.ok;
    && name !in s.queue.queued
    && !InDirectory(s.queue, !ok, name)
    && forall r :: 0 <= r < |s.procs| && r != a.p && s.procs[r].alive ==> Agrees(s.procs[r].pc, ok, name)
  }

  predicate GuardedRun(s: State, actions: seq<Action>, name: string)
    decreases |actions|
  {
    actions == [] ||
    ((TakesOver(s, actions[0], name) ==> Guarded(s, actions[0], name))
     && GuardedRun(Do(s, actions[0]), actions[1..], name))
  }

  predicate NoTakeovers(s: State, actions: seq<Action>, name: string)
    decreases |actions|
  {
    actions == [] || (!TakesOver(s, actions[0], name) && NoTakeovers(Do(s, actions[0]), actions[1..], name))
  }

  // ---- the invariant of one name ----------------------------------------

  predicate FilesSound(q: Queue, log: seq<Event>, name: string) {
    && (Present(q, name) ==> Submitted(name) in log)
    && !InBoth(q, name)
    && (name in q.queued ==> name !in q.running && !Terminal(q, name) && q.queued[name].Readable?)
    && (name in q.running ==> q.running[name].Readable?)
  }

  predicate PcSound(q: Queue, log: seq<Event>, pc: Pc, name: string) {
    && (name in Listed(pc) ==> Submitted(name) in log)
    && (Holds(pc) == Some(name) ==>
          && Submitted(name) in log && name !in q.queued
          && (if pc.Unlinking? then Terminal(q, name)
              else if pc.WriteTerminal? then !InDirectory(q, !pc.ok, name)
              else name in q.running && !Terminal(q, name)))
  }

  /** Two processes may hold one job only to write the same outcome. */
  predicate Compatible(a: Pc, b: Pc, name: string) {
    Holds(a) == Some(name) && Holds(b) == Some(name) ==>
      && (a.WriteTerminal? || a.Unlinking?)
      && (b.WriteTerminal? || b.Unlinking?)
      && (a.WriteTerminal? && b.WriteTerminal? ==> a.ok == b.ok)
  }

  ghost predicate Sound(s: State, name: string) {
    && FilesSound(s.queue, s.log, name)
    && (forall p :: 0 <= p < |s.procs| && s.procs[p].alive ==> PcSound(s.queue, s.log, s.procs[p].pc, name))
    && (forall p, r :: 0 <= p < |s.procs| && 0 <= r < |s.procs| && p != r && s.procs[p].alive && s.procs[r].alive ==>
          Compatible(s.procs[p].pc, s.procs[r].pc, name))
  }

  /** A step of one process, from what its own change means to the others. */
  lemma MovedSound(s: State, t: State, p: nat, name: string)
    requires Sound(s, name) && p < |s.procs| == |t.procs| && s.procs[p].alive
    requires forall r :: 0 <= r < |s.procs| && r != p ==> t.procs[r] == s.procs[r]
    requires FilesSound(t.queue, t.log, name) && PcSound(t.queue, t.log, t.procs[p].pc, name)
    requires forall r :: 0 <= r < |s.procs| && r != p && s.procs[r].alive ==>
      PcSound(t.queue, t.log, s.procs[r].pc, name) && Compatible(t.procs[p].pc, s.procs[r].pc, name)
    ensures Sound(t, name)
  {
    forall i, j | 0 <= i < |t.procs| && 0 <= j < |t.procs| && i != j && t.procs[i].alive && t.procs[j].alive
      ensures Compatible(t.procs[i].pc, t.procs[j].pc, name)
    {
      if j == p {
        assert Compatible(t.procs[p].pc, s.procs[i].pc, name);
      }
    }
  }

  /** Moving on without touching a file. */
  lemma GotoSound(s: State, p: nat, pc: Pc, name: string)
    requires Sound(s, name) && p < |s.procs| && s.procs[p].alive
    requires forall n :: n in Listed(pc) ==> n in Listed(s.procs[p].pc) || n in s.queue.running
    requires Holds(pc).Some? ==> Holds(pc) == Holds(s.procs[p].pc)
    requires Holds(pc) == Some(name) ==> !s.procs[p].pc.WriteTerminal? && !s.procs[p].pc.Unlinking? && !pc.Unlinking?
    ensures Sound(Goto(s, p, pc), name)
  {
    var t := Goto(s, p, pc);
    assert PcSound(s.queue, s.log, s.procs[p].pc, name);
    forall r | 0 <= r < |s.procs| && r != p && s.procs[r].alive
      ensures PcSound(t.queue, t.log, s.procs[r].pc, name) && Compatible(t.procs[p].pc, s.procs[r].pc, name)
    {
      assert PcSound(s.queue, s.log, s.procs[r].pc, name);
      assert Compatible(s.procs[p].pc, s.procs[r].pc, name);
    }
    MovedSound(s, t, p, name);
  }

  lemma TakeoverSound(s: State, p: nat, now: int, paid: PaidRecovery, rest: seq<string>, name: string)
    requires Sound(s, name) && p < |s.procs| && s.procs[p] == Proc(true, Recovering(rest)) && rest != []
    requires Recover(s, p, rest, now, paid).procs[p].pc.WriteTerminal?
    requires rest[0] == name ==> Guarded(s, Act(p, Clock(now, paid)), name)
    ensures Sound(Recover(s, p, rest, now, paid), name)
  {
    var t := Recover(s, p, rest, now, paid);
    assert Do(s, Act(p, Clock(now, paid))) == t;
    assert PcSound(s.queue, s.log, s.procs[p].pc, name);
    assert rest[0] in rest && forall n :: n in rest[1..] ==> n in rest;
    forall r | 0 <= r < |s.procs| && r != p && s.procs[r].alive
      ensures PcSound(t.queue, t.log, s.procs[r].pc, name) && Compatible(t.procs[p].pc, s.procs[r].pc, name)
    {
      assert PcSound(s.queue, s.log, s.procs[r].pc, name);
      assert rest[0] == name ==> Agrees(s.procs[r].pc, t.procs[p].pc.ok, name);
    }
    MovedSound(s, t, p, name);
  }

  lemma ClaimSound(s: State, p: nat, n: string, name: string)
    requires Sound(s, name) && p < |s.procs| && s.procs[p].alive && n in s.queue.queued
    ensures Sound(Claim(s, p, n), name)
  {
    var t := Claim(s, p, n);
    forall r | 0 <= r < |s.procs| && r != p && s.procs[r].alive
      ensures PcSound(t.queue, t.log, s.procs[r].pc, name) && Compatible(t.procs[p].pc, s.procs[r].pc, name)
    {
      assert PcSound(s.queue, s.log, s.procs[r].pc, name);
    }
    MovedSound(s, t, p, name);
  }

  lemma RestoreSound(s: State, p: nat, n: string, name: string)
    requires Sound(s, name) && p < |s.procs| && s.procs[p] == Proc(true, Restoring(n))
    ensures Sound(Restore(s, p, n), name)
  {
    var t := Restore(s, p, n);
    assert PcSound(s.queue, s.log, s.procs[p].pc, name);
    forall r | 0 <= r < |s.procs| && r != p && s.procs[r].alive
      ensures PcSound(t.queue, t.log, s.procs[r].pc, name) && Compatible(t.procs[p].pc, s.procs[r].pc, name)
    {
      assert PcSound(s.queue, s.log, s.procs[r].pc, name);
      assert Compatible(s.procs[p].pc, s.procs[r].pc, name);
    }
    MovedSound(s, t, p, name);
  }

  lemma StartSound(s: State, p: nat, n: string, job: Job, now: int, name: string)
    requires Sound(s, name) && p < |s.procs| && s.procs[p] == Proc(true, Starting(n, job))
    ensures Sound(Advance(s, p, Clock(now, NotPaid)), name)
  {
    var t := Advance(s, p, Clock(now, NotPaid));
    assert PcSound(s.queue, s.log, s.procs[p].pc, name);
    forall r | 0 <= r < |s.procs| && r != p && s.procs[r].alive
      ensures PcSound(t.queue, t.log, s.procs[r].pc, name) && Compatible(t.procs[p].pc, s.procs[r].pc, name)
    {
      assert PcSound(s.queue, s.log, s.procs[r].pc, name);
      assert Compatible(s.procs[p].pc, s.procs[r].pc, name);
    }
    MovedSound(s, t, p, name);
  }

  lemma WriteSound(s: State, p: nat, ok: bool, n: string, job: Job, rest: Option<seq<string>>, name: string)
    requires Sound(s, name) && p < |s.procs| && s.procs[p] == Proc(true, WriteTerminal(ok, n, job, rest))
    ensures Sound(Write(s, p, ok, n, job, Unlinking(n, rest)), name)
  {
    var t := Write(s, p, ok, n, job, Unlinking(n, rest));
    assert PcSound(s.queue, s.log, s.procs[p].pc, name);
    forall r | 0 <= r < |s.procs| && r != p && s.procs[r].alive
      ensures PcSound(t.queue, t.log, s.procs[r].pc, name) && Compatible(t.procs[p].pc, s.procs[r].pc, name)
    {
      assert PcSound(s.queue, s.log, s.procs[r].pc, name);
      assert Compatible(s.procs[p].pc, s.procs[r].pc, name);
    }
    MovedSound(s, t, p, name);
  }

  lemma UnlinkSound(s: State, p: nat, n: string, rest: Option<seq<string>>, name: string)
    requires Sound(s, name) && p < |s.procs| && s.procs[p] == Proc(true, Unlinking(n, rest))
    ensures Sound(Unlink(s, p, n, if rest.Some? then Recovering(rest.value) else Finished), name)
  {
    var t := Unlink(s, p, n, if rest.Some? then Recovering(rest.value) else Finished);
    assert PcSound(s.queue, s.log, s.procs[p].pc, name);
    forall r | 0 <= r < |s.procs| && r != p && s.procs[r].alive
      ensures PcSound(t.queue, t.log, s.procs[r].pc, name) && Compatible(t.procs[p].pc, s.procs[r].pc, name)
    {
      assert PcSound(s.queue, s.log, s.procs[r].pc, name);
      assert Compatible(s.procs[p].pc, s.procs[r].pc, name);
    }
    MovedSound(s, t, p, name);
  }

  lemma AdvanceSound(s: State, p: nat, a: Answer, name: string)
    requires Sound(s, name) && p < |s.procs| && s.procs[p].alive
    requires TakesOver(s, Act(p, a), name) ==> Guarded(s, Act(p, a), name)
    ensures Sound(Advance(s, p, a), name)
  {
    var pc := s.procs[p].pc;
    assert s.procs[p] == Proc(true, pc);
    assert Do(s, Act(p, a)) == Advance(s, p, a);
    match pc {
      case Begin =>
        if a.Listing? && IsListing(a.all, s.queue.running) {
          assert forall n :: n in a.all ==> n in Elements(a.all);
          GotoSound(s, p, Recovering(a.all), name);
        }
      case Recovering(rest) =>
        if rest == [] {
          GotoSound(s, p, CheckQueue, name);
        } else if a.Clock? {
          RecoverSound(s, p, a.now, a.paid, rest, name);
        }
      case CheckQueue =>
        if a.Listing? {
          GotoSound(s, p, Claiming(a.all), name);
        }
        GotoSound(s, p, Finished, name);
      case Claiming(names) =>
        if names == [] {
          GotoSound(s, p, Finished, name);
        } else if names[0] in s.queue.queued {
          ClaimSound(s, p, names[0], name);
        } else {
          GotoSound(s, p, Claiming(names[1..]), name);
        }
      case Owned(n) =>
        GotoSound(s, p, Inspect(s, p, n, a).procs[p].pc, name);
      case Restoring(n) =>
        RestoreSound(s, p, n, name);
      case Starting(n, job) =>
        if a.Clock? {
          StartSound(s, p, n, job, a.now, name);
        }
      case Working(n, job) =>
        GotoSound(s, p, Advance(s, p, a).procs[p].pc, name);
      case WriteTerminal(ok, n, job, rest) =>
        WriteSound(s, p, ok, n, job, rest, name);
      case Unlinking(n, rest) =>
        UnlinkSound(s, p, n, rest, name);
      case Finished =>
    }
  }

  lemma RecoverSound(s: State, p: nat, now: int, paid: PaidRecovery, rest: seq<string>, name: string)
    requires Sound(s, name) && p < |s.procs| && s.procs[p] == Proc(true, Recovering(rest)) && rest != []
    requires var a := Act(p, Clock(now, paid)); TakesOver(s, a, name) ==> Guarded(s, a, name)
    ensures Sound(Recover(s, p, rest, now, paid), name)
  {
    var t := Recover(s, p, rest, now, paid);
    assert Do(s, Act(p, Clock(now, paid))) == t;
    if t.procs[p].pc.WriteTerminal? {
      TakeoverSound(s, p, now, paid, rest, name);
    } else {
      assert forall n :: n in rest[1..] ==> n in rest;
      GotoSound(s, p, Recovering(rest[1..]), name);
    }
  }

  lemma SubmitSound(s: State, n: string, job: Job, name: string)
    requires Sound(s, name)
    ensures Sound(Do(s, Submit(n, job)), name)
  {
    var t := Do(s, Submit(n, job));
    forall r | 0 <= r < |t.procs| && t.procs[r].alive ensures PcSound(t.queue, t.log, t.procs[r].pc, name) {
      assert PcSound(s.queue, s.log, s.procs[r].pc, name);
    }
  }

  lemma SpawnSound(s: State, name: string)
    requires Sound(s, name)
    ensures Sound(Do(s, Spawn), name)
  {
    var t := Do(s, Spawn);
    forall i, j | 0 <= i < |t.procs| && 0 <= j < |t.procs| && i != j && t.procs[i].alive && t.procs[j].alive
      ensures Compatible(t.procs[i].pc, t.procs[j].pc, name)
    {
    }
  }

  lemma StepSound(s: State, a: Action, name: string)
    requires Sound(s, name) && (TakesOver(s, a, name) ==> Guarded(s, a, name))
    ensures Sound(Do(s, a), name)
  {
    match a {
      case Submit(n, job) => SubmitSound(s, n, job, name);
      case Spawn => SpawnSound(s, name);
      case Act(p, answer) =>
        if p < |s.procs| && s.procs[p].alive {
          AdvanceSound(s, p, answer, name);
        }
      case Crash(p) =>
    }
  }

  lemma {:induction false} RunSound(s: State, actions: seq<Action>, name: string)
    requires Sound(s, name) && GuardedRun(s, actions, name)
    ensures Sound(Run(s, actions), name)
    decreases |actions|
  {
    if actions != [] {
      StepSound(s, actions[0], name);
      RunSound(Do(s, actions[0]), actions[1..], name);
    }
  }

  // ---- runs -------------------------------------------------------------

  /** While every takeover of a job is guarded it ends in at most one terminal directory. */
  lemma GuardedJobsEndOnce(actions: seq<Action>, name: string)
    requires GuardedRun(EMPTY, actions, name)
    ensures !InBoth(Run(EMPTY, actions).queue, name)
  {
    RunSound(EMPTY, actions, name);
  }

  lemma {:induction false} UntouchedRunsAreGuarded(s: State, actions: seq<Action>, name: string)
    requires NoTakeovers(s, actions, name)
    ensures GuardedRun(s, actions, name)
    decreases |actions|
  {
    if actions != [] {
      UntouchedRunsAreGuarded(Do(s, actions[0]), actions[1..], name);
    }
  }

  // ---- an unguarded takeover --------------------------------------------

  /** The actions lead from `s` to `t` and no recovery takes the job over on the way. */
  predicate Leads(s: State, actions: seq<Action>, t: State, name: string) {
    NoTakeovers(s, actions, name) && Run(s, actions) == t
  }

  lemma {:induction false} Then(s: State, actions: seq<Action>, t: State, a: Action, name: string)
    requires Leads(s, actions, t, name) && !TakesOver(t, a, name)
    ensures Leads(s, actions + [a], Do(t, a), name)
    decreases |actions|
  {
    if actions == [] {
      assert actions + [a] == [a] && [a][1..] == [];
    } else {
      assert (actions + [a])[1..] == actions[1..] + [a];
      Then(Do(s, actions[0]), actions[1..], t, a, name);
    }
  }

  lemma {:induction false} ThenMore(s: State, actions: seq<Action>, t: State, more: seq<Action>, name: string)
    requires Leads(s, actions, t, name) && NoTakeovers(t, more, name)
    ensures Leads(s, actions + more, Run(t, more), name)
    decreases |more|
  {
    if more == [] {
      assert actions + more == actions;
    } else {
      Then(s, actions, t, more[0], name);
      assert actions + [more[0]] + more[1..] == actions + more;
      ThenMore(s, actions + [more[0]], Do(t, more[0]), more[1..], name);
    }
  }

  /** Everybody but `q` and the files of `name` as before. */
  predicate Apart(s: State, t: State, q: nat) {
    |s.procs| == |t.procs| && forall r :: 0 <= r < |s.procs| && r != q ==> t.procs[r] == s.procs[r]
  }

  /** A recovery that has just looked at a file goes on to the next, whether it took the file over or not. */
  lemma FileDone(s: State, q: nat, rest: seq<string>, name: string) returns (more: seq<Action>, t: State)
    requires q < |s.procs| && s.procs[q].alive
    requires var pc := s.procs[q].pc;
      pc == Recovering(rest) || (pc.WriteTerminal? && pc.remaining == Some(rest))
    ensures Leads(s, more, t, name) && Apart(s, t, q) && t.procs[q] == Proc(true, Recovering(rest))
    ensures t.queue.queued == s.queue.queued && (name !in s.queue.running ==> name !in t.queue.running)
  {
    more, t := [], s;
    if s.procs[q].pc.WriteTerminal? {
      var u := Do(s, Act(q, Yes));
      Then(s, [], s, Act(q, Yes), name);
      Then(s, [] + [Act(q, Yes)], u, Act(q, Yes), name);
      more, t := [] + [Act(q, Yes)] + [Act(q, Yes)], Do(u, Act(q, Yes));
    }
  }

  /** Given the clock, a recovery that has not listed the job reaches the end of its listing. */
  lemma {:induction false} RecoveryEnds(s: State, q: nat, rest: seq<string>, name: string)
    returns (more: seq<Action>, t: State)
    requires q < |s.procs| && s.procs[q] == Proc(true, Recovering(rest)) && name !in rest
    ensures Leads(s, more, t, name) && Apart(s, t, q) && t.procs[q] == Proc(true, CheckQueue)
    ensures t.queue.queued == s.queue.queued && (name !in s.queue.running ==> name !in t.queue.running)
    decreases |rest|
  {
    var a := Act(q, Clock(0, NotPaid));
    var u := Do(s, a);
    Then(s, [], s, a, name);
    more, t := [] + [a], u;
    if rest != [] {
      assert rest[0] in rest && forall n :: n in rest[1..] ==> n in rest;
      var done, looked := FileDone(u, q, rest[1..], name);
      ThenMore(s, more, u, done, name);
      var further, end := RecoveryEnds(looked, q, rest[1..], name);
      ThenMore(s, more + done, looked, further, name);
      more, t := more + done + further, end;
    }
  }

  lemma {:induction false} HasListing(names: set<string>) returns (all: seq<string>)
    ensures StrictlySorted(all) && Elements(all) == names
    decreases |names|
  {
    if names == {} {
      all := [];
    } else {
      var x :| x in names;
      var rest := HasListing(names - {x});
      all := Insert(rest, x);
    }
  }

  /** A new process gets as far as claiming the first waiting job. */
  lemma ClaimNext(s: State, name: string) returns (more: seq<Action>, t: State, first: string)
    requires name in s.queue.queued && name !in s.queue.running
    ensures first in s.queue.queued && t.queue.queued == s.queue.queued - {first}
    ensures Leads(s, more, t, name) && |t.procs| == |s.procs| + 1 && t.procs[..|s.procs|] == s.procs
    ensures t.procs[|s.procs|] == Proc(true, Owned(first))
    ensures if first == name then name in t.queue.running && t.queue.running[name] == s.queue.queued[name]
            else name !in t.queue.running && t.queue.queued[name] == s.queue.queued[name]
  {
    var q := |s.procs|;
    Then(s, [], s, Spawn, name);
    var s1 := Do(s, Spawn);
    var running := HasListing(s.queue.running.Keys);
    assert name !in Elements(running);
    var s2 := Do(s1, Act(q, Listing(running)));
    Then(s, [] + [Spawn], s1, Act(q, Listing(running)), name);
    var ends, s3 := RecoveryEnds(s2, q, running, name);
    ThenMore(s, [] + [Spawn] + [Act(q, Listing(running))], s2, ends, name);
    more := [] + [Spawn] + [Act(q, Listing(running))] + ends;
    var waiting := HasListing(s.queue.queued.Keys);
    assert name in Elements(waiting);
    var s4 := Do(s3, Act(q, Listing(waiting)));
    Then(s, more, s3, Act(q, Listing(waiting)), name);
    first := waiting[0];
    assert first in Elements(waiting);
    t := Do(s4, Act(q, Yes));
    Then(s, more + [Act(q, Listing(waiting))], s4, Act(q, Yes), name);
    more := more + [Act(q, Listing(waiting))] + [Act(q, Yes)];
  }

  /** The owner of a readable job can end it either way. */
  lemma {:induction false} OwnerCanEnd(s: State, q: nat, name: string, ok: bool) returns (more: seq<Action>, t: State)
    requires q < |s.procs| && s.procs[q].alive && name in s.queue.running && s.queue.running[name].Readable?
    requires var pc := s.procs[q].pc; (pc.Owned? || pc.Starting? || pc.Working?) && pc.name == name
    ensures Leads(s, more, t, name) && InDirectory(t.queue, ok, name) && Apart(s, t, q)
    decreases if s.procs[q].pc.Owned? then 2 else if s.procs[q].pc.Starting? then 1 else 0
  {
    var pc := s.procs[q].pc;
    var a := if pc.Owned? then Act(q, Yes) else if pc.Starting? then Act(q, Clock(0, NotPaid)) else Act(q, Worked(ok));
    var u := Do(s, a);
    Then(s, [], s, a, name);
    var further, end;
    if pc.Working? {
      Then(u, [], u, Act(q, Yes), name);
      further, end := [] + [Act(q, Yes)], Do(u, Act(q, Yes));
    } else {
      further, end := OwnerCanEnd(u, q, name, ok);
    }
    ThenMore(s, [] + [a], u, further, name);
    more, t := [] + [a] + further, end;
  }

  /** A job back in the queue can still end either way, whatever anybody else is doing. */
  lemma {:induction false} QueuedCanEnd(s: State, name: string, ok: bool) returns (more: seq<Action>, t: State)
    requires name in s.queue.queued && name !in s.queue.running && s.queue.queued[name].Readable?
    ensures Leads(s, more, t, name) && InDirectory(t.queue, ok, name)
    ensures |s.procs| <= |t.procs| && t.procs[..|s.procs|] == s.procs
    decreases |s.queue.queued.Keys|
  {
    var first;
    more, t, first := ClaimNext(s, name);
    var further, end;
    if first == name {
      further, end := OwnerCanEnd(t, |s.procs|, name, ok);
    } else {
      assert t.queue.queued.Keys == s.queue.queued.Keys - {first};
      further, end := QueuedCanEnd(t, name, ok);
      assert s.procs == t.procs[..|s.procs|] == end.procs[..|t.procs|][..|s.procs|];
    }
    ThenMore(s, more, t, further, name);
    more, t := more + further, end;
  }

  /** Once a recovery is about to write, whatever the rest leads to ends with its outcome in place too. */
  lemma ThenWrites(s: State, more: seq<Action>, t: State, p: nat, ok: bool, name: string)
    requires Leads(s, more, t, name) && InDirectory(t.queue, !ok, name)
    requires p < |t.procs| && t.procs[p].alive && t.procs[p].pc.WriteTerminal?
    requires t.procs[p].pc.ok == ok && t.procs[p].pc.name == name
    ensures NoTakeovers(s, more + [Act(p, Yes)], name) && InBoth(Run(s, more + [Act(p, Yes)]).queue, name)
  {
    Then(s, more, t, Act(p, Yes), name);
  }

  /** After an unguarded takeover the job can end in both directories with no further takeover. */
  lemma UnguardedCanClash(s: State, a: Action, name: string) returns (more: seq<Action>)
    requires Sound(s, name) && TakesOver(s, a, name) && !Guarded(s, a, name)
    ensures NoTakeovers(Do(s, a), more, name) && InBoth(Run(Do(s, a), more).queue, name)
  {
    var t := Do(s, a);
    var p, ok := a.p, t.procs[a.p].pc.ok;
    var end := t;
    more := [];
    if InDirectory(s.queue, !ok, name) {
    } else if name in s.queue.queued {
      more, end := QueuedCanEnd(t, name, !ok);
      assert end.procs[..|t.procs|][p] == t.procs[p];
    } else {
      var r :| 0 <= r < |s.procs| && r != p && s.procs[r].alive && !Agrees(s.procs[r].pc, ok, name);
      assert PcSound(s.queue, s.log, s.procs[r].pc, name);
      if s.procs[r].pc.WriteTerminal? {
        Then(t, [], t, Act(r, Yes), name);
        more, end := [] + [Act(r, Yes)], Do(t, Act(r, Yes));
      } else if s.procs[r].pc.Restoring? {
        var u := Do(t, Act(r, Yes));
        Then(t, [], t, Act(r, Yes), name);
        var further;
        further, end := QueuedCanEnd(u, name, !ok);
        ThenMore(t, [] + [Act(r, Yes)], u, further, name);
        more := [] + [Act(r, Yes)] + further;
        assert end.procs[..|u.procs|][p] == u.procs[p];
      } else {
        more, end := OwnerCanEnd(t, r, name, !ok);
      }
    }
    ThenWrites(t, more, end, p, ok, name);
    more := more + [Act(p, Yes)];
  }

  /** No continuation without a further takeover puts the job in both directories. */
  ghost predicate Safe(s: State, name: string) {
    forall more :: NoTakeovers(s, more, name) ==> !InBoth(Run(s, more).queue, name)
  }

  lemma SoundIsSafe(s: State, name: string)
    requires Sound(s, name)
    ensures Safe(s, name)
  {
    forall more | NoTakeovers(s, more, name) ensures !InBoth(Run(s, more).queue, name) {
      UntouchedRunsAreGuarded(s, more, name);
      RunSound(s, more, name);
    }
  }

  /** After a run whose takeovers were guarded, the next takeover is safe exactly when it is guarded too. */
  lemma TakeoverIsSafeExactlyWhen(actions: seq<Action>, a: Action, name: string)
    requires GuardedRun(EMPTY, actions, name) && TakesOver(Run(EMPTY, actions), a, name)
    ensures Guarded(Run(EMPTY, actions), a, name) <==> Safe(Do(Run(EMPTY, actions), a), name)
  {
    var s := Run(EMPTY, actions);
    RunSound(EMPTY, actions, name);
    if Guarded(s, a, name) {
      StepSound(s, a, name);
      SoundIsSafe(Do(s, a), name);
    } else {
      var more := UnguardedCanClash(s, a, name);
    }
  }

  // ---- four ways there from the empty queue -----------------------------

  lemma {:induction false} RunAppend(s: State, a: seq<Action>, b: seq<Action>)
    ensures Run(s, a + b) == Run(Run(s, a), b)
    decreases |a|
  {
    if a == [] {
      assert a + b == b;
    } else {
      assert (a + b)[1..] == a[1..] + b;
      RunAppend(Do(s, a[0]), a[1..], b);
    }
  }

  lemma NextStep(s: State, actions: seq<Action>, i: nat, t: State)
    requires i < |actions| && Run(s, actions[..i]) == t
    ensures Run(s, actions[..i + 1]) == Do(t, actions[i])
    ensures i + 1 == |actions| ==> Run(s, actions) == Do(t, actions[i])
  {
    assert actions[..i + 1] == actions[..i] + [actions[i]];
    RunAppend(s, actions[..i], [actions[i]]);
    assert [actions[i]][1..] == [];
    assert i + 1 == |actions| ==> actions[..i + 1] == actions;
  }

  lemma OneName(name: string, file: File)
    ensures IsListing([name], map[name := file]) && IsListing([], map[])
  {
    assert [name][0] == name;
  }

  /** One job, claimed by process 0 and listed as running by process 1. */
  function Claimed0Listed1(name: string, job: Job): seq<Action> {
    [Submit(name, job), Spawn, Spawn, Act(0, Listing([])), Act(0, Yes), Act(0, Listing([name])), Act(0, Yes),
     Act(1, Listing([name]))]
  }

  function Opened(name: string, job: Job, owner: Pc, recovery: Pc): State {
    State(Queue(map[], map[name := Readable(job)], map[], map[]), [Proc(true, owner), Proc(true, recovery)],
          [Submitted(name), Claimed(0, name)])
  }

  lemma Opening(name: string, job: Job)
    ensures Run(EMPTY, Claimed0Listed1(name, job)) == Opened(name, job, Owned(name), Recovering([name]))
  {
    var a := Claimed0Listed1(name, job);
    OneName(name, Readable(job));
    NextStep(EMPTY, a, 0, EMPTY);
    var s1 := Do(EMPTY, a[0]);
    NextStep(EMPTY, a, 1, s1);
    var s2 := Do(s1, a[1]);
    NextStep(EMPTY, a, 2, s2);
    var s3 := Do(s2, a[2]);
    assert s3.procs == [Proc(true, Begin), Proc(true, Begin)];
    NextStep(EMPTY, a, 3, s3);
    var s4 := Do(s3, a[3]);
    NextStep(EMPTY, a, 4, s4);
    var s5 := Do(s4, a[4]);
    NextStep(EMPTY, a, 5, s5);
    var s6 := Do(s5, a[5]);
    assert s6.procs == [Proc(true, Claiming([name])), Proc(true, Begin)];
    NextStep(EMPTY, a, 6, s6);
    var s7 := Do(s6, a[6]);
    assert s7.queue.queued == map[] && s7.queue.running == map[name := Readable(job)];
    NextStep(EMPTY, a, 7, s7);
  }

  /** The owner finishes between the other's listing and its reading. */
  function FinishedWhileListed(now: int): seq<Action> {
    [Act(0, Yes), Act(0, Clock(now, NotPaid)), Act(0, Worked(true)), Act(0, Yes), Act(0, Yes),
     Act(1, Clock(now, NotPaid)), Act(1, Yes)]
  }

  /** The owner is killed after its terminal write, and recovery finds the stale running file. */
  function KilledBeforeUnlink(now: int, late: int): seq<Action> {
    [Act(0, Yes), Act(0, Clock(now, NotPaid)), Act(0, Worked(true)), Act(0, Yes), Crash(0),
     Act(1, Clock(late, NotPaid)), Act(1, Yes)]
  }

  /** Recovery gives a living owner up, and the worker still completes. */
  function LateCompletion(now: int, late: int): seq<Action> {
    [Act(0, Yes), Act(0, Clock(now, NotPaid)), Act(1, Clock(late, NotPaid)), Act(1, Yes), Act(1, Yes),
     Act(0, Worked(true)), Act(0, Yes)]
  }

  /** The owner puts the job back between the listing and the reading. */
  function RestoredWhileListed(name: string, now: int): seq<Action> {
    [Act(0, No), Act(0, Yes), Act(1, Clock(now, NotPaid)), Act(1, Yes), Act(1, Yes), Act(1, Yes),
     Act(1, Listing([name]))]
  }

  /** A process that has listed the queued job claims and completes it. */
  function ClaimedAgain(now: int): seq<Action> {
    [Act(1, Yes), Act(1, Yes), Act(1, Clock(now, NotPaid)), Act(1, Worked(true)), Act(1, Yes)]
  }

  lemma FiveSteps(s: State, a: seq<Action>)
    requires |a| == 5
    ensures Run(s, a) == Do(Do(Do(Do(Do(s, a[0]), a[1]), a[2]), a[3]), a[4])
  {
    var s1 := Do(s, a[0]);
    var s2 := Do(s1, a[1]);
    var s3 := Do(s2, a[2]);
    var s4 := Do(s3, a[3]);
    NextStep(s, a, 0, s);
    NextStep(s, a, 1, s1);
    NextStep(s, a, 2, s2);
    NextStep(s, a, 3, s3);
    NextStep(s, a, 4, s4);
  }

  lemma SevenSteps(s: State, a: seq<Action>)
    requires |a| == 7
    ensures Run(s, a) == Do(Do(Do(Do(Do(Do(Do(s, a[0]), a[1]), a[2]), a[3]), a[4]), a[5]), a[6])
  {
    var t := Run(s, a[..5]);
    FiveSteps(s, a[..5]);
    NextStep(s, a, 5, t);
    NextStep(s, a, 6, Do(t, a[5]));
  }

  /** Process 0 has started the worker, process 1 still has the job on its list. */
  function Started(name: string, job: Job, now: int): State {
    Opened(name, Begun(job, now), Working(name, Begun(job, now)), Recovering([name]))
  }

  lemma Starts(name: string, job: Job, now: int)
    ensures var s := Opened(name, job, Owned(name), Recovering([name]));
      Do(Do(s, Act(0, Yes)), Act(0, Clock(now, NotPaid))) == Started(name, job, now)
  {
    var s := Opened(name, job, Owned(name), Recovering([name]));
    assert Do(s, Act(0, Yes)) == Opened(name, job, Starting(name, job), Recovering([name]));
  }

  lemma FinishedWhileListedClashes(name: string, job: Job, now: int)
    ensures InBoth(Run(Opened(name, job, Owned(name), Recovering([name])), FinishedWhileListed(now)).queue, name)
  {
    var s, a := Opened(name, job, Owned(name), Recovering([name])), FinishedWhileListed(now);
    Starts(name, job, now);
    SevenSteps(s, a);
    var s5 := Do(Do(Do(Started(name, job, now), a[2]), a[3]), a[4]);
    assert name in s5.queue.completed && name !in s5.queue.running;
    assert s5.procs == [Proc(true, Finished), Proc(true, Recovering([name]))];
  }

  lemma KilledBeforeUnlinkClashes(name: string, job: Job, now: int, late: int)
    requires job.timeout.Some? ==> now + job.timeout.value + GRACE < late
    ensures InBoth(Run(Opened(name, job, Owned(name), Recovering([name])), KilledBeforeUnlink(now, late)).queue, name)
  {
    var s, a := Opened(name, job, Owned(name), Recovering([name])), KilledBeforeUnlink(now, late);
    Starts(name, job, now);
    SevenSteps(s, a);
    var s5 := Do(Do(Do(Started(name, job, now), a[2]), a[3]), a[4]);
    assert name in s5.queue.completed && s5.queue.running == Started(name, job, now).queue.running;
    assert s5.procs == [Proc(false, Unlinking(name, None)), Proc(true, Recovering([name]))];
  }

  lemma RecoveryFails(name: string, job: Job, now: int, late: int)
    requires job.timeout.Some? ==> now + job.timeout.value + GRACE < late
    ensures var t := Do(Do(Do(Started(name, job, now), Act(1, Clock(late, NotPaid))), Act(1, Yes)), Act(1, Yes));
      name in t.queue.failed && |t.procs| == 2 && t.procs[0] == Proc(true, Working(name, Begun(job, now)))
  {
    var s := Started(name, job, now);
    var t := Do(s, Act(1, Clock(late, NotPaid)));
    assert t.procs[1].pc.WriteTerminal? && !t.procs[1].pc.ok && t.procs[1].pc.name == name;
    assert t.procs[0] == s.procs[0];
  }

  lemma LateCompletionClashes(name: string, job: Job, now: int, late: int)
    requires job.timeout.Some? ==> now + job.timeout.value + GRACE < late
    ensures InBoth(Run(Opened(name, job, Owned(name), Recovering([name])), LateCompletion(now, late)).queue, name)
  {
    var s, a := Opened(name, job, Owned(name), Recovering([name])), LateCompletion(now, late);
    Starts(name, job, now);
    SevenSteps(s, a);
    RecoveryFails(name, job, now, late);
  }

  lemma RestoredWhileListedFails(name: string, job: Job, now: int)
    ensures var t := Run(Opened(name, job, Owned(name), Recovering([name])), RestoredWhileListed(name, now));
      name in t.queue.failed && t.queue.queued == map[name := Readable(job)] && |t.procs| == 2
      && t.procs[1] == Proc(true, Claiming([name]))
  {
    var s, a := Opened(name, job, Owned(name), Recovering([name])), RestoredWhileListed(name, now);
    OneName(name, Readable(job));
    SevenSteps(s, a);
    var s2 := Do(Do(s, a[0]), a[1]);
    assert s2.queue == Queue(map[name := Readable(job)], map[], map[], map[]);
    assert s2.procs == [Proc(true, Finished), Proc(true, Recovering([name]))];
    var s4 := Do(Do(s2, a[2]), a[3]);
    assert s4.queue == Queue(map[name := Readable(job)], map[], map[], map[name := Readable(CorruptJob())]);
    assert s4.procs == [Proc(true, Finished), Proc(true, Unlinking(name, Some([])))];
    var s6 := Do(Do(s4, a[4]), a[5]);
    assert s6.queue.queued == map[name := Readable(job)] && name in s6.queue.failed;
    assert s6.procs == [Proc(true, Finished), Proc(true, CheckQueue)];
  }

  lemma ClaimedAgainCompletes(s: State, name: string, now: int)
    requires |s.procs| == 2 && s.procs[1] == Proc(true, Claiming([name]))
    requires name in s.queue.queued && s.queue.queued[name].Readable? && name in s.queue.failed
    ensures InBoth(Run(s, ClaimedAgain(now)).queue, name)
  {
    var a := ClaimedAgain(now);
    FiveSteps(s, a);
    var s1 := Do(s, a[0]);
    assert s1.procs[1] == Proc(true, Owned(name)) && name in s1.queue.running && s1.queue.running[name].Readable?;
    var s3 := Do(Do(s1, a[1]), a[2]);
    assert s3.procs[1].alive && s3.procs[1].pc.Working? && s3.procs[1].pc.name == name && name in s3.queue.failed;
  }

  /** From the empty queue a job can end completed and failed: in each of these ways, for any job. */
  lemma FinishedJobsCanAlsoFail(name: string, job: Job, now: int, late: int)
    requires job.timeout.Some? ==> now + job.timeout.value + GRACE < late
    ensures InBoth(Run(EMPTY, Claimed0Listed1(name, job) + FinishedWhileListed(now)).queue, name)
    ensures InBoth(Run(EMPTY, Claimed0Listed1(name, job) + KilledBeforeUnlink(now, late)).queue, name)
    ensures InBoth(Run(EMPTY, Claimed0Listed1(name, job) + LateCompletion(now, late)).queue, name)
    ensures InBoth(Run(EMPTY, Claimed0Listed1(name, job) + (RestoredWhileListed(name, now) + ClaimedAgain(now))).queue, name)
  {
    var opening := Claimed0Listed1(name, job);
    Opening(name, job);
    RunAppend(EMPTY, opening, FinishedWhileListed(now));
    RunAppend(EMPTY, opening, KilledBeforeUnlink(now, late));
    RunAppend(EMPTY, opening, LateCompletion(now, late));
    RunAppend(EMPTY, opening, RestoredWhileListed(name, now) + ClaimedAgain(now));
    RunAppend(Run(EMPTY, opening), RestoredWhileListed(name, now), ClaimedAgain(now));
    FinishedWhileListedClashes(name, job, now);
    KilledBeforeUnlinkClashes(name, job, now, late);
    LateCompletionClashes(name, job, now, late);
    RestoredWhileListedFails(name, job, now);
    ClaimedAgainCompletes(Run(Run(EMPTY, opening), RestoredWhileListed(name, now)), name, now);
  }
}
