/**
 * The finished-issue metrics archive: ledgers first, metadata last.
 *
 * Runs are serialised by a lock that dies with its holder, and a run may be
 * killed between any two file operations.
 */
module ArchiveStore {
  import opened Wrappers

  type Path = seq<string>
  type Bytes = seq<int>

  datatype Ledger = Ledger(path: Path, data: Bytes)

  predicate Distinct(ledgers: seq<Ledger>) {
    forall i, j :: 0 <= i < j < |ledgers| ==> ledgers[i].path != ledgers[j].path
  }

  datatype RawRequest = RawRequest(header: string, ledgers: seq<Ledger>)

  /** What one run archives; ledgers are found by listing a directory, so paths differ. */
  type Request = q: RawRequest | Distinct(q.ledgers) witness RawRequest("", [])

  /** Size and digest stand for the bytes themselves. */
  datatype Payload = Payload(header: string, manifest: map<Path, Bytes>)

  datatype Name = LedgerFile(path: Path) | Temporary(token: nat) | MetadataFile

  datatype Content = Data(bytes: Bytes) | Json(payload: Payload)

  type Disk = map<Name, Content>

  function ManifestOf(ledgers: seq<Ledger>): map<Path, Bytes> {
    if ledgers == [] then map[]
    else
      var last := ledgers[|ledgers| - 1];
      ManifestOf(ledgers[..|ledgers| - 1])[last.path := last.data]
  }

  function PayloadOf(q: Request): Payload {
    Payload(q.header, ManifestOf(q.ledgers))
  }

  lemma {:induction false} ManifestHas(ledgers: seq<Ledger>)
    requires Distinct(ledgers)
    ensures forall i :: 0 <= i < |ledgers| ==>
      ledgers[i].path in ManifestOf(ledgers) && ManifestOf(ledgers)[ledgers[i].path] == ledgers[i].data
    ensures forall p :: p in ManifestOf(ledgers) ==> exists i :: 0 <= i < |ledgers| && ledgers[i].path == p
  {
    if ledgers != [] {
      var n := |ledgers| - 1;
      ManifestHas(ledgers[..n]);
      forall i | 0 <= i < n
        ensures ledgers[i].path in ManifestOf(ledgers) && ManifestOf(ledgers)[ledgers[i].path] == ledgers[i].data
      {
        assert ledgers[..n][i] == ledgers[i];
      }
      forall p | p in ManifestOf(ledgers) ensures exists i :: 0 <= i < |ledgers| && ledgers[i].path == p {
        if p != ledgers[n].path {
          var i :| 0 <= i < n && ledgers[..n][i].path == p;
          assert ledgers[i].path == p;
        } else {
          assert ledgers[n].path == p;
        }
      }
    }
  }

  // ---- admission --------------------------------------------------------

  datatype Verdict = Refuse | Verified | Proceed

  predicate HasTemporary(disk: Disk) {
    exists n :: n in disk && n.Temporary?
  }

  predicate OnlyExpected(disk: Disk, q: Request) {
    forall n :: n in disk && n.LedgerFile? ==> n.path in ManifestOf(q.ledgers)
  }

  predicate AllExpected(disk: Disk, q: Request) {
    forall i :: 0 <= i < |q.ledgers| ==> LedgerFile(q.ledgers[i].path) in disk
  }

  predicate SameContents(disk: Disk, q: Request)
    requires AllExpected(disk, q)
  {
    forall i :: 0 <= i < |q.ledgers| ==> disk[LedgerFile(q.ledgers[i].path)] == Data(q.ledgers[i].data)
  }

  /** Anything that is neither a ledger nor the metadata is an unexpected entry. */
  function Admit(disk: Disk, q: Request): Verdict {
    if HasTemporary(disk) then Refuse
    else if MetadataFile in disk then
      if disk[MetadataFile] == Json(PayloadOf(q)) && OnlyExpected(disk, q) && AllExpected(disk, q)
         && SameContents(disk, q) then Verified
      else Refuse
    else if OnlyExpected(disk, q) then Proceed
    else Refuse
  }

  // ---- runs, killed anywhere --------------------------------------------

  datatype Phase =
    | Checking
    | Opening(k: nat)
    | Writing(k: nat, token: nat, offset: nat)
    | WritingMetadata(token: nat, written: bool)
    | Linked(token: nat)

  datatype Live = Live(request: Request, phase: Phase)

  /** How the last run ended. */
  datatype Ending = Succeeded | Raised | Killed

  datatype State = State(disk: Disk, live: Option<Live>, ending: Ending)

  /** `Step` carries the environment's fresh name and the size of the next write. */
  datatype Action = Start(request: Request) | Step(token: nat, count: nat) | Fail | Crash

  const EMPTY := State(map[], None, Killed)

  function At(disk: Disk, q: Request, phase: Phase): State {
    State(disk, Some(Live(q, phase)), Killed)
  }

  function Stop(disk: Disk, ending: Ending): State {
    State(disk, None, ending)
  }

  function Temp(phase: Phase): Option<nat> {
    match phase
    case Checking => None
    case Opening(_) => None
    case Writing(_, token, _) => Some(token)
    case WritingMetadata(token, _) => Some(token)
    case Linked(token) => Some(token)
  }

  /** The handler of a failed operation removes its own temporary file. */
  function Cleanup(disk: Disk, phase: Phase): Disk {
    if Temp(phase).Some? then disk - {Temporary(Temp(phase).value)} else disk
  }

  function WriteSome(disk: Disk, q: Request, k: nat, token: nat, offset: nat, count: nat): State
    requires k < |q.ledgers|
  {
    var l := q.ledgers[k];
    if offset >= |l.data| then
      At((disk - {Temporary(token)})[LedgerFile(l.path) := Data(l.data)], q, Opening(k + 1))
    else if count == 0 then Stop(Cleanup(disk, Writing(k, token, offset)), Raised)
    else
      var next := if offset + count <= |l.data| then offset + count else |l.data|;
      At(disk[Temporary(token) := Data(l.data[..next])], q, Writing(k, token, next))
  }

  function StepOf(disk: Disk, q: Request, phase: Phase, token: nat, count: nat): State {
    match phase
    case Checking => 
      if Admit(disk, q).Proceed? then At(disk, q, Opening(0))
      else Stop(disk, if Admit(disk, q).Verified? then Succeeded else Raised)
    case Opening(k) =>
      if Temporary(token) in disk then At(disk, q, phase)
      else if k < |q.ledgers| then At(disk[Temporary(token) := Data([])], q, Writing(k, token, 0))
      else At(disk[Temporary(token) := Data([])], q, WritingMetadata(token, false))
    case Writing(k, mine, offset) =>
      if k < |q.ledgers| then WriteSome(disk, q, k, mine, offset, count) else Stop(disk, Raised)
    case WritingMetadata(mine, written) =>
      if !written then At(disk[Temporary(mine) := Json(PayloadOf(q))], q, WritingMetadata(mine, true))
      else if MetadataFile in disk then Stop(Cleanup(disk, phase), Raised)
      else At(disk[MetadataFile := Json(PayloadOf(q))], q, Linked(mine))
    case Linked(mine) => Stop(disk - {Temporary(mine)}, Succeeded)
  }

  function Do(s: State, a: Action): State {
    match a
    case Start(q) => if s.live.None? then At(s.disk, q, Checking) else s
    case Step(token, count) =>
      if s.live.None? then s else StepOf(s.disk, s.live.value.request, s.live.value.phase, token, count)
    case Fail => if s.live.None? then s else Stop(Cleanup(s.disk, s.live.value.phase), Raised)
    case Crash => if s.live.None? then s else Stop(s.disk, Killed)
  }

  function Run(s: State, actions: seq<Action>): State
    decreases |actions|
  {
    if actions == [] then s else Run(Do(s, actions[0]), actions[1..])
  }

  // ---- the commit point -------------------------------------------------

  /** With metadata present the ledgers are exactly its manifest, byte for byte. */
  ghost predicate Committed(disk: Disk) {
    MetadataFile in disk ==>
      && disk[MetadataFile].Json?
      && (forall p :: LedgerFile(p) in disk <==> p in disk[MetadataFile].payload.manifest)
      && forall p :: p in disk[MetadataFile].payload.manifest ==>
           LedgerFile(p) in disk && disk[LedgerFile(p)] == Data(disk[MetadataFile].payload.manifest[p])
  }

  ghost predicate FirstDone(disk: Disk, q: Request, k: nat) {
    && k <= |q.ledgers|
    && forall i :: 0 <= i < k ==>
         LedgerFile(q.ledgers[i].path) in disk && disk[LedgerFile(q.ledgers[i].path)] == Data(q.ledgers[i].data)
  }

  ghost predicate Uncommitted(disk: Disk, q: Request, k: nat) {
    MetadataFile !in disk && OnlyExpected(disk, q) && FirstDone(disk, q, k)
  }

  ghost predicate PhaseOk(disk: Disk, q: Request, phase: Phase) {
    match phase
    case Checking => true
    case Opening(k) => Uncommitted(disk, q, k)
    case Writing(k, token, offset) =>
      && Uncommitted(disk, q, k) && k < |q.ledgers| && offset <= |q.ledgers[k].data|
      && Temporary(token) in disk && disk[Temporary(token)] == Data(q.ledgers[k].data[..offset])
    case WritingMetadata(token, written) =>
      && Uncommitted(disk, q, |q.ledgers|) && Temporary(token) in disk
      && (written ==> disk[Temporary(token)] == Json(PayloadOf(q)))
    case Linked(token) => MetadataFile in disk && Temporary(token) in disk
  }

  ghost predicate Inv(s: State) {
    && Committed(s.disk)
    && (s.live.Some? ==> PhaseOk(s.disk, s.live.value.request, s.live.value.phase))
  }

  lemma LinkCommits(disk: Disk, q: Request)
    requires Uncommitted(disk, q, |q.ledgers|)
    ensures Committed(disk[MetadataFile := Json(PayloadOf(q))])
  {
    var after := disk[MetadataFile := Json(PayloadOf(q))];
    ManifestHas(q.ledgers);
    forall p ensures LedgerFile(p) in after <==> p in ManifestOf(q.ledgers) {
      if p in ManifestOf(q.ledgers) {
        var i :| 0 <= i < |q.ledgers| && q.ledgers[i].path == p;
      }
    }
    forall p | p in ManifestOf(q.ledgers) ensures after[LedgerFile(p)] == Data(ManifestOf(q.ledgers)[p]) {
      var i :| 0 <= i < |q.ledgers| && q.ledgers[i].path == p;
    }
  }

  lemma WriteSomeKeeps(disk: Disk, q: Request, k: nat, token: nat, offset: nat, count: nat)
    requires PhaseOk(disk, q, Writing(k, token, offset))
    ensures Inv(WriteSome(disk, q, k, token, offset, count))
  {
    ManifestHas(q.ledgers);
  }

  lemma StepKeeps(s: State, a: Action)
    requires Inv(s)
    ensures Inv(Do(s, a))
  {
    if s.live.Some? && a.Step? {
      var q := s.live.value.request;
      match s.live.value.phase {
        case Writing(k, token, offset) => WriteSomeKeeps(s.disk, q, k, token, offset, a.count);
        case WritingMetadata(token, written) =>
          if written {
            LinkCommits(s.disk, q);
          }
        case _ =>
      }
    }
  }

  lemma {:induction false} RunKeeps(s: State, actions: seq<Action>)
    requires Inv(s)
    ensures Inv(Run(s, actions))
    decreases |actions|
  {
    if actions != [] {
      StepKeeps(s, actions[0]);
      RunKeeps(Do(s, actions[0]), actions[1..]);
    }
  }

  /** The files other than temporaries. */
  function Durable(disk: Disk): Disk {
    map n | n in disk && !n.Temporary? :: disk[n]
  }

  lemma CommittedStep(s: State, a: Action)
    requires Inv(s) && MetadataFile in s.disk
    ensures Durable(Do(s, a).disk) == Durable(s.disk) && MetadataFile in Do(s, a).disk
  {
    var t := Do(s, a);
    forall n: Name | !n.Temporary? ensures n in t.disk <==> n in s.disk {
    }
    forall n | n in s.disk && !n.Temporary? ensures t.disk[n] == s.disk[n] {
    }
  }

  lemma {:induction false} CommittedRun(s: State, actions: seq<Action>)
    requires Inv(s) && MetadataFile in s.disk
    ensures Durable(Run(s, actions).disk) == Durable(s.disk)
    decreases |actions|
  {
    if actions != [] {
      CommittedStep(s, actions[0]);
      StepKeeps(s, actions[0]);
      CommittedRun(Do(s, actions[0]), actions[1..]);
    }
  }

  /**
   * From an empty archive, through any runs killed anywhere: metadata present
   * means the archive is complete and exact, and it stays so through any later runs.
   */
  lemma MetadataIsTheCommitPoint(earlier: seq<Action>, later: seq<Action>)
    ensures Committed(Run(EMPTY, earlier).disk)
    ensures MetadataFile in Run(EMPTY, earlier).disk ==>
      Durable(Run(Run(EMPTY, earlier), later).disk) == Durable(Run(EMPTY, earlier).disk)
  {
    var s := Run(EMPTY, earlier);
    RunKeeps(EMPTY, earlier);
    if MetadataFile in s.disk {
      CommittedRun(s, later);
    }
  }

  // ---- when a later run can finish --------------------------------------

  /** A run killed while it holds a temporary file leaves that file behind. */
  lemma CrashLeavesATemporary(s: State)
    requires Inv(s) && s.live.Some? && Temp(s.live.value.phase).Some?
    ensures HasTemporary(Do(s, Crash).disk) && Do(s, Crash).live.None?
  {
    assert Temporary(Temp(s.live.value.phase).value) in s.disk;
  }

  predicate Idle(s: State) {
    s.live.None? || s.live.value.phase.Checking?
  }

  /** Once one is left behind, every later run raises, and nothing on disk changes again. */
  lemma {:induction false} LeftoverStopsEveryRun(s: State, actions: seq<Action>)
    requires HasTemporary(s.disk) && Idle(s) && !s.ending.Succeeded?
    ensures Run(s, actions).disk == s.disk && !Run(s, actions).ending.Succeeded? && Idle(Run(s, actions))
    decreases |actions|
  {
    if actions != [] {
      LeftoverStopsEveryRun(Do(s, actions[0]), actions[1..]);
    }
  }

  lemma {:induction false} RunAppend(s: State, a: seq<Action>, b: seq<Action>)
    ensures Run(s, a + b) == Run(Run(s, a), b)
    decreases |a|
  {
    if a == [] {
      assert a + b == b;
    } else {
      assert (a + b)[1..] == a[1..] + b;
      RunAppend(Do(s, a[0]), a[1..], b);
    }
  }

  ghost predicate Finishes(s: State, q: Request, steps: seq<Action>) {
    && Run(s, steps).live.None? && Run(s, steps).ending.Succeeded?
    && MetadataFile in Run(s, steps).disk && Run(s, steps).disk[MetadataFile] == Json(PayloadOf(q))
  }

  predicate Uninterrupted(steps: seq<Action>) {
    forall i :: 0 <= i < |steps| ==> !steps[i].Start?
  }

  lemma Prepend(s: State, q: Request, a: Action, steps: seq<Action>)
    requires Finishes(Do(s, a), q, steps)
    ensures Finishes(s, q, [a] + steps)
  {
    assert ([a] + steps)[1..] == steps;
  }

  lemma Prefixed(s: State, q: Request, a: seq<Action>, b: seq<Action>)
    requires Finishes(Run(s, a), q, b) && Uninterrupted(a) && Uninterrupted(b)
    ensures Finishes(s, q, a + b) && Uninterrupted(a + b)
  {
    RunAppend(s, a, b);
  }

  lemma RunTwo(s: State, a: Action, b: Action)
    ensures Run(s, [a, b]) == Do(Do(s, a), b)
  {
    assert [a, b][1..] == [b] && [b][1..] == [];
    assert Run(Do(s, a), [b]) == Do(Do(s, a), b);
  }

  /** Create the temporary file, fill it, rename it over the ledger. */
  lemma LedgerSteps(disk: Disk, q: Request, k: nat, token: nat) returns (steps: seq<Action>, next: Disk)
    requires Uncommitted(disk, q, k) && Temporary(token) !in disk && k < |q.ledgers|
    ensures Uninterrupted(steps) && Run(At(disk, q, Opening(k)), steps) == At(next, q, Opening(k + 1))
    ensures Uncommitted(next, q, k + 1) && Temporary(token) !in next
  {
    var data := q.ledgers[k].data;
    var s1 := At(disk[Temporary(token) := Data([])], q, Writing(k, token, 0));
    var s2 := At(disk[Temporary(token) := Data(data)], q, Writing(k, token, |data|));
    next := (s2.disk - {Temporary(token)})[LedgerFile(q.ledgers[k].path) := Data(data)];
    var s3 := At(next, q, Opening(k + 1));
    var open, write := Step(token, 0), Step(token, |data|);
    assert Do(At(disk, q, Opening(k)), open) == s1 && Do(s2, write) == s3;
    assert data[..|data|] == data;
    ManifestHas(q.ledgers);
    if data == [] {
      assert s1 == s2;
      steps := [open, write];
      RunTwo(At(disk, q, Opening(k)), open, write);
    } else {
      assert Do(s1, write) == s2;
      steps := [open] + [write, write];
      RunTwo(s1, write, write);
      assert ([open] + [write, write])[1..] == [write, write];
    }
  }

  /** Left alone, an admitted run commits. */
  lemma {:induction false} RunsOn(disk: Disk, q: Request, k: nat, token: nat) returns (steps: seq<Action>)
    requires Uncommitted(disk, q, k) && Temporary(token) !in disk && k <= |q.ledgers|
    ensures Finishes(At(disk, q, Opening(k)), q, steps) && Uninterrupted(steps)
    decreases |q.ledgers| - k
  {
    if k == |q.ledgers| {
      var open := Step(token, 0);
      var rest := MetadataSteps(disk[Temporary(token) := Data([])], q, token);
      Prepend(At(disk, q, Opening(k)), q, open, rest);
      steps := [open] + rest;
    } else {
      var mine, next := LedgerSteps(disk, q, k, token);
      var rest := RunsOn(next, q, k + 1, token);
      Prefixed(At(disk, q, Opening(k)), q, mine, rest);
      steps := mine + rest;
    }
  }

  lemma MetadataSteps(disk: Disk, q: Request, token: nat) returns (steps: seq<Action>)
    requires MetadataFile !in disk
    ensures Finishes(At(disk, q, WritingMetadata(token, false)), q, steps) && Uninterrupted(steps)
  {
    var step := Step(token, 0);
    var s1 := At(disk, q, WritingMetadata(token, false));
    var s2 := Do(s1, step);
    var s3 := Do(s2, step);
    var s4 := Do(s3, step);
    assert s4 == Stop(s3.disk - {Temporary(token)}, Succeeded);
    assert Finishes(s4, q, []);
    Prepend(s3, q, step, []);
    Prepend(s2, q, step, [step] + []);
    Prepend(s1, q, step, [step] + ([step] + []));
    steps := [step] + ([step] + ([step] + []));
  }

  lemma {:induction false} StoppedStays(s: State, steps: seq<Action>)
    requires s.live.None? && Uninterrupted(steps)
    ensures Run(s, steps) == s
    decreases |steps|
  {
    if steps != [] {
      StoppedStays(Do(s, steps[0]), steps[1..]);
    }
  }

  lemma {:induction false} RefusedNeverFinishes(disk: Disk, q: Request, steps: seq<Action>)
    requires Admit(disk, q).Refuse? && Uninterrupted(steps)
    ensures !Finishes(At(disk, q, Checking), q, steps)
  {
    if steps != [] {
      StoppedStays(Do(At(disk, q, Checking), steps[0]), steps[1..]);
    }
  }

  /** A started run can end in success exactly when the check it opens with does not refuse. */
  lemma FinishesExactlyWhen(disk: Disk, q: Request, unused: nat)
    requires Temporary(unused) !in disk
    ensures (exists steps :: Uninterrupted(steps) && Finishes(At(disk, q, Checking), q, steps))
       <==> !Admit(disk, q).Refuse?
  {
    var s := At(disk, q, Checking);
    var first := Step(unused, 0);
    if Admit(disk, q).Refuse? {
      forall steps | Uninterrupted(steps) ensures !Finishes(s, q, steps) {
        RefusedNeverFinishes(disk, q, steps);
      }
    } else if Admit(disk, q).Verified? {
      assert Finishes(Do(s, first), q, []);
      Prepend(s, q, first, []);
      assert Uninterrupted([first] + []);
    } else {
      var rest := RunsOn(disk, q, 0, unused);
      Prepend(s, q, first, rest);
      assert Finishes(s, q, [first] + rest) && Uninterrupted([first] + rest);
    }
  }

  // ---- retrying a killed run --------------------------------------------

  /** Every temporary file on disk is the running process's own. */
  ghost predicate OwnTemporaryOnly(s: State, q: Request) {
    s.live.Some? ==>
      && s.live.value.request == q
      && forall n :: n in s.disk && n.Temporary? ==> Temp(s.live.value.phase) == Some(n.token)
  }

  lemma {:induction false} OwnTemporaryKept(s: State, q: Request, steps: seq<Action>)
    requires OwnTemporaryOnly(s, q) && Uninterrupted(steps)
    ensures OwnTemporaryOnly(Run(s, steps), q)
    decreases |steps|
  {
    if steps != [] {
      OwnTemporaryKept(Do(s, steps[0]), q, steps[1..]);
    }
  }

  lemma CrashedInOpening(s: State, q: Request)
    requires Inv(s) && OwnTemporaryOnly(s, q) && s.live.Some? && !s.live.value.phase.Checking?
    ensures Admit(s.disk, q).Refuse? <==> Temp(s.live.value.phase).Some?
  {
    if Temp(s.live.value.phase).Some? {
      assert Temporary(Temp(s.live.value.phase).value) in s.disk;
    }
  }

  /**
   * A run past its opening check, killed: the same request can be retried to
   * success exactly when the run held no temporary file.
   */
  lemma KilledRunCanBeRetriedExactlyWhen(disk: Disk, q: Request, steps: seq<Action>, unused: nat)
    requires Committed(disk) && !HasTemporary(disk) && Uninterrupted(steps)
    requires var s := Run(At(disk, q, Checking), steps);
      s.live.Some? && !s.live.value.phase.Checking? && Temporary(unused) !in s.disk
    ensures var s := Run(At(disk, q, Checking), steps);
      (exists more :: Uninterrupted(more) && Finishes(Do(Do(s, Crash), Start(q)), q, more))
      <==> Temp(s.live.value.phase).None?
  {
    var s := Run(At(disk, q, Checking), steps);
    RunKeeps(At(disk, q, Checking), steps);
    OwnTemporaryKept(At(disk, q, Checking), q, steps);
    CrashedInOpening(s, q);
    FinishesExactlyWhen(s.disk, q, unused);
  }

  ghost predicate Tidy(s: State, q: Request) {
    OwnTemporaryOnly(s, q) && (s.live.None? && !s.ending.Killed? ==> !HasTemporary(s.disk))
  }

  lemma {:induction false} TidyKept(s: State, q: Request, steps: seq<Action>)
    requires Inv(s) && Tidy(s, q) && Uninterrupted(steps)
    ensures Tidy(Run(s, steps), q)
    decreases |steps|
  {
    if steps != [] {
      StepKeeps(s, steps[0]);
      TidyKept(Do(s, steps[0]), q, steps[1..]);
    }
  }

  /** Only a kill leaves a temporary: a run that raised or succeeded has removed its own. */
  lemma OnlyAKillLeavesATemporary(disk: Disk, q: Request, steps: seq<Action>)
    requires Committed(disk) && !HasTemporary(disk) && Uninterrupted(steps)
    requires Run(At(disk, q, Checking), steps).live.None?
    ensures HasTemporary(Run(At(disk, q, Checking), steps).disk) ==> Run(At(disk, q, Checking), steps).ending.Killed?
  {
    TidyKept(At(disk, q, Checking), q, steps);
  }

  // ---- the copy itself --------------------------------------------------

  function Archived(disk: Disk, ledgers: seq<Ledger>): Disk {
    if ledgers == [] then disk
    else
      var last := ledgers[|ledgers| - 1];
      Archived(disk, ledgers[..|ledgers| - 1])[LedgerFile(last.path) := Data(last.data)]
  }

  lemma {:induction false} ArchivedHas(disk: Disk, ledgers: seq<Ledger>)
    requires Distinct(ledgers)
    ensures forall i :: 0 <= i < |ledgers| ==>
      var n := LedgerFile(ledgers[i].path);
      n in Archived(disk, ledgers) && Archived(disk, ledgers)[n] == Data(ledgers[i].data)
    ensures forall n :: n in Archived(disk, ledgers) ==>
      n in disk || exists i :: 0 <= i < |ledgers| && n == LedgerFile(ledgers[i].path)
    ensures forall n :: n in disk ==> n in Archived(disk, ledgers)
    ensures forall n :: n in disk && !n.LedgerFile? ==> Archived(disk, ledgers)[n] == disk[n]
  {
    if ledgers != [] {
      var n := |ledgers| - 1;
      var front := ledgers[..n];
      ArchivedHas(disk, front);
      forall i | 0 <= i < n
        ensures LedgerFile(ledgers[i].path) in Archived(disk, ledgers)
        ensures Archived(disk, ledgers)[LedgerFile(ledgers[i].path)] == Data(ledgers[i].data)
      {
        assert front[i] == ledgers[i];
      }
      forall x | x in Archived(disk, ledgers)
        ensures x in disk || exists i :: 0 <= i < |ledgers| && x == LedgerFile(ledgers[i].path)
      {
        if x != LedgerFile(ledgers[n].path) && x !in disk {
          var i :| 0 <= i < n && x == LedgerFile(front[i].path);
          assert x == LedgerFile(ledgers[i].path);
        }
      }
    }
  }

  /** What an unhindered run leaves in an empty directory. */
  function WholeArchive(q: Request): Disk {
    Archived(map[], q.ledgers)[MetadataFile := Json(PayloadOf(q))]
  }

  predicate LedgerOf(q: Request, n: Name) {
    exists i :: 0 <= i < |q.ledgers| && n == LedgerFile(q.ledgers[i].path)
  }

  lemma WholeArchiveHas(q: Request)
    ensures forall n :: n in WholeArchive(q) <==> n == MetadataFile || LedgerOf(q, n)
    ensures WholeArchive(q)[MetadataFile] == Json(PayloadOf(q))
    ensures forall i :: 0 <= i < |q.ledgers| ==>
      var n := LedgerFile(q.ledgers[i].path); n in WholeArchive(q) && WholeArchive(q)[n] == Data(q.ledgers[i].data)
  {
    ArchivedHas(map[], q.ledgers);
  }

  lemma ExpectedIsLedger(q: Request, n: Name)
    requires n.LedgerFile?
    ensures n.path in ManifestOf(q.ledgers) <==> LedgerOf(q, n)
  {
    ManifestHas(q.ledgers);
  }

  lemma OnlyLedgers(disk: Disk, q: Request)
    ensures OnlyExpected(disk, q) <==> forall n :: n in disk && n.LedgerFile? ==> LedgerOf(q, n)
  {
    forall n: Name | n.LedgerFile? ensures n.path in ManifestOf(q.ledgers) <==> LedgerOf(q, n) {
      ExpectedIsLedger(q, n);
    }
  }

  lemma VerifiedIsWhole(disk: Disk, q: Request)
    requires Admit(disk, q).Verified?
    ensures disk == WholeArchive(q)
  {
    WholeArchiveHas(q);
    OnlyLedgers(disk, q);
    forall n ensures n in disk <==> n in WholeArchive(q) {
      if n in WholeArchive(q) && n != MetadataFile {
        var i :| 0 <= i < |q.ledgers| && n == LedgerFile(q.ledgers[i].path);
      }
    }
    forall n | n in disk ensures disk[n] == WholeArchive(q)[n] {
      if n != MetadataFile {
        var i :| 0 <= i < |q.ledgers| && n == LedgerFile(q.ledgers[i].path);
      }
    }
  }

  /**
   * On any disk whatsoever: a run finds its archive in place exactly when that
   * is byte for byte what it would write, and starts exactly when nothing but
   * its own ledgers lies there.
   */
  lemma AdmitsExactlyWhen(disk: Disk, q: Request)
    ensures Admit(disk, q).Verified? <==> disk == WholeArchive(q)
    ensures Admit(disk, q).Proceed? <==> forall n :: n in disk ==> LedgerOf(q, n)
  {
    OnlyLedgers(disk, q);
    if Admit(disk, q).Verified? {
      VerifiedIsWhole(disk, q);
    }
    WholeArchiveHas(q);
    forall n | n in disk && !n.Temporary? && n != MetadataFile ensures n.LedgerFile? {
    }
  }

  /** The archive directory as one unhindered run sees it. */
  class ArchiveDirectory {
    var disk: Disk

    /** Write a sibling in pieces of any size, then rename it over the target. */
    method AtomicReplaceRegular(path: Path, payload: Bytes, token: nat)
      requires Temporary(token) !in disk
      modifies this
      ensures disk == old(disk)[LedgerFile(path) := Data(payload)]
    {
      disk := disk[Temporary(token) := Data([])];
      var offset := 0;
      while offset < |payload|
        invariant 0 <= offset <= |payload|
        invariant disk == old(disk)[Temporary(token) := Data(payload[..offset])]
      {
        var written :| 0 < written <= |payload| - offset;
        offset := offset + written;
        disk := disk[Temporary(token) := Data(payload[..offset])];
      }
      assert payload[..offset] == payload;
      disk := (disk - {Temporary(token)})[LedgerFile(path) := Data(payload)];
    }

    method CopyArchive(q: Request, token: nat) returns (verdict: Verdict)
      requires Temporary(token) !in disk
      modifies this
      ensures verdict == Admit(old(disk), q)
      ensures verdict.Proceed? ==> disk == Archived(old(disk), q.ledgers)[MetadataFile := Json(PayloadOf(q))]
      ensures verdict.Proceed? ==> Committed(disk)
      ensures !verdict.Proceed? ==> disk == old(disk)
    {
      verdict := Admit(disk, q);
      if !verdict.Proceed? {
        return;
      }
      var k := 0;
      while k < |q.ledgers|
        invariant 0 <= k <= |q.ledgers|
        invariant disk == Archived(old(disk), q.ledgers[..k]) && Temporary(token) !in disk
      {
        AtomicReplaceRegular(q.ledgers[k].path, q.ledgers[k].data, token);
        assert q.ledgers[..k + 1][..k] == q.ledgers[..k];
        k := k + 1;
      }
      assert q.ledgers[..k] == q.ledgers;
      ArchivedHas(old(disk), q.ledgers);
      ArchivedIsUncommitted(old(disk), q);
      disk := disk[MetadataFile := Json(PayloadOf(q))];
      LinkCommits(Archived(old(disk), q.ledgers), q);
    }
  }

  lemma ArchivedIsUncommitted(disk: Disk, q: Request)
    requires Admit(disk, q).Proceed?
    ensures Uncommitted(Archived(disk, q.ledgers), q, |q.ledgers|)
  {
    ArchivedHas(disk, q.ledgers);
    ManifestHas(q.ledgers);
    forall n | n in Archived(disk, q.ledgers) && n.LedgerFile? ensures n.path in ManifestOf(q.ledgers) {
      if n !in disk {
        var i :| 0 <= i < |q.ledgers| && n == LedgerFile(q.ledgers[i].path);
      }
    }
  }
}
