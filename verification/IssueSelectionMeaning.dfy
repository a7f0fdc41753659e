/** What a selection says of each issue, told by the issue's own fields. */
module IssueSelectionMeaning {
  import opened Wrappers
  import opened Text
  import opened IssueScopes
  import opened IssueSelection

  // ---- labels -----------------------------------------------------------

  predicate SoleLabel(labels: seq<string>, name: string) {
    labels == [name]
  }

  predicate HasPriority(i: Issue) {
    exists k :: 0 <= k < 4 && SoleLabel(i.priorityLabels, PRIORITIES[k])
  }

  predicate HasLane(i: Issue) {
    exists k :: 0 <= k < 6 && SoleLabel(i.lanes, LANES[k])
  }

  predicate HasType(i: Issue) {
    exists t :: t in TYPE_LABELS && SoleLabel(i.typeLabels, t)
  }

  /** The tier's name, bare or behind its prefix. */
  predicate HasTier(i: Issue, k: nat)
    requires k < 3
  {
    SoleLabel(i.autonomyLabels, TIERS[k]) || SoleLabel(i.autonomyLabels, "autonomy:" + TIERS[k])
  }

  lemma {:induction false} RankOf(order: seq<string>, k: nat)
    requires k < |order| && forall i :: 0 <= i < k ==> order[i] != order[k]
    ensures Rank(order, order[k]) == k
    decreases |order|
  {
    if k > 0 {
      RankOf(order[1..], k - 1);
    }
  }

  lemma OnlyIs(labels: seq<string>, known: seq<string>)
    ensures Only(labels, known).Some? <==> exists k :: 0 <= k < |known| && SoleLabel(labels, known[k])
    ensures forall k :: 0 <= k < |known| ==> (Only(labels, known) == Some(known[k]) <==> SoleLabel(labels, known[k]))
  {
  }

  /** Tier names are six letters long and begin with a `t`. */
  lemma TiersAreShort()
    ensures |TIERS| == 3 && forall k :: 0 <= k < 3 ==> |TIERS[k]| == 6 && TIERS[k][0] == 't' && TIERS[k][5] == (97 + k) as char
  {
  }

  lemma TierIs(i: Issue, k: nat, prefix: string)
    requires k < 3 && prefix == "autonomy:"
    ensures Tier(i) == Some(TIERS[k]) <==> HasTier(i, k)
  {
    TiersAreShort();
    assert |prefix| == 9 && prefix[0] == 'a';
    if |i.autonomyLabels| == 1 {
      var text := i.autonomyLabels[0];
      var rest := RemovePrefix(text, prefix);
      OnlyIs([rest], TIERS);
      assert rest == TIERS[k] <==> text == TIERS[k] || text == prefix + TIERS[k] by {
        if StartsWith(text, prefix) {
          assert text == prefix + text[9..];
        }
        if text == prefix + TIERS[k] {
          assert text[9..] == TIERS[k];
        }
      }
    }
  }

  /** The tier of the issue is above the ceiling's. */
  predicate AboveCeiling(i: Issue, ceiling: string) {
    exists a, b :: 0 <= b < a < 3 && HasTier(i, a) && ceiling == TIERS[b]
  }

  lemma TierRank(k: nat)
    requires k < 3
    ensures Rank(TIERS, TIERS[k]) == k
  {
    TiersAreShort();
    RankOf(TIERS, k);
  }

  lemma CeilingIs(i: Issue, ceiling: string)
    requires ceiling in TIERS
    ensures Tier(i).None? <==> forall k :: 0 <= k < 3 ==> !HasTier(i, k)
    ensures (Tier(i).Some? && Rank(TIERS, Tier(i).value) > Rank(TIERS, ceiling)) <==> AboveCeiling(i, ceiling)
  {
    var b :| 0 <= b < 3 && TIERS[b] == ceiling;
    TierRank(b);
    forall k | 0 <= k < 3 ensures Tier(i) == Some(TIERS[k]) <==> HasTier(i, k) {
      TierIs(i, k, "autonomy:");
      TierRank(k);
    }
    forall c | 0 <= c < 3 && TIERS[c] == ceiling ensures c == b {
      TierRank(c);
    }
    if Tier(i).Some? {
      TierKnown(i);
      var a :| 0 <= a < 3 && Tier(i).value == TIERS[a];
      TierRank(a);
    }
  }

  lemma TierKnown(i: Issue)
    ensures Tier(i).Some? ==> exists a :: 0 <= a < 3 && Tier(i).value == TIERS[a]
  {
  }

  predicate LastAt(issues: seq<Issue>, number: int, k: nat) {
    k < |issues| && issues[k].number == number && forall m :: k < m < |issues| ==> issues[m].number != number
  }

  /** The issue listed last under this number is closed. */
  predicate LastClosed(issues: seq<Issue>, number: int) {
    exists k :: 0 <= k < |issues| && LastAt(issues, number, k) && issues[k].state == "CLOSED"
  }

  lemma {:induction false} StateIsLast(issues: seq<Issue>, number: int, k: nat)
    requires LastAt(issues, number, k)
    ensures StateOf(issues, number) == Some(issues[k].state)
  {
    if k < |issues| - 1 {
      assert LastAt(issues[..|issues| - 1], number, k);
      StateIsLast(issues[..|issues| - 1], number, k);
    }
  }

  lemma {:induction false} StateHasLast(issues: seq<Issue>, number: int)
    requires StateOf(issues, number).Some?
    ensures exists k :: 0 <= k < |issues| && LastAt(issues, number, k)
  {
    var n := |issues| - 1;
    if issues[n].number == number {
      assert LastAt(issues, number, n);
    } else {
      StateHasLast(issues[..n], number);
      var k :| 0 <= k < n && LastAt(issues[..n], number, k);
      assert forall m :: k < m < n ==> issues[m] == issues[..n][m];
      assert LastAt(issues, number, k);
    }
  }

  lemma StateIs(issues: seq<Issue>, number: int)
    ensures StateOf(issues, number) == Some("CLOSED") <==> LastClosed(issues, number)
  {
    if StateOf(issues, number).Some? {
      StateHasLast(issues, number);
    }
    forall k | 0 <= k < |issues| && LastAt(issues, number, k) ensures StateOf(issues, number) == Some(issues[k].state) {
      StateIsLast(issues, number, k);
    }
  }

  // ---- reasons ----------------------------------------------------------

  predicate MeetsOccupied(u: Unicode, i: Issue, active: ActiveState) {
    exists s, o :: s in i.allowedScopes && o in active.occupied && ScopesOverlap(u, s, o)
  }

  predicate Waiting(i: Issue, issues: seq<Issue>) {
    exists d :: d in i.dependencies && !LastClosed(issues, d)
  }

  /** Complaints about what the issue itself says, by name. */
  predicate OwnComplaint(i: Issue, ceiling: string, reason: string) {
    || (reason == "issue-not-open" && i.state != "OPEN")
    || (reason == "missing-milestone" && !i.milestonePresent)
    || (reason == "invalid-type-label" && !HasType(i))
    || (reason == "invalid-priority-label" && !HasPriority(i))
    || (reason == "invalid-status-label" && !SoleLabel(i.statusLabels, "status:ready"))
    || (reason == "invalid-autonomy-label" && forall k :: 0 <= k < 3 ==> !HasTier(i, k))
    || (reason == "autonomy-ceiling-exceeded" && AboveCeiling(i, ceiling))
    || (reason == "missing-required-section" && exists r :: r in REQUIRED_SECTIONS && r !in i.sections)
  }

  /** Complaints about what else it needs and what is in its way. */
  predicate OtherComplaint(u: Unicode, i: Issue, issues: seq<Issue>, active: ActiveState, reason: string) {
    || (reason == "invalid-dependencies" && "dependencies-invalid" in i.sections)
    || (reason == "invalid-verification-lane" && !HasLane(i))
    || (reason == "assignee-owned" && i.assigneeCount > 0)
    || (reason == "active-ownership" && i.number in active.owned)
    || (reason == "ambiguous-file-scope" && i.allowedScopes == [])
    || (reason == "overlapping-file-scope" && MeetsOccupied(u, i, active))
    || (reason == "unresolved-dependency" && Waiting(i, issues))
  }

  predicate Complaint(u: Unicode, i: Issue, issues: seq<Issue>, active: ActiveState, ceiling: string, reason: string) {
    OwnComplaint(i, ceiling, reason) || OtherComplaint(u, i, issues, active, reason)
  }

  lemma LabelsAre(i: Issue)
    ensures Priority(i).None? <==> !HasPriority(i)
    ensures Lane(i).None? <==> !HasLane(i)
    ensures (|i.typeLabels| != 1 || i.typeLabels[0] !in TYPE_LABELS) <==> !HasType(i)
  {
    OnlyIs(i.priorityLabels, PRIORITIES);
    OnlyIs(i.lanes, LANES);
    if |i.typeLabels| == 1 {
      assert SoleLabel(i.typeLabels, i.typeLabels[0]);
    }
  }

  lemma WaitingIs(i: Issue, issues: seq<Issue>)
    ensures (exists d :: d in i.dependencies && StateOf(issues, d) != Some("CLOSED")) <==> Waiting(i, issues)
  {
    forall d ensures StateOf(issues, d) == Some("CLOSED") <==> LastClosed(issues, d) {
      StateIs(issues, d);
    }
  }

  lemma OwnReasonsAre(i: Issue, ceiling: string)
    requires ceiling in TIERS
    ensures forall reason :: reason in OwnReasons(i, ceiling) <==> OwnComplaint(i, ceiling, reason)
  {
    LabelsAre(i);
    CeilingIs(i, ceiling);
  }

  lemma OtherReasonsAre(u: Unicode, i: Issue, issues: seq<Issue>, active: ActiveState)
    ensures forall reason :: reason in OtherReasons(u, i, issues, active) <==>
      OtherComplaint(u, i, issues, active, reason)
  {
    LabelsAre(i);
    WaitingIs(i, issues);
  }

  /** The reasons of an issue are exactly its complaints. */
  lemma ReasonsAreComplaints(u: Unicode, i: Issue, issues: seq<Issue>, active: ActiveState, ceiling: string)
    requires ceiling in TIERS
    ensures forall reason :: reason in Reasons(u, i, issues, active, ceiling) <==>
      Complaint(u, i, issues, active, ceiling, reason)
  {
    OwnReasonsAre(i, ceiling);
    OtherReasonsAre(u, i, issues, active);
  }

  // ---- preference -------------------------------------------------------

  predicate VerifiedBlocker(i: Issue) {
    i.evidence.valid && i.evidence.verified && i.evidence.severity == "blocker"
  }

  predicate VerifiedP1(i: Issue) {
    i.evidence.valid && i.evidence.verified && SoleLabel(i.priorityLabels, "priority:p1")
  }

  /** Top priority first, then verified blockers, then verified second priorities, then the rest. */
  function Class(i: Issue): nat {
    if SoleLabel(i.priorityLabels, "priority:p0") then 0
    else if VerifiedBlocker(i) then 1
    else if VerifiedP1(i) then 2
    else 3
  }

  /** Earlier class; in one class the smaller priority; with one priority the smaller number. */
  predicate Preferred(i: Issue, a: nat, j: Issue, b: nat) {
    Class(i) < Class(j) || (Class(i) == Class(j) && (a < b || (a == b && i.number < j.number)))
  }

  /** The selection repeats the issue's own number, labels and scopes. */
  predicate Describes(s: Selected, i: Issue) {
    && s.number == i.number && s.scopes == i.allowedScopes
    && SoleLabel(i.priorityLabels, s.priority) && SoleLabel(i.lanes, s.lane)
    && exists k :: 0 <= k < 3 && HasTier(i, k) && s.tier == TIERS[k]
  }

  lemma PriorityRank(k: nat)
    requires k < 4
    ensures Rank(PRIORITIES, PRIORITIES[k]) == k
  {
    assert |PRIORITIES[k]| == 11 && PRIORITIES[k][10] == (48 + k) as char;
    assert forall j :: 0 <= j < 4 ==> PRIORITIES[j][10] == (48 + j) as char;
    RankOf(PRIORITIES, k);
  }

  lemma BucketRank(k: nat)
    requires k < 4
    ensures Rank(BUCKETS, BUCKETS[k]) == k
  {
    assert |BUCKETS[0]| == 11 && |BUCKETS[1]| == 16 && |BUCKETS[2]| == 11 && |BUCKETS[3]| == 8;
    assert BUCKETS[0][0] == 'p' && BUCKETS[2][0] == 'v';
    RankOf(BUCKETS, k);
  }

  lemma CandidateIs(i: Issue)
    requires Candidate(i).Some?
    ensures Describes(Candidate(i).value, i)
    ensures exists a :: 0 <= a < 4 && SoleLabel(i.priorityLabels, PRIORITIES[a])
    ensures forall a :: 0 <= a < 4 && SoleLabel(i.priorityLabels, PRIORITIES[a]) ==>
      SelectionKey(Candidate(i).value) == [Class(i), a, i.number]
  {
    LabelsAre(i);
    TierKnown(i);
    var k :| 0 <= k < 3 && Tier(i).value == TIERS[k];
    TierIs(i, k, "autonomy:");
    forall a | 0 <= a < 4 && SoleLabel(i.priorityLabels, PRIORITIES[a])
      ensures SelectionKey(Candidate(i).value) == [Class(i), a, i.number]
    {
      PriorityRank(a);
      PriorityRank(0);
      PriorityRank(1);
      BucketRank(Class(i));
    }
  }

  lemma KeysCompare(a: nat, b: nat, c: int, d: nat, e: nat, f: int)
    ensures LexLess([a, b, c], [d, e, f]) <==> a < d || (a == d && (b < e || (b == e && c < f)))
  {
    var x: seq<int>, y: seq<int> := [a, b, c], [d, e, f];
    assert x[1..] == [b, c] && y[1..] == [e, f] && x[1..][1..] == [c] && y[1..][1..] == [f];
    assert LexLess([c], [f]) <==> c < f;
    assert LexLess(x[1..], y[1..]) <==> b < e || (b == e && c < f);
  }

  /** No eligible issue is preferred to the selected one, which is described by its own labels. */
  lemma SelectedIsPreferred(u: Unicode, issues: seq<Issue>, active: ActiveState, ceiling: string, best: Selected,
                            j: Issue, b: nat)
    requires BestOf(u, issues, active, ceiling, Some(best))
    requires j in issues && Eligible(u, j, issues, active, ceiling)
    requires b < 4 && SoleLabel(j.priorityLabels, PRIORITIES[b])
    ensures exists i, a ::
      && i in issues && Eligible(u, i, issues, active, ceiling) && Describes(best, i)
      && 0 <= a < 4 && SoleLabel(i.priorityLabels, PRIORITIES[a]) && !Preferred(j, b, i, a)
  {
    var i :| i in issues && Eligible(u, i, issues, active, ceiling) && Candidate(i) == Some(best);
    CandidateIs(i);
    CandidateIs(j);
    var a :| 0 <= a < 4 && SoleLabel(i.priorityLabels, PRIORITIES[a]);
    KeysCompare(Class(j), b, j.number, Class(i), a, i.number);
    assert !Preferred(j, b, i, a);
  }

  // ---- freshness --------------------------------------------------------

  /** The snapshot is complete and was valid at that instant, and every time has a zone. */
  lemma FreshExactlyWhen(s: Snapshot, asOf: Time)
    ensures FreshnessError(s, asOf).None? <==>
      && asOf.Aware? && s.fetchedAt.Aware? && s.expiresAt.Aware? && s.complete
      && s.fetchedAt.micros <= asOf.micros < s.expiresAt.micros
  {
  }
}
