/** Choosing the next issue: who is eligible, in what order, and beside whom. */
module IssueSelection {
  import opened Wrappers
  import opened Text
  import opened IssueScopes

  datatype Evidence = Evidence(valid: bool, verified: bool, severity: string, warning: Option<string>)

  datatype Issue = Issue(
    number: int, state: string, milestonePresent: bool, assigneeCount: nat, sections: set<string>,
    lanes: seq<string>, autonomyLabels: seq<string>, priorityLabels: seq<string>, statusLabels: seq<string>,
    typeLabels: seq<string>, dependencies: seq<int>, allowedScopes: seq<string>, evidence: Evidence)

  datatype Time = Naive | Aware(micros: int)

  datatype Snapshot = Snapshot(fetchedAt: Time, expiresAt: Time, complete: bool)

  datatype ActiveState = ActiveState(complete: bool, owned: set<int>, occupied: seq<string>)

  datatype Selected = Selected(
    number: int, priority: string, tier: string, lane: string, bucket: string, scopes: seq<string>)

  datatype Selection =
    | Blocked(error: string)
    | Decided(selected: Option<Selected>, rejections: seq<(int, string)>, warnings: seq<(int, string)>)

  const REQUIRED_SECTIONS: set<string> :=
    {"outcome", "scope", "non-goals", "acceptance criteria", "verification", "autonomy"}

  const TYPE_LABELS: set<string> :=
    {"type:architecture", "type:bug", "type:docs", "type:feature", "type:regression", "type:security", "type:tests"}

  const PRIORITIES: seq<string> := ["priority:p0", "priority:p1", "priority:p2", "priority:p3"]

  const TIERS: seq<string> := ["tier-a", "tier-b", "tier-c"]

  const LANES: seq<string> :=
    ["tiny-docs", "docs-guardrail", "tests-only", "normal-code", "security-runtime", "release-ci-architecture"]

  const BUCKETS: seq<string> := ["priority-p0", "verified-blocker", "verified-p1", "ordinary"]

  const REASONS: seq<string> :=
    ["issue-not-open", "missing-milestone", "invalid-type-label", "invalid-priority-label", "invalid-status-label",
     "invalid-autonomy-label", "autonomy-ceiling-exceeded", "missing-required-section", "invalid-dependencies",
     "invalid-verification-lane", "assignee-owned", "active-ownership", "ambiguous-file-scope",
     "overlapping-file-scope", "unresolved-dependency"]

  /** The position of the first occurrence, or the length when there is none. */
  function Rank(order: seq<string>, value: string): (r: nat)
    ensures r <= |order| && (r < |order| ==> order[r] == value) && (value in order ==> r < |order|)
  {
    if order == [] || order[0] == value then 0 else 1 + Rank(order[1..], value)
  }

  // ---- reading an issue -------------------------------------------------

  function Only(labels: seq<string>, known: seq<string>): Option<string> {
    if |labels| == 1 && labels[0] in known then Some(labels[0]) else None
  }

  function Priority(i: Issue): Option<string> {
    Only(i.priorityLabels, PRIORITIES)
  }

  function Lane(i: Issue): Option<string> {
    Only(i.lanes, LANES)
  }

  function RemovePrefix(s: string, prefix: string): string {
    if StartsWith(s, prefix) then s[|prefix|..] else s
  }

  function Tier(i: Issue): Option<string> {
    if |i.autonomyLabels| != 1 then None else Only([RemovePrefix(i.autonomyLabels[0], "autonomy:")], TIERS)
  }

  function Bucket(i: Issue, priority: string): string {
    if priority == "priority:p0" then "priority-p0"
    else if i.evidence.valid && i.evidence.verified && i.evidence.severity == "blocker" then "verified-blocker"
    else if i.evidence.valid && i.evidence.verified && priority == "priority:p1" then "verified-p1"
    else "ordinary"
  }

  /** A number listed twice keeps the state listed last. */
  function StateOf(issues: seq<Issue>, number: int): Option<string> {
    if issues == [] then None
    else if issues[|issues| - 1].number == number then Some(issues[|issues| - 1].state)
    else StateOf(issues[..|issues| - 1], number)
  }

  // ---- eligibility ------------------------------------------------------

  function When(condition: bool, reason: string): seq<string> {
    if condition then [reason] else []
  }

  /** What is wrong with the issue itself. */
  function OwnReasons(i: Issue, ceiling: string): seq<string> {
    var tier := Tier(i);
    When(i.state != "OPEN", REASONS[0])
    + When(!i.milestonePresent, REASONS[1])
    + When(|i.typeLabels| != 1 || i.typeLabels[0] !in TYPE_LABELS, REASONS[2])
    + When(Priority(i).None?, REASONS[3])
    + When(i.statusLabels != ["status:ready"], REASONS[4])
    + When(tier.None?, REASONS[5])
    + When(tier.Some? && Rank(TIERS, tier.value) > Rank(TIERS, ceiling), REASONS[6])
    + When(!(REQUIRED_SECTIONS <= i.sections), REASONS[7])
  }

  /** What it still needs, and what is in its way. */
  function OtherReasons(u: Unicode, i: Issue, issues: seq<Issue>, active: ActiveState): seq<string> {
    When("dependencies-invalid" in i.sections, REASONS[8])
    + When(Lane(i).None?, REASONS[9])
    + When(i.assigneeCount > 0, REASONS[10])
    + When(i.number in active.owned, REASONS[11])
    + When(i.allowedScopes == [], REASONS[12])
    + When(exists s, o :: s in i.allowedScopes && o in active.occupied && ScopesOverlap(u, s, o), REASONS[13])
    + When(exists d :: d in i.dependencies && StateOf(issues, d) != Some("CLOSED"), REASONS[14])
  }

  function Reasons(u: Unicode, i: Issue, issues: seq<Issue>, active: ActiveState, ceiling: string): seq<string> {
    OwnReasons(i, ceiling) + OtherReasons(u, i, issues, active)
  }

  /** Open, ready, planned, within the ceiling, free of owners, dependencies and occupied files. */
  predicate Eligible(u: Unicode, i: Issue, issues: seq<Issue>, active: ActiveState, ceiling: string) {
    && i.state == "OPEN" && i.milestonePresent && i.statusLabels == ["status:ready"]
    && |i.typeLabels| == 1 && i.typeLabels[0] in TYPE_LABELS
    && Priority(i).Some? && Lane(i).Some?
    && Tier(i).Some? && Rank(TIERS, Tier(i).value) <= Rank(TIERS, ceiling)
    && REQUIRED_SECTIONS <= i.sections && "dependencies-invalid" !in i.sections
    && i.assigneeCount == 0 && i.number !in active.owned
    && i.allowedScopes != []
    && (forall s, o :: s in i.allowedScopes && o in active.occupied ==> !ScopesOverlap(u, s, o))
    && (forall d :: d in i.dependencies ==> StateOf(issues, d) == Some("CLOSED"))
  }

  lemma EligibleExactlyWhen(u: Unicode, i: Issue, issues: seq<Issue>, active: ActiveState, ceiling: string)
    ensures Reasons(u, i, issues, active, ceiling) == [] <==> Eligible(u, i, issues, active, ceiling)
  {
  }

  function Candidate(i: Issue): Option<Selected> {
    if Priority(i).None? || Tier(i).None? || Lane(i).None? then None
    else
      Some(Selected(i.number, Priority(i).value, Tier(i).value, Lane(i).value,
                    Bucket(i, Priority(i).value), i.allowedScopes))
  }

  function SelectionKey(s: Selected): seq<int> {
    [Rank(BUCKETS, s.bucket), Rank(PRIORITIES, s.priority), s.number]
  }

  function FreshnessError(s: Snapshot, asOf: Time): Option<string> {
    if asOf.Naive? then Some("as-of-naive")
    else if s.fetchedAt.Naive? || s.expiresAt.Naive? then Some("snapshot-time-naive")
    else if !s.complete then Some("snapshot-incomplete")
    else if s.expiresAt.micros <= s.fetchedAt.micros then Some("snapshot-window-invalid")
    else if asOf.micros < s.fetchedAt.micros then Some("snapshot-clock-rollback")
    else if asOf.micros >= s.expiresAt.micros then Some("snapshot-stale")
    else None
  }

  // ---- sorting by a key -------------------------------------------------

  predicate LexLess(a: seq<int>, b: seq<int>) {
    if b == [] then false
    else if a == [] then true
    else if a[0] != b[0] then a[0] < b[0]
    else LexLess(a[1..], b[1..])
  }

  lemma {:induction false} LexTransitive(a: seq<int>, b: seq<int>, c: seq<int>)
    requires !LexLess(b, a) && !LexLess(c, b)
    ensures !LexLess(c, a)
  {
    if a != [] && b != [] && c != [] && a[0] == b[0] && b[0] == c[0] {
      LexTransitive(a[1..], b[1..], c[1..]);
    }
  }

  lemma {:induction false} LexAsymmetric(a: seq<int>, b: seq<int>)
    requires LexLess(a, b)
    ensures !LexLess(b, a)
  {
    if a != [] && a[0] == b[0] {
      LexAsymmetric(a[1..], b[1..]);
    }
  }

  ghost predicate OrderedBy<T>(s: seq<T>, key: T -> seq<int>) {
    forall i, j :: 0 <= i < j < |s| ==> !LexLess(key(s[j]), key(s[i]))
  }

  /** Insert behind every element whose key is not greater. */
  function InsertBy<T>(s: seq<T>, x: T, key: T -> seq<int>): seq<T> {
    if s != [] && LexLess(key(x), key(s[|s| - 1])) then InsertBy(s[..|s| - 1], x, key) + [s[|s| - 1]]
    else s + [x]
  }

  /** A stable sort. */
  function SortBy<T>(s: seq<T>, key: T -> seq<int>): seq<T> {
    if s == [] then [] else InsertBy(SortBy(s[..|s| - 1], key), s[|s| - 1], key)
  }

  lemma {:induction false} InsertByKeeps<T>(s: seq<T>, x: T, key: T -> seq<int>)
    ensures multiset(InsertBy(s, x, key)) == multiset(s) + multiset{x}
    ensures forall y :: y in InsertBy(s, x, key) ==> y == x || y in s
  {
    if s != [] && LexLess(key(x), key(s[|s| - 1])) {
      var n := |s| - 1;
      InsertByKeeps(s[..n], x, key);
      assert s == s[..n] + [s[n]];
    }
  }

  lemma {:induction false} InsertByOrders<T>(s: seq<T>, x: T, key: T -> seq<int>)
    requires OrderedBy(s, key)
    ensures OrderedBy(InsertBy(s, x, key), key)
  {
    if s != [] {
      var n := |s| - 1;
      if LexLess(key(x), key(s[n])) {
        var front := InsertBy(s[..n], x, key);
        InsertByOrders(s[..n], x, key);
        InsertByKeeps(s[..n], x, key);
        LexAsymmetric(key(x), key(s[n]));
        forall i | 0 <= i < |front| ensures !LexLess(key(s[n]), key(front[i])) {
          assert front[i] in front;
        }
      } else {
        forall i | 0 <= i < n ensures !LexLess(key(x), key(s[i])) {
          LexTransitive(key(s[i]), key(s[n]), key(x));
        }
      }
    }
  }

  lemma {:induction false} SortByOrders<T>(s: seq<T>, key: T -> seq<int>)
    ensures OrderedBy(SortBy(s, key), key) && multiset(SortBy(s, key)) == multiset(s)
  {
    if s != [] {
      var n := |s| - 1;
      SortByOrders(s[..n], key);
      InsertByOrders(SortBy(s[..n], key), s[n], key);
      InsertByKeeps(SortBy(s[..n], key), s[n], key);
      assert s == s[..n] + [s[n]];
    }
  }

  // ---- selection --------------------------------------------------------

  function NumberKey(i: Issue): seq<int> {
    [i.number]
  }

  function RejectionKey(r: (int, string)): seq<int> {
    [r.0, Rank(REASONS, r.1)]
  }

  function Rejected(number: int, reasons: seq<string>): seq<(int, string)> {
    seq(|reasons|, k requires 0 <= k < |reasons| => (number, reasons[k]))
  }

  /** The winner is eligible, and no eligible issue has a smaller bucket, priority and number. */
  ghost predicate BestOf(u: Unicode, issues: seq<Issue>, active: ActiveState, ceiling: string,
                         selected: Option<Selected>)
  {
    match selected
    case None => forall i :: i in issues ==> !Eligible(u, i, issues, active, ceiling)
    case Some(best) =>
      && (exists i :: i in issues && Eligible(u, i, issues, active, ceiling) && Candidate(i) == Some(best))
      && forall j :: j in issues && Eligible(u, j, issues, active, ceiling) ==>
           Candidate(j).Some? && !LexLess(SelectionKey(Candidate(j).value), SelectionKey(best))
  }

  /** Every reason of every issue is reported, and nothing else, by number and then rank. */
  ghost predicate FullReport(issues: seq<Issue>, reasons: Issue -> seq<string>, rejections: seq<(int, string)>) {
    && OrderedBy(rejections, RejectionKey)
    && (forall r :: r in rejections ==> exists i :: i in issues && i.number == r.0 && r.1 in reasons(i))
    && (forall i, reason :: i in issues && reason in reasons(i) ==> (i.number, reason) in rejections)
  }

  function WarningKey(w: (int, string)): seq<int> {
    [w.0]
  }

  /** Every issue's warning is reported, and nothing else, by issue number. */
  ghost predicate WarningReport(issues: seq<Issue>, warnings: seq<(int, string)>) {
    && OrderedBy(warnings, WarningKey)
    && (forall w :: w in warnings ==> exists i :: i in issues && i.number == w.0 && i.evidence.warning == Some(w.1))
    && (forall i :: i in issues && i.evidence.warning.Some? ==> (i.number, i.evidence.warning.value) in warnings)
  }

  function Warned(i: Issue): seq<(int, string)> {
    if i.evidence.warning.Some? then [(i.number, i.evidence.warning.value)] else []
  }

  lemma WarnNext(ordered: seq<Issue>, k: nat, warnings: seq<(int, string)>)
    requires k < |ordered| && OrderedBy(ordered, NumberKey) && WarningReport(ordered[..k], warnings)
    ensures WarningReport(ordered[..k + 1], warnings + Warned(ordered[k]))
  {
    var seen, i := ordered[..k], ordered[k];
    assert ordered[..k + 1] == seen + [i];
    forall j | 0 <= j < |warnings| ensures warnings[j].0 <= i.number {
      assert warnings[j] in warnings;
      var x :| x in seen && x.number == warnings[j].0;
      var m :| 0 <= m < k && ordered[m] == x;
      assert !LexLess(NumberKey(i), NumberKey(x));
    }
    forall w | w in warnings + Warned(i)
      ensures exists x :: x in seen + [i] && x.number == w.0 && x.evidence.warning == Some(w.1)
    {
      if w in warnings {
        var x :| x in seen && x.number == w.0 && x.evidence.warning == Some(w.1);
        assert x in seen + [i];
      } else {
        assert i in seen + [i];
      }
    }
  }

  lemma SameWarnings(seen: seq<Issue>, issues: seq<Issue>, warnings: seq<(int, string)>)
    requires WarningReport(seen, warnings) && multiset(seen) == multiset(issues)
    ensures WarningReport(issues, warnings)
  {
    SameMembers(seen, issues);
  }

  /** Why a selection is refused before any issue is read, first reason first. */
  function BlockingError(snapshot: Snapshot, active: ActiveState, asOf: Time, ceiling: string): Option<string> {
    if FreshnessError(snapshot, asOf).Some? then FreshnessError(snapshot, asOf)
    else if !active.complete then Some("active-state-incomplete")
    else if ceiling !in TIERS then Some("autonomy-ceiling-invalid")
    else None
  }

  /** What the loop has collected from the issues in `seen`. */
  ghost predicate Collected(seen: seq<Issue>, reasons: Issue -> seq<string>, pick: Issue -> Option<Selected>,
                            candidates: seq<Selected>, rejections: seq<(int, string)>)
  {
    && (forall c :: c in candidates ==> exists i :: i in seen && reasons(i) == [] && pick(i) == Some(c))
    && (forall i :: i in seen && reasons(i) == [] && pick(i).Some? ==> pick(i).value in candidates)
    && (forall r :: r in rejections ==> exists i :: i in seen && i.number == r.0 && r.1 in reasons(i))
    && (forall i, reason :: i in seen && reason in reasons(i) ==> (i.number, reason) in rejections)
  }

  lemma CollectOne(seen: seq<Issue>, i: Issue, reasons: Issue -> seq<string>, pick: Issue -> Option<Selected>,
                   candidates: seq<Selected>, rejections: seq<(int, string)>)
    requires Collected(seen, reasons, pick, candidates, rejections)
    ensures Collected(seen + [i], reasons, pick,
                      if reasons(i) == [] && pick(i).Some? then candidates + [pick(i).value] else candidates,
                      rejections + Rejected(i.number, reasons(i)))
  {
    var more := rejections + Rejected(i.number, reasons(i));
    forall k | 0 <= k < |reasons(i)| ensures (i.number, reasons(i)[k]) in more {
      assert more[|rejections| + k] == (i.number, reasons(i)[k]);
    }
    forall r | r in more ensures exists j :: j in seen + [i] && j.number == r.0 && r.1 in reasons(j) {
      if r in rejections {
        var j :| j in seen && j.number == r.0 && r.1 in reasons(j);
        assert j in seen + [i];
      } else {
        assert i in seen + [i];
      }
    }
  }

  lemma CollectNext(ordered: seq<Issue>, k: nat, reasons: Issue -> seq<string>, pick: Issue -> Option<Selected>,
                    candidates: seq<Selected>, rejections: seq<(int, string)>)
    requires k < |ordered| && Collected(ordered[..k], reasons, pick, candidates, rejections)
    ensures var i := ordered[k];
      Collected(ordered[..k + 1], reasons, pick,
                if reasons(i) == [] && pick(i).Some? then candidates + [pick(i).value] else candidates,
                rejections + Rejected(i.number, reasons(i)))
  {
    CollectOne(ordered[..k], ordered[k], reasons, pick, candidates, rejections);
    assert ordered[..k + 1] == ordered[..k] + [ordered[k]];
  }

  lemma SameMembers<T>(a: seq<T>, b: seq<T>)
    requires multiset(a) == multiset(b)
    ensures forall x :: x in a <==> x in b
  {
    forall x ensures x in a <==> x in b {
      assert x in multiset(a) <==> x in multiset(b);
    }
  }

  lemma SortKeepsCollected(seen: seq<Issue>, issues: seq<Issue>, reasons: Issue -> seq<string>,
                           pick: Issue -> Option<Selected>,
                           candidates: seq<Selected>, rejections: seq<(int, string)>)
    requires Collected(seen, reasons, pick, candidates, rejections) && multiset(seen) == multiset(issues)
    ensures Collected(issues, reasons, pick, SortBy(candidates, SelectionKey), SortBy(rejections, RejectionKey))
  {
    SortByOrders(candidates, SelectionKey);
    SortByOrders(rejections, RejectionKey);
    SameMembers(seen, issues);
    SameMembers(candidates, SortBy(candidates, SelectionKey));
    SameMembers(rejections, SortBy(rejections, RejectionKey));
  }

  /** The first of the sorted candidates is no greater than any other. */
  lemma FirstIsLeast(candidates: seq<Selected>, c: Selected)
    requires OrderedBy(candidates, SelectionKey) && c in candidates
    ensures !LexLess(SelectionKey(c), SelectionKey(candidates[0]))
  {
    var k :| 0 <= k < |candidates| && candidates[k] == c;
    if k == 0 && LexLess(SelectionKey(c), SelectionKey(candidates[0])) {
      LexAsymmetric(SelectionKey(c), SelectionKey(candidates[0]));
    }
  }

  lemma EligibleHasCandidate(u: Unicode, i: Issue, issues: seq<Issue>, active: ActiveState, ceiling: string)
    ensures Eligible(u, i, issues, active, ceiling) ==> Candidate(i).Some?
  {
  }

  lemma Decides(u: Unicode, issues: seq<Issue>, active: ActiveState, ceiling: string, reasons: Issue -> seq<string>,
                candidates: seq<Selected>, rejections: seq<(int, string)>)
    requires Collected(issues, reasons, Candidate, candidates, rejections) && OrderedBy(candidates, SelectionKey)
    requires forall i :: reasons(i) == [] <==> Eligible(u, i, issues, active, ceiling)
    ensures BestOf(u, issues, active, ceiling, if candidates == [] then None else Some(candidates[0]))
  {
    forall i | i in issues && Eligible(u, i, issues, active, ceiling)
      ensures Candidate(i).Some? && Candidate(i).value in candidates
    {
      EligibleHasCandidate(u, i, issues, active, ceiling);
      assert reasons(i) == [];
    }
    if candidates != [] {
      assert candidates[0] in candidates;
      forall j | j in issues && Eligible(u, j, issues, active, ceiling)
        ensures !LexLess(SelectionKey(Candidate(j).value), SelectionKey(candidates[0]))
      {
        FirstIsLeast(candidates, Candidate(j).value);
      }
    }
  }

  method SelectIssue(u: Unicode, issues: seq<Issue>, snapshot: Snapshot, active: ActiveState, asOf: Time,
                     ceiling: string) returns (r: Selection)
    ensures r.Blocked? <==> BlockingError(snapshot, active, asOf, ceiling).Some?
    ensures r.Blocked? ==> Some(r.error) == BlockingError(snapshot, active, asOf, ceiling)
    ensures r.Decided? ==> BestOf(u, issues, active, ceiling, r.selected)
    ensures r.Decided? ==> FullReport(issues, i => Reasons(u, i, issues, active, ceiling), r.rejections)
    ensures r.Decided? ==> WarningReport(issues, r.warnings)
  {
    var stale := FreshnessError(snapshot, asOf);
    if stale.Some? {
      return Blocked(stale.value);
    }
    if !active.complete {
      return Blocked("active-state-incomplete");
    }
    if ceiling !in TIERS {
      return Blocked("autonomy-ceiling-invalid");
    }
    var reasonsOf := i => Reasons(u, i, issues, active, ceiling);
    forall i ensures reasonsOf(i) == [] <==> Eligible(u, i, issues, active, ceiling) {
      EligibleExactlyWhen(u, i, issues, active, ceiling);
    }
    var candidates, rejections, warnings := Assess(issues, reasonsOf, Candidate);
    Decides(u, issues, active, ceiling, reasonsOf, candidates, rejections);
    return Decided(if candidates == [] then None else Some(candidates[0]), rejections, warnings);
  }

  /** Every issue in number order: a candidate, or its reasons; then both lists sorted. */
  method Assess(issues: seq<Issue>, reasonsOf: Issue -> seq<string>, pick: Issue -> Option<Selected>)
    returns (candidates: seq<Selected>, rejections: seq<(int, string)>, warnings: seq<(int, string)>)
    ensures Collected(issues, reasonsOf, pick, candidates, rejections)
    ensures OrderedBy(candidates, SelectionKey) && FullReport(issues, reasonsOf, rejections)
    ensures WarningReport(issues, warnings)
  {
    var ordered := SortBy(issues, NumberKey);
    SortByOrders(issues, NumberKey);
    candidates, rejections, warnings := [], [], [];
    var k := 0;
    while k < |ordered|
      invariant 0 <= k <= |ordered|
      invariant Collected(ordered[..k], reasonsOf, pick, candidates, rejections)
      invariant WarningReport(ordered[..k], warnings)
    {
      var issue := ordered[k];
      var reasons := reasonsOf(issue);
      CollectNext(ordered, k, reasonsOf, pick, candidates, rejections);
      rejections := rejections + Rejected(issue.number, reasons);
      WarnNext(ordered, k, warnings);
      if issue.evidence.warning.Some? {
        warnings := warnings + [(issue.number, issue.evidence.warning.value)];
      }
      var selected := pick(issue);
      if reasons == [] && selected.Some? {
        candidates := candidates + [selected.value];
      }
      k := k + 1;
    }
    assert ordered[..k] == ordered;
    SameWarnings(ordered, issues, warnings);
    SortKeepsCollected(ordered, issues, reasonsOf, pick, candidates, rejections);
    SortByOrders(candidates, SelectionKey);
    SortByOrders(rejections, RejectionKey);
    candidates := SortBy(candidates, SelectionKey);
    rejections := SortBy(rejections, RejectionKey);
  }

  /** A selected issue shares no writable path with any occupied scope. */
  lemma SelectionIsApart(u: Unicode, issues: seq<Issue>, active: ActiveState, ceiling: string, best: Selected,
                         path: string)
    requires KeepsMarks(u) && BestOf(u, issues, active, ceiling, Some(best))
    requires forall s :: s in best.scopes + active.occupied ==> Canonical(u, s)
    ensures !(InAllowedScope(path, best.scopes) && InAllowedScope(path, active.occupied))
  {
    CanonicalScopesAreSound(u, best.scopes, active.occupied, path);
  }
}
