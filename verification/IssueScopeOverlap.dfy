/** Which scopes the selector takes as they are, and exactly which of them overlap. */
module IssueScopeOverlap {
  import opened Wrappers
  import opened Text
  import opened IssueScopes
  import opened IssueScopeSpelling

  // ---- overlap ----------------------------------------------------------

  /** No character folds to nothing. */
  ghost predicate FoldsVisibly(u: Unicode) {
    forall c :: u.fold(c) != ""
  }

  /** `path` is what `scope` names or lies in it, whatever the case. */
  predicate Under(u: Unicode, path: string, scope: string) {
    Fold(u, path) == Fold(u, scope) || StartsWith(Fold(u, path), Fold(u, scope) + "/")
  }

  ghost predicate SharedPlace(u: Unicode, l: string, r: string) {
    exists path :: Under(u, path, l) && Under(u, path, r)
  }

  /** Position `m` is that of the first star of `t`, or its end, and only slashes separate `f` from it. */
  predicate FrontUpTo(f: string, t: string, m: nat) {
    && |f| <= m <= |t| && (m < |t| ==> t[m] == '*') && (forall i :: 0 <= i < m ==> t[i] != '*')
    && forall i :: |f| <= i < m ==> t[i] == '/'
  }

  /** `f` is what comes before the first star of `t`, if there is one, without slashes at its end. */
  predicate IsFront(f: string, t: string) {
    f <= t && (f != "" ==> f[|f| - 1] != '/') && exists m :: 0 <= m <= |t| && FrontUpTo(f, t, m)
  }

  predicate BeginsWithBoth(text: string, f: string, g: string) {
    f <= text && g <= text
  }

  ghost predicate CommonFront(u: Unicode, l: string, r: string) {
    exists f, g, text :: IsFront(f, Fold(u, l)) && IsFront(g, Fold(u, r)) && BeginsWithBoth(text, f, g)
  }

  lemma {:induction false} BeforeStarStops(s: string)
    ensures var b := BeforeStar(s); '*' !in b && (|b| < |s| ==> s[|b|] == '*')
  {
    if s != "" && s[0] != '*' {
      BeforeStarStops(s[1..]);
    }
  }

  lemma FrontIs(s: string)
    ensures IsFront(WithoutSlashes(BeforeStar(s)), s)
  {
    var b := BeforeStar(s);
    BeforeStarStops(s);
    assert s[..|b|] == b;
    assert forall i :: 0 <= i < |b| ==> s[i] == b[i];
    assert forall i :: |WithoutSlashes(b)| <= i < |b| ==> Slash(b[i]);
    assert FrontUpTo(WithoutSlashes(b), s, |b|);
  }

  lemma OneFront(s: string, f: string, g: string)
    requires IsFront(f, s) && IsFront(g, s)
    ensures |f| <= |g|
  {
    var m :| 0 <= m <= |s| && FrontUpTo(f, s, m);
    var n :| 0 <= n <= |s| && FrontUpTo(g, s, n);
    assert m == n;
    assert f != "" ==> f[|f| - 1] == s[|f| - 1];
  }

  lemma SameFront(s: string, f: string, g: string)
    requires IsFront(f, s) && IsFront(g, s)
    ensures f == g
  {
    OneFront(s, f, g);
    OneFront(s, g, f);
  }

  lemma {:induction false} FoldKeepsEnd(u: Unicode, s: string)
    requires KeepsMarks(u) && FoldsVisibly(u) && s != "" && s[|s| - 1] != '/'
    ensures Fold(u, s) != "" && Fold(u, s)[|Fold(u, s)| - 1] != '/'
  {
    var last := s[|s| - 1];
    assert s == s[..|s| - 1] + [last];
    FoldAppend(u, s[..|s| - 1], [last]);
    assert Fold(u, [last]) == u.fold(last) + Fold(u, "") == u.fold(last);
    assert u.fold(last)[|u.fold(last)| - 1] in u.fold(last);
  }

  lemma Nested(a: string, b: string, whole: string)
    requires a + "/" <= whole && b + "/" <= whole
    ensures a == b || a + "/" <= b || b + "/" <= a
  {
    if |a| == |b| {
      assert a == whole[..|a|] == b;
    } else if |a| < |b| {
      assert b == whole[..|b|];
      assert (a + "/") == whole[..|a| + 1];
    } else {
      assert a == whole[..|a|];
      assert (b + "/") == whole[..|b| + 1];
    }
  }

  /** Two normal forms without stars overlap exactly when they share a place. */
  lemma StarFreeOverlap(u: Unicode, left: string, right: string, l: string, r: string)
    requires KeepsMarks(u) && FoldsVisibly(u) && NormalizeScope(u, left) == Some(l) && NormalizeScope(u, right) == Some(r)
    requires '*' !in l && '*' !in r && l != "" && r != "" && l[|l| - 1] != '/' && r[|r| - 1] != '/'
    ensures ScopesOverlap(u, left, right) <==> SharedPlace(u, l, r)
  {
    var a, b := Fold(u, l), Fold(u, r);
    FoldBeforeStar(u, l);
    FoldBeforeStar(u, r);
    FoldKeepsEnd(u, l);
    FoldKeepsEnd(u, r);
    assert WithoutSlashes(BeforeStar(a)) == a && WithoutSlashes(BeforeStar(b)) == b;
    if a == b || StartsWith(a, b + "/") {
      assert Under(u, l, l) && Under(u, l, r);
    } else if StartsWith(b, a + "/") {
      assert Under(u, r, l) && Under(u, r, r);
    }
    if path :| Under(u, path, l) && Under(u, path, r) {
      var p := Fold(u, path);
      if a + "/" <= p && b + "/" <= p {
        Nested(a, b, p);
      }
    }
  }

  /** With a star in either they overlap exactly when some text begins with both fronts. */
  lemma StarOverlap(u: Unicode, left: string, right: string, l: string, r: string)
    requires KeepsMarks(u) && NormalizeScope(u, left) == Some(l) && NormalizeScope(u, right) == Some(r)
    requires '*' in l || '*' in r
    ensures ScopesOverlap(u, left, right) <==> CommonFront(u, l, r)
  {
    FoldBeforeStar(u, l);
    FoldBeforeStar(u, r);
    FrontsMeet(u, l, r);
  }

  lemma FrontsMeet(u: Unicode, l: string, r: string)
    ensures var x, y := WithoutSlashes(BeforeStar(Fold(u, l))), WithoutSlashes(BeforeStar(Fold(u, r)));
      CommonFront(u, l, r) <==> StartsWith(x, y) || StartsWith(y, x)
  {
    var a, b := Fold(u, l), Fold(u, r);
    var x, y := WithoutSlashes(BeforeStar(a)), WithoutSlashes(BeforeStar(b));
    FrontIs(a);
    FrontIs(b);
    if StartsWith(x, y) {
      assert BeginsWithBoth(x, x, y);
    } else if StartsWith(y, x) {
      assert BeginsWithBoth(y, x, y);
    }
    if CommonFront(u, l, r) {
      var f, g, text :| IsFront(f, a) && IsFront(g, b) && BeginsWithBoth(text, f, g);
      SameFront(a, f, x);
      SameFront(b, g, y);
    }
  }

  lemma {:induction false} JoinEnds(parts: seq<string>)
    requires parts != [] && forall i :: 0 <= i < |parts| ==> parts[i] != "" && '/' !in parts[i]
    ensures var s := Join(parts, '/'); s != "" && s[|s| - 1] != '/'
  {
    assert parts[0] != "" && '/' !in parts[0];
    if |parts| > 1 {
      JoinEnds(parts[1..]);
    } else {
      assert parts[0][|parts[0]| - 1] in parts[0];
    }
  }

  lemma {:induction false} KeptAreNamed(parts: seq<string>)
    requires forall i :: 0 <= i < |parts| ==> '/' !in parts[i]
    ensures forall i :: 0 <= i < |KeptParts(parts)| ==> KeptParts(parts)[i] != "" && '/' !in KeptParts(parts)[i]
  {
    if parts != [] {
      KeptAreNamed(parts[1..]);
    }
  }

  lemma NormalFormEnds(u: Unicode, raw: string)
    requires NormalizeScope(u, raw).Some?
    ensures var l := NormalizeScope(u, raw).value; l != "" && l[|l| - 1] != '/'
  {
    var c := Strip(Strip(raw, u.space), Backtick);
    var parts := Split(Replace(Strip(c, u.space), '\\', '/'), '/');
    KeptAreNamed(parts);
    JoinEnds(KeptParts(parts));
  }

  /**
   * Scopes without a normal form overlap with everything; two without stars
   * overlap exactly when some place is under both, two of which one has a star
   * exactly when some text begins with both fronts.
   */
  lemma OverlapExactlyWhen(u: Unicode, left: string, right: string)
    requires KeepsMarks(u) && FoldsVisibly(u)
    ensures var l, r := NormalizeScope(u, left), NormalizeScope(u, right);
      ScopesOverlap(u, left, right) <==>
        || l.None? || r.None?
        || (if '*' in l.value || '*' in r.value then CommonFront(u, l.value, r.value)
            else SharedPlace(u, l.value, r.value))
  {
    var l, r := NormalizeScope(u, left), NormalizeScope(u, right);
    if l.Some? && r.Some? {
      if '*' in l.value || '*' in r.value {
        StarOverlap(u, left, right, l.value, r.value);
      } else {
        NormalFormEnds(u, left);
        NormalFormEnds(u, right);
        StarFreeOverlap(u, left, right, l.value, r.value);
      }
    }
  }

  // ---- which scopes are their own normal form ---------------------------

  predicate Drive(s: string) {
    |s| >= 3 && ('A' <= s[0] <= 'Z' || 'a' <= s[0] <= 'z') && s[1] == ':' && s[2] == '/'
  }

  /** A path as one would write it: trimmed, relative, visible, with named components only. */
  predicate ProperPath(u: Unicode, s: string) {
    && s != "" && !u.space(s[0]) && !u.space(s[|s| - 1]) && !Drive(s)
    && (forall i :: 0 <= i < |s| ==> s[i] != '\\' && !u.hidden(s[i]))
    && forall i :: 0 <= i < |Split(s, '/')| ==> Named(Split(s, '/')[i])
  }

  lemma {:induction false} NamedAreKept(parts: seq<string>)
    requires forall i :: 0 <= i < |parts| ==> Named(parts[i])
    ensures KeptParts(parts) == parts
  {
    if parts != [] {
      NamedAreKept(parts[1..]);
      assert Named(parts[0]) && parts == [parts[0]] + parts[1..];
    }
  }

  predicate AllNamed(parts: seq<string>) {
    forall i :: 0 <= i < |parts| ==> Named(parts[i])
  }

  lemma NamedParts(s: string)
    requires s != "" && AllNamed(Split(s, '/'))
    ensures s[0] != '/' && ".." !in Split(s, '/') && KeptParts(Split(s, '/')) != []
    ensures Join(KeptParts(Split(s, '/')), '/') == s
  {
    var parts := Split(s, '/');
    NamedAreKept(parts);
    JoinSplit(s, '/');
    assert Named(parts[0]);
  }

  lemma ProperIsSpelled(u: Unicode, s: string)
    requires ProperPath(u, s)
    ensures RepoSpelled(u, s)
  {
    NamedParts(s);
    StripKeeps(s, u.space);
    assert Replace(s, '\\', '/') == s;
  }

  lemma SpelledIsProper(u: Unicode, s: string)
    requires RepoSpelled(u, s)
    ensures ProperPath(u, s)
  {
    RepoSpelling(u, s);
    assert Replace(s, '\\', '/') == s;
    assert forall i :: 0 <= i < |s| ==> s[i] in s;
  }

  /** The request model admits exactly the proper paths. */
  lemma RepoSpelledExactlyWhen(u: Unicode, s: string)
    ensures RepoSpelled(u, s) <==> ProperPath(u, s)
  {
    if RepoSpelled(u, s) {
      SpelledIsProper(u, s);
    }
    if ProperPath(u, s) {
      ProperIsSpelled(u, s);
    }
  }

  // ---- which stars are allowed ------------------------------------------

  /** No star, one in the last component, or a final `**` component. */
  ghost predicate StarsInPlace(c: string) {
    || '*' !in c
    || (exists a, e :: StarFamilyOf(c, a, e))
    || (exists a :: RecursiveOf(c, a))
  }

  predicate StarFamilyOf(c: string, a: string, e: string) {
    c == a + Stars(false) + e && '*' !in a && '*' !in e && '/' !in e
  }

  predicate RecursiveOf(c: string, a: string) {
    c == a + Stars(true) && '*' !in a && a != "" && a[|a| - 1] == '/'
  }

  lemma {:induction false} LastPieceKeepsStar(a: string, e: string)
    requires '/' !in e
    ensures var p := Split(a + Stars(false) + e, '/'); '*' in p[|p| - 1]
  {
    var c := a + Stars(false) + e;
    if a == "" {
      assert c == Stars(false) + e && c[0] == '*';
      assert '/' !in c;
      Unslashed(c);
    } else {
      assert c[1..] == a[1..] + Stars(false) + e;
      LastPieceKeepsStar(a[1..], e);
    }
  }

  lemma FamilyIsAllowed(c: string, a: string, e: string)
    requires StarFamilyOf(c, a, e)
    ensures StarsAllowed(c)
  {
    CountNone(a, '*');
    CountNone(e, '*');
    CountAppend(a, Stars(false), '*');
    CountAppend(a + Stars(false), e, '*');
    assert Stars(false)[1..] == "";
    LastPieceKeepsStar(a, e);
  }

  lemma RecursiveIsAllowed(c: string, a: string)
    requires RecursiveOf(c, a)
    ensures StarsAllowed(c)
  {
    CountNone(a, '*');
    CountAppend(a, Stars(true), '*');
    assert Stars(true)[1..] == Stars(false) && Stars(false)[1..] == "";
    EndsRecursive(c, a, "/**");
  }

  lemma EndsRecursive(c: string, a: string, end: string)
    requires RecursiveOf(c, a) && |end| == 3 && end[0] == '/' && end[1] == '*' && end[2] == '*'
    ensures EndsWith(c, end)
  {
    assert c[|c| - 3] == a[|a| - 1] && c[|c| - 2] == Stars(true)[0] && c[|c| - 1] == Stars(true)[1];
    assert c[|c| - 3..] == end;
  }

  /** The test by counting stars means what it is for. */
  lemma StarsAllowedExactlyWhen(c: string)
    ensures StarsAllowed(c) <==> StarsInPlace(c)
  {
    if StarsAllowed(c) && '*' in c {
      if Count(c, '*') == 1 {
        var a, two, e := CandidateShape(c);
        CandidateIsFamily(c, a, two, e);
      } else {
        if Count(c, '*') == 0 {
          NoneCounted(c, '*');
        }
        var a := RecursiveStars(c, "/**");
        assert RecursiveOf(c, a);
      }
    }
    if '*' !in c {
      CountNone(c, '*');
    } else if a, e :| StarFamilyOf(c, a, e) {
      FamilyIsAllowed(c, a, e);
    } else if a :| RecursiveOf(c, a) {
      RecursiveIsAllowed(c, a);
    }
  }

  lemma CandidateIsFamily(c: string, a: string, two: bool, e: string)
    requires Count(c, '*') == 1 && c == a + Stars(two) + e && '*' !in a && '*' !in e && '/' !in e
    ensures StarFamilyOf(c, a, e)
  {
    CountNone(a, '*');
    CountNone(e, '*');
    CountAppend(a, Stars(two), '*');
    CountAppend(a + Stars(two), e, '*');
    assert Stars(true)[1..] == Stars(false) && Stars(false)[1..] == "";
  }

  /** A scope is its own normal form exactly when it is a proper path without outer backticks, other marks or misplaced stars. */
  lemma CanonicalExactlyWhen(u: Unicode, s: string)
    ensures Canonical(u, s) <==>
      && ProperPath(u, s) && s[0] != '`' && s[|s| - 1] != '`'
      && (forall i :: 0 <= i < |s| ==> s[i] !in {'?', '[', ']', '{', '}', '!'}) && StarsInPlace(s)
  {
    StarsAllowedExactlyWhen(s);
    RepoSpelledExactlyWhen(u, s);
    if Canonical(u, s) {
      CanonicalIsWhole(u, s);
    } else if ProperPath(u, s) && s[0] != '`' && s[|s| - 1] != '`' {
      StripKeeps(s, u.space);
      StripKeeps(s, Backtick);
    }
  }

  lemma NormalFormShrinks(u: Unicode, c: string)
    requires NormalizeRepoPath(u, c).Some?
    ensures |NormalizeRepoPath(u, c).value| <= |c|
  {
    var candidate := Replace(Strip(c, u.space), '\\', '/');
    StripLength(c, u.space);
    KeptLength(Split(candidate, '/'));
    AllKept(Split(candidate, '/'));
    JoinSplit(candidate, '/');
  }

  /** Nothing was stripped from a scope that is its own normal form. */
  lemma CanonicalIsWhole(u: Unicode, s: string)
    requires Canonical(u, s)
    ensures RepoSpelled(u, s) && s != "" && Strip(s, u.space) == s && Strip(s, Backtick) == s
    ensures s[0] != '`' && s[|s| - 1] != '`'
  {
    var trimmed := Strip(s, u.space);
    var c := Strip(trimmed, Backtick);
    NormalFormShrinks(u, c);
    StripLength(s, u.space);
    StripLength(trimmed, Backtick);
    NormalFormEnds(u, s);
  }

  // ---- quoted scopes ----------------------------------------------------

  predicate AllOf(t: string, drop: char -> bool) {
    forall i :: 0 <= i < |t| ==> drop(t[i])
  }

  lemma {:induction false} StripsFront(a: string, s: string, drop: char -> bool)
    requires AllOf(a, drop) && (s != "" ==> !drop(s[0]))
    ensures StripLeft(a + s, drop) == s
    decreases |a|
  {
    if a == "" {
      assert a + s == s;
    } else {
      assert (a + s)[1..] == a[1..] + s;
      StripsFront(a[1..], s, drop);
    }
  }

  lemma {:induction false} StripsBack(s: string, b: string, drop: char -> bool)
    requires AllOf(b, drop) && (s != "" ==> !drop(s[|s| - 1]))
    ensures StripRight(s + b, drop) == s
    decreases |b|
  {
    if b == "" {
      assert s + b == s;
    } else {
      var n := |b| - 1;
      assert (s + b)[..|s| + n] == s + b[..n];
      StripsBack(s, b[..n], drop);
    }
  }

  lemma StripsBoth(a: string, s: string, b: string, drop: char -> bool)
    requires AllOf(a, drop) && AllOf(b, drop) && s != "" && !drop(s[0]) && !drop(s[|s| - 1])
    ensures Strip(a + s + b, drop) == s
  {
    assert a + s + b == a + (s + b);
    StripsFront(a, s + b, drop);
    StripsBack(s, b, drop);
  }

  /** Backticks around a scope and white space around those do not count. */
  lemma QuotedScope(u: Unicode, s: string, before: string, open: string, close: string, after: string)
    requires !u.space('`') && Canonical(u, s)
    requires AllOf(before, u.space) && AllOf(after, u.space) && AllOf(open, Backtick) && AllOf(close, Backtick)
    ensures NormalizeScope(u, before + (open + s + close) + after) == Some(s)
  {
    var quoted := open + s + close;
    CanonicalIsWhole(u, s);
    RepoSpelling(u, s);
    assert quoted[0] == (if open == "" then s[0] else open[0]);
    assert quoted[|quoted| - 1] == (if close == "" then s[|s| - 1] else close[|close| - 1]);
    StripsBoth(before, quoted, after, u.space);
    StripsBoth(open, s, close, Backtick);
  }
}
