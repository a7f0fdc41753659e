/**
 * Scopes as the request model admits them, in repository spelling: exactly when
 * two of them that are found apart still let one path through.
 */
module IssueScopeSpelling {
  import opened Wrappers
  import opened Text
  import opened IssueScopes

  /** The request model's own test of a scope. */
  predicate RepoSpelled(u: Unicode, s: string) {
    NormalizeRepoPath(u, s) == Some(s)
  }

  /** Neither the glob and path marks nor the backtick are white space. */
  ghost predicate MarksPrint(u: Unicode) {
    !u.space('*') && !u.space('/') && !u.space('.') && !u.space('`')
  }

  predicate Named(part: string) {
    part !in {"", ".", ".."}
  }

  // ---- what repository spelling means -----------------------------------

  lemma {:induction false} StripLeftSuffix(s: string, drop: char -> bool)
    ensures var r := StripLeft(s, drop);
      && |r| <= |s| && s[|s| - |r|..] == r && (r != "" ==> !drop(r[0]))
      && (forall i :: 0 <= i < |s| - |r| ==> drop(s[i]))
  {
    if s != "" && drop(s[0]) {
      StripLeftSuffix(s[1..], drop);
      var r := StripLeft(s[1..], drop);
      assert s[|s| - |r|..] == s[1..][|s| - 1 - |r|..];
      forall i | 0 <= i < |s| - |r| ensures drop(s[i]) {
        assert i > 0 ==> s[i] == s[1..][i - 1];
      }
    }
  }

  lemma StripLength(s: string, drop: char -> bool)
    ensures |Strip(s, drop)| <= |s|
    ensures |Strip(s, drop)| == |s| ==> Strip(s, drop) == s && (s != "" ==> !drop(s[0]) && !drop(s[|s| - 1]))
  {
    StripLeftSuffix(s, drop);
  }

  lemma {:induction false} JoinAtLeast(parts: seq<string>)
    requires parts != []
    ensures |parts| - 1 <= |Join(parts, '/')|
  {
    if |parts| > 1 {
      JoinAtLeast(parts[1..]);
    }
  }

  lemma JoinCons(first: string, rest: seq<string>)
    requires rest != []
    ensures Join([first] + rest, '/') == first + "/" + Join(rest, '/')
  {
    assert ([first] + rest)[1..] == rest;
  }

  /** Every dropped part costs at least its slash. */
  lemma {:induction false} KeptLength(parts: seq<string>)
    requires KeptParts(parts) != []
    ensures |KeptParts(parts)| <= |parts|
    ensures |Join(KeptParts(parts), '/')| + |parts| - |KeptParts(parts)| <= |Join(parts, '/')|
  {
    var kept := KeptParts(parts[1..]);
    if |parts| > 1 {
      if kept == [] {
        JoinAtLeast(parts[1..]);
      } else {
        KeptLength(parts[1..]);
        assert parts == [parts[0]] + parts[1..];
        JoinCons(parts[0], parts[1..]);
        if parts[0] !in {"", "."} {
          JoinCons(parts[0], kept);
        } else {
          assert KeptParts(parts) == kept;
        }
      }
    }
  }

  lemma {:induction false} AllKept(parts: seq<string>)
    ensures |KeptParts(parts)| <= |parts|
    ensures |KeptParts(parts)| == |parts| ==>
      KeptParts(parts) == parts && forall i :: 0 <= i < |parts| ==> parts[i] !in {"", "."}
  {
    if parts != [] {
      AllKept(parts[1..]);
    }
  }

  /** A path spelled its own way is trimmed, has no backslash, and only named parts. */
  lemma RepoSpelling(u: Unicode, s: string)
    requires RepoSpelled(u, s)
    ensures s != "" && !u.space(s[0]) && !u.space(s[|s| - 1]) && Strip(s, u.space) == s && '\\' !in s
    ensures forall i :: 0 <= i < |Split(s, '/')| ==> Named(Split(s, '/')[i])
  {
    var candidate := Replace(Strip(s, u.space), '\\', '/');
    var parts := Split(candidate, '/');
    StripLength(s, u.space);
    JoinSplit(candidate, '/');
    KeptLength(parts);
    AllKept(parts);
    assert candidate == s;
    forall i | 0 <= i < |s| ensures s[i] != '\\' {
      assert candidate[i] != '\\';
    }
    forall i | 0 <= i < |parts| ensures Named(parts[i]) {
      assert parts[i] in parts;
    }
  }

  // ---- what normalising takes off such a scope --------------------------

  lemma {:induction false} SplitLead(lead: string, x: string)
    requires '/' !in lead
    ensures Split(lead + x, '/') == [lead + Split(x, '/')[0]] + Split(x, '/')[1..]
  {
    if lead == "" {
      assert lead + x == x && lead + Split(x, '/')[0] == Split(x, '/')[0];
    } else {
      assert (lead + x)[1..] == lead[1..] + x;
      SplitLead(lead[1..], x);
      var r := Split(x, '/');
      assert ([lead[1..] + r[0]] + r[1..])[1..] == r[1..];
      assert [lead[0]] + (lead[1..] + r[0]) == lead + r[0];
    }
  }

  lemma {:induction false} SplitTail(x: string, t: string)
    requires '/' !in t
    ensures var p := Split(x, '/'); Split(x + t, '/') == p[..|p| - 1] + [p[|p| - 1] + t]
  {
    if x == "" {
      assert x + t == t;
      Unslashed(t);
    } else {
      assert (x + t)[1..] == x[1..] + t;
      SplitTail(x[1..], t);
      var q := Split(x[1..], '/');
      var longer := q[..|q| - 1] + [q[|q| - 1] + t];
      if x[0] == '/' {
        assert ([""] + q)[..|q|] == [""] + q[..|q| - 1];
        assert [""] + longer == [""] + q[..|q| - 1] + [q[|q| - 1] + t];
      } else {
        FirstLonger(q, x[0], t);
      }
    }
  }

  lemma FirstLonger(q: seq<string>, c: char, t: string)
    requires q != []
    ensures var longer, p := q[..|q| - 1] + [q[|q| - 1] + t], [[c] + q[0]] + q[1..];
      [[c] + longer[0]] + longer[1..] == p[..|p| - 1] + [p[|p| - 1] + t]
  {
    if |q| == 1 {
      assert [c] + (q[0] + t) == [c] + q[0] + t;
    }
  }

  /** All parts but the last are kept, so only the end can get shorter. */
  lemma {:induction false} KeptFront(parts: seq<string>) returns (tail: string)
    requires parts != [] && KeptParts(parts) != []
    requires forall i :: 0 <= i < |parts| - 1 ==> Named(parts[i])
    ensures Join(parts, '/') == Join(KeptParts(parts), '/') + tail && '*' !in tail
  {
    if |parts| == 1 {
      tail := "";
    } else {
      var first, rest, kept := parts[0], parts[1..], KeptParts(parts[1..]);
      assert parts == [first] + rest;
      JoinCons(first, rest);
      assert KeptParts(parts) == [first] + kept;
      if kept == [] {
        LastDropped(rest);
        tail := "/" + Join(rest, '/');
        Assoc(first, "/", Join(rest, '/'));
      } else {
        tail := KeptFront(rest);
        JoinCons(first, kept);
        Nest4(first, "/", Join(kept, '/'), tail);
      }
    }
  }

  lemma Assoc(a: string, b: string, c: string)
    ensures a + (b + c) == a + b + c
  {
  }

  lemma Nest4(a: string, b: string, c: string, d: string)
    ensures a + b + (c + d) == a + b + c + d
  {
  }

  lemma {:induction false} LastDropped(parts: seq<string>)
    requires parts != [] && KeptParts(parts) == [] && forall i :: 0 <= i < |parts| - 1 ==> Named(parts[i])
    ensures '*' !in Join(parts, '/')
  {
    assert |parts| > 1 ==> Named(parts[0]);
  }

  predicate Dotted(s: string) {
    |s| >= 2 && s[0] == '.' && s[1] == '/'
  }

  function Dot(s: string): string {
    if Dotted(s) then s[..2] else ""
  }

  lemma JustDot(c: char, t: string)
    ensures [c] + t == "." <==> c == '.' && t == ""
  {
    if t == "" {
      assert [c] + t == [c];
    } else {
      assert |[c] + t| > 1;
    }
  }

  lemma DotIsFirstPart(s: string)
    requires s != "" && s[0] != '/' && KeptParts(Split(s, '/')) != []
    ensures Split(s, '/')[0] == "." <==> Dotted(s)
  {
    var rest := Split(s[1..], '/');
    assert Split(s, '/')[0] == [s[0]] + rest[0];
    if |s| == 1 {
      Unslashed(s);
      assert KeptParts([s]) == if s in {"", "."} then [] else [s];
    } else {
      assert rest[0] == "" <==> s[1] == '/';
      JustDot(s[0], rest[0]);
    }
  }

  // ---- the three pieces of such a scope ---------------------------------

  /** The scope behind its leading backticks and the white space after them. */
  function Body(u: Unicode, s: string): string {
    StripLeft(StripLeft(s, Backtick), u.space)
  }

  /** The backticks and white space in front. */
  function Lead(u: Unicode, s: string): (r: string)
    ensures r + Body(u, s) == s
    ensures forall i :: 0 <= i < |r| ==> Backtick(r[i]) || u.space(r[i])
  {
    var ticks, r := StripLeft(s, Backtick), Body(u, s);
    StripLeftSuffix(s, Backtick);
    StripLeftSuffix(ticks, u.space);
    assert r == s[|s| - |ticks|..][|ticks| - |r|..];
    assert forall i :: |s| - |ticks| <= i < |s| - |r| ==> s[i] == ticks[i - (|s| - |ticks|)];
    s[..|s| - |r|]
  }

  /** A text that agrees with `s` up to where stripping stops is stripped as far. */
  lemma {:induction false} StripAgrees(s: string, p: string, drop: char -> bool)
    requires var r := StripLeft(s, drop); r != "" && |r| <= |s| && s[..|s| - |r| + 1] <= p
    ensures var k := |s| - |StripLeft(s, drop)|; StripLeft(p, drop) == p[k..]
  {
    if drop(s[0]) {
      var r := StripLeft(s[1..], drop);
      StripLeftSuffix(s[1..], drop);
      assert p[0] == s[0];
      assert s[1..][..|s| - 1 - |r| + 1] == s[..|s| - |r| + 1][1..] <= p[1..];
      StripAgrees(s[1..], p[1..], drop);
    }
  }

  lemma SlicePrefix(s: string, k: nat, m: nat, p: string)
    requires k + m <= |s| && s[..k + m] <= p
    ensures k + m <= |p| && s[k..][..m] <= p[k..] && s[..k] <= p && s[..k] == p[..k] && p[k..][m..] == p[k + m..]
  {
    assert s[k..][..m] == s[..k + m][k..] == p[..k + m][k..];
  }

  lemma StripAgreesAt(s: string, p: string, drop: char -> bool, k: nat)
    requires k < |s| && StripLeft(s, drop) == s[k..] && s[..k + 1] <= p
    ensures StripLeft(p, drop) == p[k..]
  {
    StripAgrees(s, p, drop);
  }

  lemma BodyAgrees(u: Unicode, s: string, p: string, k: nat, m: nat)
    requires k + m < |s| && StripLeft(s, Backtick) == s[k..] && StripLeft(s[k..], u.space) == s[k..][m..]
    requires s[..k + m + 1] <= p
    ensures Body(u, p) == p[k + m..] && k + m <= |p|
  {
    SlicePrefix(s, k + 1, m, p);
    StripAgreesAt(s, p, Backtick, k);
    SlicePrefix(s, k, m + 1, p);
    StripAgreesAt(s[k..], p[k..], u.space, m);
    SlicePrefix(s, k, m, p);
  }

  /** So it has the same lead. */
  lemma SameLead(u: Unicode, s: string, p: string)
    requires Body(u, s) != "" && Lead(u, s) + [Body(u, s)[0]] <= p
    ensures Lead(u, p) == Lead(u, s)
  {
    var ticks, body := StripLeft(s, Backtick), Body(u, s);
    var k, m := |s| - |ticks|, |ticks| - |body|;
    StripLeftSuffix(s, Backtick);
    StripLeftSuffix(ticks, u.space);
    NextOf(Lead(u, s), body, s);
    BodyAgrees(u, s, p, k, m);
    LeadIs(u, p, k + m);
    SlicePrefix(s, k + m, 0, p);
  }

  lemma NextOf(a: string, b: string, s: string)
    requires a + b == s && b != ""
    ensures s[..|a| + 1] == a + [b[0]] && s[..|a|] == a
  {
  }

  lemma LeadIs(u: Unicode, s: string, k: nat)
    requires k <= |s| && Body(u, s) == s[k..]
    ensures Lead(u, s) == s[..k]
  {
    assert |Lead(u, s)| == k;
  }

  predicate Blank(u: Unicode, t: string) {
    forall i :: 0 <= i < |t| ==> Backtick(t[i]) || u.space(t[i])
  }

  lemma BlankHasNoMarks(u: Unicode, t: string)
    requires MarksPrint(u) && Blank(u, t)
    ensures '*' !in t && '/' !in t
  {
  }

  /** The body once its end is stripped too. */
  function Core(u: Unicode, s: string): string {
    Strip(Strip(s, Backtick), u.space)
  }

  lemma CoreAndEnd(u: Unicode, s: string) returns (end: string)
    requires Core(u, s) != ""
    ensures Body(u, s) == Core(u, s) + end && Blank(u, end)
  {
    var ticks := StripLeft(s, Backtick);
    var c := StripRight(ticks, Backtick);
    var inner := StripLeft(c, u.space);
    StripLeftSuffix(c, u.space);
    StripAgrees(c, ticks, u.space);
    var k := |c| - |inner|;
    var body, core := ticks[k..], Core(u, s);
    assert inner == c[k..] && core <= inner <= body;
    end := body[|core|..];
    forall i | 0 <= i < |end| ensures Backtick(end[i]) || u.space(end[i]) {
      var j := |core| + i;
      assert end[i] == ticks[k + j];
      assert j < |inner| ==> end[i] == inner[j];
    }
  }

  lemma {:induction false} StripSubset(s: string, drop: char -> bool)
    ensures forall c :: c in Strip(s, drop) ==> c in s
  {
    StripLeftSuffix(s, drop);
    var left, r := StripLeft(s, drop), Strip(s, drop);
    forall i | 0 <= i < |r| ensures r[i] in s {
      assert r[i] == left[i] == s[|s| - |left| + i];
    }
  }

  /** Normalising such a scope is dropping the unnamed parts of its core. */
  lemma CoreNormal(u: Unicode, s: string)
    requires RepoSpelled(u, s) && NormalizeScope(u, s).Some?
    ensures var core := Core(u, s);
      && core != "" && core[0] != '/' && KeptParts(Split(core, '/')) != [] && ".." !in Split(core, '/')
      && NormalizeScope(u, s).value == Join(KeptParts(Split(core, '/')), '/')
  {
    RepoSpelling(u, s);
    var c, core := Strip(s, Backtick), Core(u, s);
    assert NormalizeScope(u, s) == NormalizeRepoPath(u, c);
    StripSubset(s, Backtick);
    StripSubset(c, u.space);
    assert '\\' !in core;
    assert Replace(core, '\\', '/') == core;
  }

  /** The inner parts of the core are parts of the scope, so they are named. */
  lemma CoreParts(u: Unicode, s: string, core: string, end: string)
    requires MarksPrint(u) && RepoSpelled(u, s) && Body(u, s) == core + end && Blank(u, end)
    ensures var parts := Split(core, '/'); forall i :: 0 < i < |parts| - 1 ==> Named(parts[i])
  {
    RepoSpelling(u, s);
    var lead, parts := Lead(u, s), Split(core, '/');
    BlankHasNoMarks(u, lead);
    BlankHasNoMarks(u, end);
    SplitTail(core, end);
    SplitLead(lead, core + end);
    assert s == lead + (core + end);
    forall i | 0 < i < |parts| - 1 ensures Named(parts[i]) {
      assert Split(s, '/')[i] == Split(core + end, '/')[i] == parts[i];
    }
  }

  /** The core is a dropped `./`, its kept parts, and an end without stars. */
  lemma CoreSplits(core: string) returns (tail: string)
    requires core != "" && core[0] != '/' && KeptParts(Split(core, '/')) != []
    requires var parts := Split(core, '/'); forall i :: 0 < i < |parts| - 1 ==> Named(parts[i])
    requires ".." !in Split(core, '/')
    ensures core == Dot(core) + Join(KeptParts(Split(core, '/')), '/') + tail && '*' !in tail
  {
    var parts := Split(core, '/');
    JoinSplit(core, '/');
    DotIsFirstPart(core);
    if parts[0] == "." {
      assert parts == [parts[0]] + parts[1..] && KeptParts(parts) == KeptParts(parts[1..]);
      tail := KeptFront(parts[1..]);
      JoinCons(parts[0], parts[1..]);
    } else {
      tail := KeptFront(parts);
    }
  }

  lemma DotKeeps(core: string, end: string)
    requires core != "" && '/' !in end
    ensures Dot(core + end) == Dot(core)
  {
    if |core| == 1 && end != "" {
      assert (core + end)[1] == end[0];
    } else if |core| > 1 {
      assert (core + end)[..2] == core[..2];
    }
  }

  /** So the body is a dropped `./`, the normal form, and an end without stars. */
  lemma BodySplits(u: Unicode, s: string) returns (tail: string)
    requires MarksPrint(u) && RepoSpelled(u, s) && NormalizeScope(u, s).Some?
    ensures Body(u, s) == Dot(Body(u, s)) + NormalizeScope(u, s).value + tail && '*' !in tail
  {
    CoreNormal(u, s);
    var core := Core(u, s);
    var end := CoreAndEnd(u, s);
    CoreParts(u, s, core, end);
    BlankHasNoMarks(u, end);
    var t := CoreSplits(core);
    DotKeeps(core, end);
    tail := t + end;
    Regroup(Dot(core), NormalizeScope(u, s).value, t, end);
  }

  lemma Regroup(a: string, b: string, c: string, d: string)
    ensures a + b + c + d == a + b + (c + d)
  {
  }

  // ---- what a scope with stars lets through -----------------------------

  function Stars(two: bool): (r: string)
    ensures r != "" && r[0] == '*'
  {
    if two then ['*', '*'] else ['*']
  }

  /** The part behind the last star. */
  function AfterStars(s: string): string {
    if s == "" then ""
    else if '*' in s[1..] then AfterStars(s[1..])
    else if s[0] == '*' then s[1..]
    else s
  }

  lemma {:induction false} SecondStar(path: string, e: string)
    ensures Matches(path, ['*', '*'] + e) <==> Matches(path, ['*'] + e)
    decreases |path|
  {
    assert (['*', '*'] + e)[1..] == ['*'] + e && (['*'] + e)[1..] == e;
    if path != "" {
      SecondStar(path[1..], e);
    }
  }

  lemma {:induction false} StarFamily(path: string, a: string, two: bool, e: string)
    requires '*' !in a && '*' !in e
    ensures Matches(path, a + Stars(two) + e) <==> |a| + |e| <= |path| && a <= path && EndsWith(path, e)
    decreases |a|
  {
    FileFamilyMatches(path, a, e);
    if two {
      SameFamily(path, a, e);
    }
  }

  lemma {:induction false} SameFamily(path: string, a: string, e: string)
    requires '*' !in a
    ensures Matches(path, a + ['*', '*'] + e) <==> Matches(path, a + ['*'] + e)
    decreases |a|
  {
    if a == "" {
      assert a + ['*', '*'] + e == ['*', '*'] + e && a + ['*'] + e == ['*'] + e;
      SecondStar(path, e);
    } else {
      assert (a + ['*', '*'] + e)[1..] == a[1..] + ['*', '*'] + e;
      assert (a + ['*'] + e)[1..] == a[1..] + ['*'] + e;
      if path != "" {
        SameFamily(path[1..], a[1..], e);
      }
    }
  }

  lemma {:induction false} FamilyParts(a: string, two: bool, e: string)
    requires '*' !in a && '*' !in e
    ensures BeforeStar(a + Stars(two) + e) == a && AfterStars(a + Stars(two) + e) == e
    decreases |a|
  {
    var s := a + Stars(two) + e;
    if a == "" {
      assert s == Stars(two) + e;
      assert s[1..] == if two then ['*'] + e else e;
      assert two ==> s[1..][1..] == e;
    } else {
      assert s[1..] == a[1..] + Stars(two) + e;
      assert s[1..][|a| - 1] == '*';
      FamilyParts(a[1..], two, e);
    }
  }

  lemma {:induction false} NoneCounted(s: string, c: char)
    requires Count(s, c) == 0
    ensures c !in s
  {
    if s != "" {
      NoneCounted(s[1..], c);
      assert s == [s[0]] + s[1..];
    }
  }

  /** A star before a slash is not in the last component. */
  lemma {:induction false} LastComponent(x: string, y: string)
    requires '*' !in y && '/' in y
    ensures var p := Split(x + y, '/'); |p| > 1 && '*' !in p[|p| - 1]
  {
    if x != "" {
      assert (x + y)[1..] == x[1..] + y;
      LastComponent(x[1..], y);
    } else {
      assert x + y == y;
      if y[0] == '/' {
        PiecesOf(y[1..]);
      } else {
        assert y == [y[0]] + y[1..];
        LastComponent("", y[1..]);
        assert "" + y[1..] == y[1..];
      }
    }
  }

  lemma {:induction false} PiecesOf(s: string)
    requires '*' !in s
    ensures forall i :: 0 <= i < |Split(s, '/')| ==> '*' !in Split(s, '/')[i]
  {
    if s != "" {
      PiecesOf(s[1..]);
    }
  }

  lemma AtIndex(c: string, a: string)
    requires a <= c && |a| < |c|
    ensures c == a + ([c[|a|]] + c[|a| + 1..]) && c == a + [c[|a|]] + c[|a| + 1..]
  {
  }

  lemma OneStar(c: string) returns (e: string)
    requires Count(c, '*') == 1 && '*' in c
    ensures c == BeforeStar(c) + ['*'] + e && '*' !in BeforeStar(c) && '*' !in e
  {
    FirstStar(c);
    var a := BeforeStar(c);
    e := c[|a| + 1..];
    AtIndex(c, a);
    CountAppend(a, ['*'] + e, '*');
    assert (['*'] + e)[1..] == e;
    NoneCounted(e, '*');
  }

  lemma RecursiveStars(c: string, end: string) returns (a: string)
    requires |end| == 3 && end[0] == '/' && end[1] == '*' && end[2] == '*'
    requires Count(c, '*') == 2 && EndsWith(c, end)
    ensures c == a + Stars(true) && '*' !in a && a != "" && a[|a| - 1] == '/'
  {
    var c0 := c[..|c| - 3];
    assert c == c0 + end && end == ['/'] + ['*', '*'];
    CountAppend(c0, end, '*');
    assert end[1..] == ['*', '*'] && ['*', '*'][1..] == ['*'] && ['*'][1..] == [];
    NoneCounted(c0, '*');
    a := c0 + ['/'];
  }

  /** A scope that normalises has its stars together, and nothing but the last component behind them. */
  lemma CandidateShape(c: string) returns (a: string, two: bool, e: string)
    requires StarsAllowed(c) && '*' in c
    ensures c == a + Stars(two) + e && '*' !in a && '*' !in e && '/' !in e
    ensures two ==> a != "" && a[|a| - 1] == '/'
  {
    if Count(c, '*') == 1 {
      a, two := BeforeStar(c), false;
      e := OneStar(c);
      if '/' in e {
        LastComponent(a + ['*'], e);
      }
    } else {
      if Count(c, '*') == 0 {
        NoneCounted(c, '*');
      }
      a := RecursiveStars(c, "/**");
      two, e := true, "";
      assert c == a + Stars(true) + "";
    }
  }

  lemma {:induction false} FirstStar(s: string)
    requires '*' in s
    ensures var a := BeforeStar(s); |a| < |s| && s[|a|] == '*' && '*' !in a
  {
    if s[0] != '*' {
      assert s == [s[0]] + s[1..];
      FirstStar(s[1..]);
    }
  }

  predicate AllTicks(t: string) {
    forall i :: 0 <= i < |t| ==> Backtick(t[i])
  }

  lemma TicksHaveNoMarks(t: string)
    requires AllTicks(t)
    ensures '*' !in t && '/' !in t
  {
  }

  lemma LeftTicks(s: string)
    ensures var t := StripLeft(s, Backtick); |t| <= |s| && s == s[..|s| - |t|] + t && AllTicks(s[..|s| - |t|])
  {
    StripLeftSuffix(s, Backtick);
    var t := StripLeft(s, Backtick);
    assert s == s[..|s| - |t|] + s[|s| - |t|..];
  }

  lemma RightTicks(t: string)
    ensures var c := StripRight(t, Backtick); t == c + t[|c|..] && AllTicks(t[|c|..])
  {
    var c := StripRight(t, Backtick);
    forall i | 0 <= i < |t| - |c| ensures Backtick(t[|c|..][i]) {
      assert t[|c|..][i] == t[|c| + i];
    }
  }

  lemma OuterTicks(s: string) returns (front: string, back: string)
    ensures s == front + Strip(s, Backtick) + back
    ensures '*' !in front && '/' !in front && '*' !in back && '/' !in back
  {
    var ticks, c := StripLeft(s, Backtick), Strip(s, Backtick);
    LeftTicks(s);
    RightTicks(ticks);
    front, back := s[..|s| - |ticks|], ticks[|c|..];
    TicksHaveNoMarks(front);
    TicksHaveNoMarks(back);
    Assoc(front, c, back);
  }

  lemma Regroup5(a: string, b: string, c: string, d: string, e: string)
    ensures a + (b + c + d) + e == (a + b) + c + (d + e)
  {
  }

  /** The same of the scope itself, backticks and all. */
  lemma ScopeShape(u: Unicode, s: string) returns (two: bool)
    requires RepoSpelled(u, s) && NormalizeScope(u, s).Some? && '*' in s
    ensures var a, e := BeforeStar(s), AfterStars(s);
      s == a + Stars(two) + e && '*' !in a && '*' !in e && '/' !in e && (two ==> a != "" && a[|a| - 1] == '/')
  {
    RepoSpelling(u, s);
    var front, back := OuterTicks(s);
    var a, e;
    a, two, e := CandidateShape(Strip(s, Backtick));
    Regroup5(front, a, Stars(two), e, back);
    FamilyParts(front + a, two, e + back);
  }

  // ---- the exact condition ----------------------------------------------

  /** Some path can end as both want it to; a scope without stars is a path itself. */
  predicate EndsMeet(file: string, end: string) {
    if '*' in file then EndsWith(AfterStars(file), end) || EndsWith(end, AfterStars(file))
    else EndsWith(file, end)
  }

  /**
   * `file` begins where `family` has its star, at a dot that follows nothing but
   * backticks and white space: normalising drops the dot from `file` only.
   */
  predicate Masked(file: string, family: string) {
    var front := BeforeStar(family);
    && '*' in family && front != "" && front[0] == '`' && front[|front| - 1] == '.'
    && front + ['/'] <= file
    && EndsMeet(file, AfterStars(family))
  }

  lemma EndsCompare(path: string, a: string, b: string)
    requires EndsWith(path, a) && EndsWith(path, b)
    ensures EndsWith(a, b) || EndsWith(b, a)
  {
    if |b| <= |a| {
      assert path[|path| - |b|..] == path[|path| - |a|..][|a| - |b|..];
    } else {
      assert path[|path| - |a|..] == path[|path| - |b|..][|b| - |a|..];
    }
  }

  lemma {:induction false} StarStartsEmpty(u: Unicode, s: string)
    requires KeepsMarks(u) && s != "" && s[0] == '*'
    ensures BeforeStar(Fold(u, s)) == "" && '*' in Fold(u, s)
  {
    FoldBeforeStar(u, s);
  }

  /** A scope whose body begins with a star overlaps with everything. */
  lemma StarFirstOverlaps(u: Unicode, left: string, right: string)
    requires KeepsMarks(u) && MarksPrint(u) && RepoSpelled(u, left)
    requires Body(u, left) != "" && Body(u, left)[0] == '*'
    ensures ScopesOverlap(u, left, right) && ScopesOverlap(u, right, left)
  {
    if NormalizeScope(u, left).Some? {
      var tail := BodySplits(u, left);
      var n := NormalizeScope(u, left).value;
      CoreNormal(u, left);
      KeptNotEmpty(Split(Core(u, left), '/'));
      assert Body(u, left) == n + tail;
      StarStartsEmpty(u, n);
    }
  }

  lemma {:induction false} KeptNotEmpty(parts: seq<string>)
    requires KeptParts(parts) != []
    ensures Join(KeptParts(parts), '/') != ""
  {
    if parts[0] in {"", "."} {
      KeptNotEmpty(parts[1..]);
    } else if KeptParts(parts[1..]) != [] {
      JoinCons(parts[0], KeptParts(parts[1..]));
    }
  }

  lemma {:induction false} BeforeStarAppend(a: string, b: string)
    ensures BeforeStar(a) <= BeforeStar(a + b)
    ensures '*' !in b ==> ('*' in a <==> '*' in a + b)
  {
    if a != "" {
      assert (a + b)[1..] == a[1..] + b;
      BeforeStarAppend(a[1..], b);
    } else {
      assert a + b == b;
    }
  }

  /** If normalising takes the same front off both, the prefixes of a common path stay comparable. */
  lemma SameFrontOverlaps(u: Unicode, left: string, right: string, front: string, path: string, x: string, y: string)
    requires KeepsMarks(u) && NormalizeScope(u, left).Some? && NormalizeScope(u, right).Some?
    requires '*' !in front && '*' !in x && '*' !in y
    requires left == front + NormalizeScope(u, left).value + x
    requires right == front + NormalizeScope(u, right).value + y
    requires Matches(path, left) && Matches(path, right)
    ensures ScopesOverlap(u, left, right)
  {
    var l, r := NormalizeScope(u, left).value, NormalizeScope(u, right).value;
    FoldBeforeStar(u, l);
    FoldBeforeStar(u, r);
    FrontKept(front, l, x, left, path);
    FrontKept(front, r, y, right, path);
    if '*' in l || '*' in r {
      var p := path[|front|..];
      FoldPrefix(u, BeforeStar(l), p);
      FoldPrefix(u, BeforeStar(r), p);
      StrippedPrefixesCompare(BeforeStar(Fold(u, l)), BeforeStar(Fold(u, r)), Fold(u, p));
    } else {
      MatchesLiteral(path, left);
      MatchesLiteral(path, right);
    }
  }

  lemma FrontKept(front: string, n: string, x: string, s: string, path: string)
    requires '*' !in front && '*' !in x && s == front + n + x && Matches(path, s)
    ensures front <= path && BeforeStar(n) <= path[|front|..] && ('*' in s <==> '*' in n)
  {
    assert s == front + (n + x);
    StarFree(front, n + x);
    MatchesPrefix(path, s);
    BeforeStarAppend(n, x);
    TailPrefix(front, BeforeStar(n), BeforeStar(n + x), path);
    OnlyMiddleStar(front, n, x);
  }

  lemma TailPrefix(a: string, b: string, c: string, whole: string)
    requires a + c <= whole && b <= c
    ensures a <= whole && b <= whole[|a|..]
  {
    assert whole[..|a + c|][|a|..] == c;
  }

  lemma OnlyMiddleStar(a: string, b: string, c: string)
    requires '*' !in a && '*' !in c
    ensures '*' in a + b + c <==> '*' in b
  {
  }

  // ---- a shared path means a masked pair --------------------------------

  lemma BodyNotEmpty(u: Unicode, s: string)
    requires RepoSpelled(u, s) && NormalizeScope(u, s).Some?
    ensures Body(u, s) != ""
  {
    CoreNormal(u, s);
    var end := CoreAndEnd(u, s);
  }

  lemma PrefixOfSum(a: string, b: string, whole: string)
    requires a + b <= whole && b != ""
    ensures a + [b[0]] <= whole && a <= whole && b <= whole[|a|..]
  {
    assert (a + b)[|a|] == b[0];
    assert whole[..|a + b|][|a|..] == b;
  }

  /** A path a scope lets through begins with the scope's own lead. */
  lemma LeadOnPath(u: Unicode, s: string, path: string)
    requires MarksPrint(u) && Body(u, s) != "" && Body(u, s)[0] != '*' && Matches(path, s)
    ensures Lead(u, path) == Lead(u, s) && Lead(u, s) <= path
    ensures BeforeStar(s) == Lead(u, s) + BeforeStar(Body(u, s))
    ensures BeforeStar(Body(u, s)) <= path[|Lead(u, s)|..] && '*' !in Lead(u, s)
  {
    var lead, body := Lead(u, s), Body(u, s);
    BlankHasNoMarks(u, lead);
    StarFree(lead, body);
    assert lead + body == s;
    MatchesPrefix(path, s);
    var b := BeforeStar(body);
    assert b[0] == body[0];
    PrefixOfSum(lead, b, path);
    SameLead(u, s, path);
  }

  lemma {:induction false} NotDotted(u: Unicode, s: string)
    requires RepoSpelled(u, s)
    ensures !Dotted(s)
  {
    RepoSpelling(u, s);
    var parts := Split(s, '/');
    assert Named(parts[0]);
    if s[0] != '/' {
      DotIsFirstPart(s);
    }
  }

  lemma TwoBeforeStar(s: string)
    requires |BeforeStar(s)| >= 2 || (|s| >= 2 && s[0] != '*' && s[1] != '*')
    ensures |BeforeStar(s)| >= 2 && BeforeStar(s)[0] == s[0] && BeforeStar(s)[1] == s[1]
  {
  }

  lemma DottedOnPath(body: string, other: string, w: string)
    requires Dotted(body) && BeforeStar(body) <= w && BeforeStar(other) <= w && !Dotted(other)
    requires other != "" && other[0] != '*'
    ensures BeforeStar(other) == ['.'] && |w| >= 2 && w[0] == '.' && w[1] == '/'
  {
    TwoBeforeStar(body);
    var b := BeforeStar(other);
    assert b[0] == other[0] == w[0];
    if |b| >= 2 {
      TwoBeforeStar(other);
    } else {
      assert b == [b[0]];
    }
  }

  /** Normalising drops the dot of `file` only, so on a common path the other has its star there. */
  lemma StarBehindDot(u: Unicode, file: string, family: string, path: string)
    requires MarksPrint(u) && Body(u, file) != "" && Body(u, file)[0] != '*'
    requires Body(u, family) != "" && Body(u, family)[0] != '*'
    requires Dotted(Body(u, file)) && !Dotted(Body(u, family))
    requires Matches(path, file) && Matches(path, family)
    ensures '*' in family && BeforeStar(family) == Lead(u, file) + ['.']
  {
    LeadOnPath(u, file, path);
    LeadOnPath(u, family, path);
    var q := Lead(u, path);
    if '*' !in family {
      MatchesLiteral(path, family);
      assert path[|q|..] == Body(u, family);
    }
    DottedOnPath(Body(u, file), Body(u, family), path[|q|..]);
  }

  lemma DottedFront(u: Unicode, file: string)
    requires MarksPrint(u) && RepoSpelled(u, file) && Dotted(Body(u, file))
    ensures var q := Lead(u, file); q != "" && q[0] == '`' && q + ['.'] + ['/'] <= file
  {
    RepoSpelling(u, file);
    NotDotted(u, file);
    var q, body := Lead(u, file), Body(u, file);
    assert q == "" ==> q + body == body;
    assert q[0] == file[0];
    assert q + ['.'] + ['/'] == file[..|q| + 2];
  }

  lemma DottedIsMasked(u: Unicode, file: string, family: string, path: string)
    requires MarksPrint(u) && RepoSpelled(u, file) && RepoSpelled(u, family)
    requires NormalizeScope(u, file).Some? && NormalizeScope(u, family).Some?
    requires Body(u, file) != "" && Body(u, file)[0] != '*' && Body(u, family) != "" && Body(u, family)[0] != '*'
    requires Dotted(Body(u, file)) && !Dotted(Body(u, family))
    requires Matches(path, file) && Matches(path, family)
    ensures Masked(file, family)
  {
    StarBehindDot(u, file, family, path);
    DottedFront(u, file);
    EndsOnPath(u, file, family, path);
  }

  lemma EndsOnPath(u: Unicode, file: string, family: string, path: string)
    requires RepoSpelled(u, file) && RepoSpelled(u, family)
    requires NormalizeScope(u, file).Some? && NormalizeScope(u, family).Some? && '*' in family
    requires Matches(path, file) && Matches(path, family)
    ensures EndsMeet(file, AfterStars(family))
  {
    var two := ScopeShape(u, family);
    StarFamily(path, BeforeStar(family), two, AfterStars(family));
    if '*' in file {
      var more := ScopeShape(u, file);
      StarFamily(path, BeforeStar(file), more, AfterStars(file));
      EndsCompare(path, AfterStars(file), AfterStars(family));
    } else {
      MatchesLiteral(path, file);
    }
  }

  lemma SharedIsMasked(u: Unicode, l: string, r: string, path: string)
    requires KeepsMarks(u) && MarksPrint(u) && RepoSpelled(u, l) && RepoSpelled(u, r) && !ScopesOverlap(u, l, r)
    requires Matches(path, l) && Matches(path, r)
    ensures Masked(l, r) || Masked(r, l)
  {
    BodyNotEmpty(u, l);
    BodyNotEmpty(u, r);
    var a, b := Body(u, l), Body(u, r);
    if a[0] == '*' {
      StarFirstOverlaps(u, l, r);
    } else if b[0] == '*' {
      StarFirstOverlaps(u, r, l);
    } else if Dotted(a) && !Dotted(b) {
      DottedIsMasked(u, l, r, path);
    } else if Dotted(b) && !Dotted(a) {
      DottedIsMasked(u, r, l, path);
    } else {
      SameDotsOverlap(u, l, r, path);
    }
  }

  lemma WholeSplits(u: Unicode, s: string) returns (tail: string)
    requires MarksPrint(u) && RepoSpelled(u, s) && NormalizeScope(u, s).Some?
    ensures s == Lead(u, s) + Dot(Body(u, s)) + NormalizeScope(u, s).value + tail
    ensures '*' !in Lead(u, s) + Dot(Body(u, s)) && '*' !in tail
  {
    tail := BodySplits(u, s);
    var lead, body := Lead(u, s), Body(u, s);
    assert lead + body == s;
    BlankHasNoMarks(u, lead);
    DotHasNoStar(body);
    Nest(lead, Dot(body), NormalizeScope(u, s).value, tail);
  }

  lemma DotHasNoStar(body: string)
    ensures '*' !in Dot(body)
  {
  }

  lemma Nest(a: string, b: string, c: string, d: string)
    ensures a + (b + c + d) == a + b + c + d
  {
  }

  lemma SameDotsOverlap(u: Unicode, l: string, r: string, path: string)
    requires KeepsMarks(u) && MarksPrint(u) && RepoSpelled(u, l) && RepoSpelled(u, r)
    requires NormalizeScope(u, l).Some? && NormalizeScope(u, r).Some?
    requires var a, b := Body(u, l), Body(u, r);
      a != "" && b != "" && a[0] != '*' && b[0] != '*' && (Dotted(a) <==> Dotted(b))
    requires Matches(path, l) && Matches(path, r)
    ensures ScopesOverlap(u, l, r)
  {
    LeadOnPath(u, l, path);
    LeadOnPath(u, r, path);
    var x := WholeSplits(u, l);
    var y := WholeSplits(u, r);
    assert Dot(Body(u, l)) == Dot(Body(u, r));
    SameFrontOverlaps(u, l, r, Lead(u, path) + Dot(Body(u, l)), path, x, y);
  }

  // ---- and a masked pair shares a path ----------------------------------

  lemma MaskedShares(u: Unicode, file: string, family: string) returns (path: string)
    requires RepoSpelled(u, file) && RepoSpelled(u, family)
    requires NormalizeScope(u, file).Some? && NormalizeScope(u, family).Some? && Masked(file, family)
    ensures Matches(path, file) && Matches(path, family)
  {
    var two := ScopeShape(u, family);
    var front, end := BeforeStar(family), AfterStars(family);
    if '*' in file {
      var more := ScopeShape(u, file);
      var a, e := BeforeStar(file), AfterStars(file);
      PrefixBeforeStar(front + ['/'], file);
      var last := if |e| <= |end| then end else e;
      path := a + last;
      StarFamily(path, a, more, e);
      StarFamily(path, front, two, end);
      assert EndsWith(last, e) && EndsWith(last, end);
      EndsAppend(a, last, e);
      EndsAppend(a, last, end);
    } else {
      path := file;
      MatchesLiteral(file, file);
      StarFamily(path, front, two, end);
      ShortEnd(file, front, end);
    }
  }

  lemma {:induction false} PrefixBeforeStar(p: string, s: string)
    requires '*' !in p && p <= s
    ensures p <= BeforeStar(s)
  {
    assert s == p + s[|p|..];
    StarFree(p, s[|p|..]);
  }

  lemma EndsAppend(a: string, b: string, e: string)
    requires EndsWith(b, e)
    ensures EndsWith(a + b, e)
  {
    assert (a + b)[|a + b| - |e|..] == b[|b| - |e|..];
  }

  lemma InEnd(s: string, k: nat, i: nat)
    requires i < |s| && k <= |s|
    ensures k <= i ==> s[i] in s[k..]
  {
    assert k <= i ==> s[k..][i - k] == s[i];
  }

  lemma ShortEnd(file: string, front: string, end: string)
    requires front + ['/'] <= file && '/' !in end && EndsWith(file, end)
    ensures |front| + |end| <= |file|
  {
    assert file[|front|] == (front + ['/'])[|front|];
    InEnd(file, |file| - |end|, |front|);
  }

  ghost predicate ShareAPath(l: string, r: string) {
    exists path :: Matches(path, l) && Matches(path, r)
  }

  /** Two scopes the request model admits, found apart, share a path exactly when one masks the other. */
  lemma ApartScopesShareAPathExactlyWhen(u: Unicode, l: string, r: string)
    requires KeepsMarks(u) && MarksPrint(u) && RepoSpelled(u, l) && RepoSpelled(u, r) && !ScopesOverlap(u, l, r)
    ensures ShareAPath(l, r) <==> Masked(l, r) || Masked(r, l)
  {
    if ShareAPath(l, r) {
      var path :| Matches(path, l) && Matches(path, r);
      SharedIsMasked(u, l, r, path);
    }
    if Masked(l, r) {
      var path := MaskedShares(u, l, r);
    } else if Masked(r, l) {
      var path := MaskedShares(u, r, l);
    }
  }

  ghost predicate PairwiseApart(u: Unicode, left: seq<string>, right: seq<string>) {
    && (forall s :: s in left + right ==> RepoSpelled(u, s))
    && (forall l, r :: l in left && r in right ==> !ScopesOverlap(u, l, r))
  }

  /** The same of two requests: a path passes both exactly when some pair is masked. */
  lemma RequestsShareAPathExactlyWhen(u: Unicode, left: seq<string>, right: seq<string>)
    requires KeepsMarks(u) && MarksPrint(u) && PairwiseApart(u, left, right)
    ensures (exists path :: InAllowedScope(path, left) && InAllowedScope(path, right)) <==>
      (exists l, r :: l in left && r in right && (Masked(l, r) || Masked(r, l)))
  {
    if path :| InAllowedScope(path, left) && InAllowedScope(path, right) {
      var i :| 0 <= i < |left| && Matches(path, left[i]);
      var j :| 0 <= j < |right| && Matches(path, right[j]);
      assert left[i] in left + right && right[j] in left + right;
      SharedIsMasked(u, left[i], right[j], path);
      assert left[i] in left && right[j] in right;
    }
    if l, r :| l in left && r in right && (Masked(l, r) || Masked(r, l)) {
      assert l in left + right && r in left + right;
      ApartScopesShareAPathExactlyWhen(u, l, r);
      var path :| Matches(path, l) && Matches(path, r);
      assert InAllowedScope(path, left) && InAllowedScope(path, right);
    }
  }

  /** So only scopes that begin with a backtick on both sides can be told apart wrongly. */
  lemma RepoScopesAreSound(u: Unicode, left: seq<string>, right: seq<string>, path: string)
    requires KeepsMarks(u) && MarksPrint(u) && PairwiseApart(u, left, right)
    requires forall l, r :: l in left && r in right ==> !(['`'] <= l && ['`'] <= r)
    ensures !(InAllowedScope(path, left) && InAllowedScope(path, right))
  {
    RequestsShareAPathExactlyWhen(u, left, right);
    forall l, r | l in left && r in right ensures !Masked(l, r) && !Masked(r, l) {
      assert !(['`'] <= l && ['`'] <= r);
    }
  }
}
