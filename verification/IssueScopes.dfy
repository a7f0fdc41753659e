/**
 * File scopes: how they are normalised, when two may overlap, and what the glob
 * test at apply time lets through.
 */
module IssueScopes {
  import opened Wrappers
  import opened Text

  /** Unicode tables: white space, control and format characters, full case folding. */
  datatype Unicode = Unicode(space: char -> bool, hidden: char -> bool, fold: char -> string)

  /** Case folding neither makes nor breaks a star or a slash. */
  ghost predicate KeepsMarks(u: Unicode) {
    && u.fold('*') == "*" && u.fold('/') == "/"
    && (forall c :: c != '*' ==> '*' !in u.fold(c))
    && (forall c :: c != '/' ==> '/' !in u.fold(c))
  }

  function Fold(u: Unicode, s: string): string {
    if s == "" then "" else u.fold(s[0]) + Fold(u, s[1..])
  }

  // ---- normalisation ----------------------------------------------------

  function StripLeft(s: string, drop: char -> bool): string {
    if s != "" && drop(s[0]) then StripLeft(s[1..], drop) else s
  }

  function StripRight(s: string, drop: char -> bool): (r: string)
    ensures r <= s && (r != "" ==> !drop(r[|r| - 1]))
    ensures forall i :: |r| <= i < |s| ==> drop(s[i])
  {
    if s != "" && drop(s[|s| - 1]) then StripRight(s[..|s| - 1], drop) else s
  }

  function Strip(s: string, drop: char -> bool): string {
    StripRight(StripLeft(s, drop), drop)
  }

  function Replace(s: string, from: char, to: char): string {
    seq(|s|, i requires 0 <= i < |s| => if s[i] == from then to else s[i])
  }

  function Count(s: string, c: char): nat {
    if s == "" then 0 else (if s[0] == c then 1 else 0) + Count(s[1..], c)
  }

  predicate Letter(c: char) {
    'A' <= c <= 'Z' || 'a' <= c <= 'z'
  }

  function KeptParts(parts: seq<string>): seq<string> {
    if parts == [] then []
    else (if parts[0] in {"", "."} then [] else [parts[0]]) + KeptParts(parts[1..])
  }

  function NormalizeRepoPath(u: Unicode, raw: string): Option<string> {
    var candidate := Replace(Strip(raw, u.space), '\\', '/');
    var windows := |candidate| >= 3 && Letter(candidate[0]) && candidate[1] == ':' && candidate[2] == '/';
    if candidate == "" || candidate[0] == '/' || windows || exists i :: 0 <= i < |candidate| && u.hidden(candidate[i])
    then None
    else
      var parts := Split(candidate, '/');
      if ".." in parts || KeptParts(parts) == [] then None
      else Some(Join(KeptParts(parts), '/'))
  }

  predicate Backtick(c: char) {
    c == '`'
  }

  predicate Slash(c: char) {
    c == '/'
  }

  predicate UnsafeMeta(c: char) {
    c in {'?', '[', ']', '{', '}', '!'}
  }

  /** No star, one in the last component, or a final recursive `/` with two. */
  predicate StarsAllowed(candidate: string) {
    var stars, pieces := Count(candidate, '*'), Split(candidate, '/');
    stars == 0 || (stars == 2 && EndsWith(candidate, "/**")) || (stars == 1 && '*' in pieces[|pieces| - 1])
  }

  function NormalizeScope(u: Unicode, raw: string): Option<string> {
    var candidate := Strip(Strip(raw, u.space), Backtick);
    if candidate == "" || exists i :: 0 <= i < |candidate| && UnsafeMeta(candidate[i]) then None
    else if !StarsAllowed(candidate) then None
    else NormalizeRepoPath(u, candidate)
  }

  // ---- overlap ----------------------------------------------------------

  /** `s.split("*", maxsplit=1)[0]` */
  function BeforeStar(s: string): (r: string)
    ensures r <= s && ('*' !in s ==> r == s)
  {
    if s == "" || s[0] == '*' then "" else [s[0]] + BeforeStar(s[1..])
  }

  function WithoutSlashes(s: string): string {
    StripRight(s, Slash)
  }

  predicate ScopesOverlap(u: Unicode, left: string, right: string) {
    var l, r := NormalizeScope(u, left), NormalizeScope(u, right);
    if l.None? || r.None? then true
    else
      var a, b := Fold(u, l.value), Fold(u, r.value);
      var x, y := WithoutSlashes(BeforeStar(a)), WithoutSlashes(BeforeStar(b));
      if '*' in a || '*' in b then StartsWith(x, y) || StartsWith(y, x)
      else a == b || StartsWith(a, y + "/") || StartsWith(b, x + "/")
  }

  // ---- enforcement ------------------------------------------------------

  /** `fnmatchcase` for patterns whose only special character is the star, which crosses slashes. */
  predicate Matches(path: string, scope: string) {
    if scope == "" then path == ""
    else if scope[0] == '*' then Matches(path, scope[1..]) || (path != "" && Matches(path[1..], scope))
    else path != "" && path[0] == scope[0] && Matches(path[1..], scope[1..])
  }

  predicate InAllowedScope(path: string, scopes: seq<string>) {
    exists i :: 0 <= i < |scopes| && Matches(path, scopes[i])
  }

  lemma {:induction false} StarMatchesAll(path: string, stars: string)
    requires stars != "" && forall i :: 0 <= i < |stars| ==> stars[i] == '*'
    ensures Matches(path, stars)
    decreases |stars|, |path|
  {
    if path != "" {
      StarMatchesAll(path[1..], stars);
    } else if |stars| > 1 {
      StarMatchesAll(path, stars[1..]);
    }
  }

  lemma {:induction false} MatchesPrefix(path: string, scope: string)
    requires Matches(path, scope)
    ensures BeforeStar(scope) <= path
  {
    if scope != "" && scope[0] != '*' {
      MatchesPrefix(path[1..], scope[1..]);
    }
  }

  lemma {:induction false} MatchesLiteral(path: string, scope: string)
    requires '*' !in scope
    ensures Matches(path, scope) <==> path == scope
  {
    if scope != "" && path != "" && path[0] == scope[0] {
      MatchesLiteral(path[1..], scope[1..]);
      assert path == [path[0]] + path[1..] && scope == [scope[0]] + scope[1..];
    }
  }

  lemma {:induction false} StarThenLiteral(path: string, b: string)
    requires '*' !in b
    ensures Matches(path, ['*'] + b) <==> EndsWith(path, b)
    decreases |path|
  {
    assert (['*'] + b)[1..] == b;
    MatchesLiteral(path, b);
    if path != "" {
      StarThenLiteral(path[1..], b);
      if |b| < |path| {
        assert path[|path| - |b|..] == path[1..][|path| - 1 - |b|..];
      }
    }
  }

  lemma LongerEnd(path: string, b: string)
    requires path != "" && |b| < |path|
    ensures EndsWith(path, b) <==> EndsWith(path[1..], b)
  {
    assert path[|path| - |b|..] == path[1..][|path| - 1 - |b|..];
  }

  /** A file family `a*b` lets through exactly the paths that start with `a` and end with `b`. */
  lemma {:induction false} FileFamilyMatches(path: string, a: string, b: string)
    requires '*' !in a && '*' !in b
    ensures Matches(path, a + ['*'] + b) <==> |a| + |b| <= |path| && a <= path && EndsWith(path, b)
    decreases |a|
  {
    if a == "" {
      assert a + ['*'] + b == ['*'] + b;
      StarThenLiteral(path, b);
    } else {
      assert (a + ['*'] + b)[1..] == a[1..] + ['*'] + b;
      if path != "" && path[0] == a[0] {
        FileFamilyMatches(path[1..], a[1..], b);
        assert a <= path <==> a[1..] <= path[1..];
        if |a| + |b| <= |path| {
          LongerEnd(path, b);
        }
      }
    }
  }

  /** A recursive scope `a**` lets through exactly the paths that start with `a`. */
  lemma {:induction false} RecursiveMatches(path: string, a: string)
    requires '*' !in a
    ensures Matches(path, a + "**") <==> a <= path
  {
    if a == "" {
      assert a + "**" == "**";
      StarMatchesAll(path, "**");
    } else {
      assert (a + "**")[1..] == a[1..] + "**";
      if path != "" && path[0] == a[0] {
        RecursiveMatches(path[1..], a[1..]);
        assert path == [path[0]] + path[1..] && a == [a[0]] + a[1..];
      }
    }
  }

  // ---- soundness --------------------------------------------------------

  lemma {:induction false} FoldAppend(u: Unicode, a: string, b: string)
    ensures Fold(u, a + b) == Fold(u, a) + Fold(u, b)
  {
    if a == "" {
      assert a + b == b;
    } else {
      assert (a + b)[1..] == a[1..] + b;
      FoldAppend(u, a[1..], b);
    }
  }

  lemma FoldPrefix(u: Unicode, a: string, b: string)
    requires a <= b
    ensures Fold(u, a) <= Fold(u, b)
  {
    assert b == a + b[|a|..];
    FoldAppend(u, a, b[|a|..]);
  }

  lemma {:induction false} FoldBeforeStar(u: Unicode, s: string)
    requires KeepsMarks(u)
    ensures BeforeStar(Fold(u, s)) == Fold(u, BeforeStar(s))
    ensures '*' in Fold(u, s) <==> '*' in s
  {
    if s != "" {
      FoldBeforeStar(u, s[1..]);
      assert s == [s[0]] + s[1..];
      if s[0] != '*' {
        StarFree(u.fold(s[0]), Fold(u, s[1..]));
      }
    }
  }

  lemma {:induction false} StarFree(a: string, b: string)
    requires '*' !in a
    ensures BeforeStar(a + b) == a + BeforeStar(b)
  {
    if a == "" {
      assert a + b == b;
    } else {
      assert (a + b)[1..] == a[1..] + b;
      StarFree(a[1..], b);
    }
  }

  /** Two prefixes of one text stay comparable after their trailing slashes are dropped. */
  lemma StrippedPrefixesCompare(a: string, b: string, whole: string)
    requires a <= whole && b <= whole
    ensures StartsWith(WithoutSlashes(a), WithoutSlashes(b)) || StartsWith(WithoutSlashes(b), WithoutSlashes(a))
  {
    var x, y := WithoutSlashes(a), WithoutSlashes(b);
    assert x <= whole && y <= whole;
  }

  /** Scopes that do not overlap share no path in their normalised form. */
  lemma SeparateScopesAreDisjoint(u: Unicode, left: string, right: string, path: string)
    requires KeepsMarks(u) && !ScopesOverlap(u, left, right)
    ensures NormalizeScope(u, left).Some? && NormalizeScope(u, right).Some?
    ensures !(Matches(path, NormalizeScope(u, left).value) && Matches(path, NormalizeScope(u, right).value))
  {
    var l, r := NormalizeScope(u, left).value, NormalizeScope(u, right).value;
    if Matches(path, l) && Matches(path, r) {
      FoldBeforeStar(u, l);
      FoldBeforeStar(u, r);
      MatchesPrefix(path, l);
      MatchesPrefix(path, r);
      if '*' in l || '*' in r {
        FoldPrefix(u, BeforeStar(l), path);
        FoldPrefix(u, BeforeStar(r), path);
        StrippedPrefixesCompare(BeforeStar(Fold(u, l)), BeforeStar(Fold(u, r)), Fold(u, path));
      } else {
        MatchesLiteral(path, l);
        MatchesLiteral(path, r);
      }
      assert false;
    }
  }

  predicate Canonical(u: Unicode, scope: string) {
    NormalizeScope(u, scope) == Some(scope)
  }

  /** Canonical scopes that do not overlap let no common path through at apply time. */
  lemma CanonicalScopesAreSound(u: Unicode, left: seq<string>, right: seq<string>, path: string)
    requires KeepsMarks(u)
    requires forall s :: s in left + right ==> Canonical(u, s)
    requires forall l, r :: l in left && r in right ==> !ScopesOverlap(u, l, r)
    ensures !(InAllowedScope(path, left) && InAllowedScope(path, right))
  {
    if InAllowedScope(path, left) && InAllowedScope(path, right) {
      var i :| 0 <= i < |left| && Matches(path, left[i]);
      var j :| 0 <= j < |right| && Matches(path, right[j]);
      assert left[i] in left + right && right[j] in left + right;
      SeparateScopesAreDisjoint(u, left[i], right[j], path);
    }
  }

  // ---- scopes that are not canonical ------------------------------------

  predicate Plain(c: char) {
    'a' <= c <= 'z' || c in {'.', '`', '*', '/'}
  }

  /** Lower-case letters and these four marks are visible and fold to themselves. */
  ghost predicate PlainIsPlain(u: Unicode) {
    forall c :: Plain(c) ==> !u.space(c) && !u.hidden(c) && u.fold(c) == [c]
  }

  /** `` `./name `` and `` `.* ``, for any lower-case name. */
  predicate OddPair(file: string, family: string, name: string) {
    && name != "" && (forall i :: 0 <= i < |name| ==> 'a' <= name[i] <= 'z')
    && |family| == 3 && family[0] == '`' && family[1] == '.' && family[2] == '*'
    && |file| == |name| + 3 && file[..2] == family[..2] && file[2] == '/' && file[3..] == name
  }

  lemma Unslashed(s: string)
    requires '/' !in s
    ensures Split(s, '/') == [s]
  {
    if s != "" {
      Unslashed(s[1..]);
      assert s == [s[0]] + s[1..];
    }
  }

  lemma SplitAt(a: string, b: string)
    requires '/' !in a
    ensures Split(a + "/" + b, '/') == [a] + Split(b, '/')
  {
    if a == "" {
      assert (a + "/" + b)[1..] == b;
    } else {
      SplitAt(a[1..], b);
      assert (a + "/" + b)[1..] == a[1..] + "/" + b;
      assert a == [a[0]] + a[1..];
    }
  }

  lemma StripKeeps(s: string, drop: char -> bool)
    requires s != "" && !drop(s[0]) && !drop(s[|s| - 1])
    ensures Strip(s, drop) == s
  {
  }

  lemma StripsFirst(c: char, s: string, drop: char -> bool)
    requires drop(c) && s != "" && !drop(s[0]) && !drop(s[|s| - 1])
    ensures Strip([c] + s, drop) == s
  {
    assert ([c] + s)[1..] == s;
    assert StripLeft([c] + s, drop) == StripLeft(s, drop);
  }

  /** A visible relative path without dot-dot keeps its named parts. */
  lemma PlainRepoPath(u: Unicode, s: string, parts: seq<string>)
    requires s != "" && !u.space(s[0]) && !u.space(s[|s| - 1]) && s[0] != '/' && !Letter(s[0])
    requires forall i :: 0 <= i < |s| ==> s[i] != '\\' && !u.hidden(s[i])
    requires Split(s, '/') == parts && ".." !in parts && KeptParts(parts) != []
    ensures NormalizeRepoPath(u, s) == Some(Join(KeptParts(parts), '/'))
  {
    StripKeeps(s, u.space);
    assert Replace(s, '\\', '/') == s;
  }

  lemma {:induction false} CountNone(s: string, c: char)
    requires c !in s
    ensures Count(s, c) == 0
  {
    if s != "" {
      CountNone(s[1..], c);
    }
  }

  lemma {:induction false} CountAppend(a: string, b: string, c: char)
    ensures Count(a + b, c) == Count(a, c) + Count(b, c)
  {
    if a == "" {
      assert a + b == b;
    } else {
      assert (a + b)[1..] == a[1..] + b;
      CountAppend(a[1..], b, c);
    }
  }

  lemma OnePart(s: string)
    requires '/' !in s && s !in {"", "."}
    ensures Split(s, '/') == [s] && KeptParts([s]) == [s] && Join([s], '/') == s
  {
    Unslashed(s);
    assert [s][1..] == [];
  }

  lemma TwoParts(a: string, b: string)
    requires '/' !in a && '/' !in b && b !in {"", "."}
    ensures Split(a + "/" + b, '/') == [a, b]
    ensures KeptParts([a, b]) == if a in {"", "."} then [b] else [a, b]
    ensures Join([a, b], '/') == a + "/" + b && Join([b], '/') == b
  {
    Unslashed(b);
    SplitAt(a, b);
    OnePart(b);
    assert [a, b][1..] == [b];
  }

  lemma FewStars(candidate: string)
    requires Count(candidate, '*') == 0 || (Count(candidate, '*') == 1 && '/' !in candidate && '*' in candidate)
    ensures StarsAllowed(candidate)
  {
    if '/' !in candidate {
      Unslashed(candidate);
    }
  }

  lemma ScopeIsRepoPath(u: Unicode, raw: string, candidate: string)
    requires raw != "" && !u.space(raw[0]) && !u.space(raw[|raw| - 1]) && Strip(raw, Backtick) == candidate
    requires candidate != "" && StarsAllowed(candidate)
    requires forall i :: 0 <= i < |candidate| ==> Plain(candidate[i])
    ensures NormalizeScope(u, raw) == NormalizeRepoPath(u, candidate)
  {
    StripKeeps(raw, u.space);
    forall i | 0 <= i < |candidate| ensures !UnsafeMeta(candidate[i]) {
      assert Plain(candidate[i]);
    }
  }

  lemma PlainTwoParts(u: Unicode, a: string, b: string)
    requires PlainIsPlain(u) && a != "" && b != "" && b != "." && a != ".." && b != ".."
    requires forall i :: 0 <= i < |a| ==> Plain(a[i]) && a[i] != '/'
    requires forall i :: 0 <= i < |b| ==> Plain(b[i]) && b[i] != '/'
    requires !Letter(a[0])
    ensures NormalizeRepoPath(u, a + "/" + b) == Some(if a == "." then b else a + "/" + b)
  {
    var s := a + "/" + b;
    TwoParts(a, b);
    assert s[0] == a[0] && s[|s| - 1] == b[|b| - 1];
    forall i | 0 <= i < |s| ensures Plain(s[i]) {
      assert s[i] == if i < |a| then a[i] else if i == |a| then '/' else b[i - |a| - 1];
    }
    PlainRepoPath(u, s, [a, b]);
  }

  lemma PlainOnePart(u: Unicode, s: string)
    requires PlainIsPlain(u) && s !in {"", ".", ".."} && !Letter(s[0])
    requires forall i :: 0 <= i < |s| ==> Plain(s[i]) && s[i] != '/'
    ensures NormalizeRepoPath(u, s) == Some(s)
  {
    OnePart(s);
    PlainRepoPath(u, s, [s]);
  }

  lemma OddFileSpelling(u: Unicode, file: string, family: string, name: string)
    requires PlainIsPlain(u) && OddPair(file, family, name)
    ensures NormalizeRepoPath(u, file) == Some(file)
  {
    assert file == file[..2] + "/" + name;
    assert name[0] != '.' && |file[..2]| == 2;
    assert file[..2][0] == '`';
    PlainTwoParts(u, file[..2], name);
  }

  /** The leading backtick hides the dot component, which then disappears. */
  lemma OddFileNormalizes(u: Unicode, file: string, family: string, name: string)
    requires PlainIsPlain(u) && OddPair(file, family, name)
    ensures NormalizeScope(u, file) == Some(name)
  {
    var dot, rest := family[1..2], file[1..];
    assert file[1] == family[1];
    assert rest == dot + "/" + name;
    assert name[0] != '.' && |dot| == 1 && dot[0] == '.';
    PlainTwoParts(u, dot, name);
    OddFileStrips(file, rest);
    CountNone(rest, '*');
    FewStars(rest);
    forall i | 0 <= i < |rest| ensures Plain(rest[i]) {
      assert i > 1 ==> rest[i] == name[i - 2];
    }
    ScopeIsRepoPath(u, file, rest);
  }

  lemma OddFileStrips(file: string, rest: string)
    requires |file| > 2 && file[0] == '`' && file[1] != '`' && file[|file| - 1] != '`' && rest == file[1..]
    ensures Strip(file, Backtick) == rest
  {
    assert file == [file[0]] + rest;
    StripsFirst(file[0], rest, Backtick);
  }

  lemma OddFamilyNormalizes(u: Unicode, file: string, family: string, name: string)
    requires PlainIsPlain(u) && OddPair(file, family, name)
    ensures NormalizeScope(u, family) == Some(family[1..]) && NormalizeRepoPath(u, family) == Some(family)
  {
    var dot, rest, star := family[1..2], family[1..], family[2..];
    assert rest == dot + star && star == [family[2]] && rest[1] == '*';
    PlainOnePart(u, rest);
    PlainOnePart(u, family);
    OddFileStrips(family, rest);
    CountNone(dot, '*');
    CountAppend(dot, star, '*');
    assert star[1..] == "";
    FewStars(rest);
    ScopeIsRepoPath(u, family, rest);
  }

  lemma {:induction false} PlainFolds(u: Unicode, s: string)
    requires PlainIsPlain(u) && forall i :: 0 <= i < |s| ==> Plain(s[i])
    ensures Fold(u, s) == s
  {
    if s != "" {
      PlainFolds(u, s[1..]);
      assert s == [s[0]] + s[1..];
    }
  }

  lemma ApartByPrefix(u: Unicode, left: string, right: string, l: string, r: string)
    requires NormalizeScope(u, left) == Some(l) && NormalizeScope(u, right) == Some(r)
    requires Fold(u, l) == l && Fold(u, r) == r && '*' in r
    requires var x, y := WithoutSlashes(BeforeStar(l)), WithoutSlashes(BeforeStar(r));
      !StartsWith(x, y) && !StartsWith(y, x)
    ensures !ScopesOverlap(u, left, right)
  {
  }

  lemma OddFolds(u: Unicode, file: string, family: string, name: string)
    requires PlainIsPlain(u) && OddPair(file, family, name)
    ensures Fold(u, name) == name && Fold(u, family[1..]) == family[1..]
  {
    PlainFolds(u, name);
    PlainFolds(u, family[1..]);
  }

  lemma OddScopesAreApart(u: Unicode, file: string, family: string, name: string)
    requires PlainIsPlain(u) && OddPair(file, family, name)
    ensures !ScopesOverlap(u, file, family)
  {
    var glob := family[1..];
    OddFileNormalizes(u, file, family, name);
    OddFamilyNormalizes(u, file, family, name);
    OddFolds(u, file, family, name);
    OddPrefixes(glob, name);
    ApartByPrefix(u, file, family, name, glob);
  }

  lemma OddPrefixes(glob: string, name: string)
    requires |glob| == 2 && glob[0] == '.' && glob[1] == '*'
    requires name != "" && forall i :: 0 <= i < |name| ==> 'a' <= name[i] <= 'z'
    ensures '*' in glob
    ensures var x, y := WithoutSlashes(BeforeStar(name)), WithoutSlashes(BeforeStar(glob));
      !StartsWith(x, y) && !StartsWith(y, x)
  {
    assert glob[1..][0] == '*';
    assert BeforeStar(glob[1..]) == "";
    assert [glob[0]] + "" == [glob[0]];
    assert WithoutSlashes(BeforeStar(glob)) == [glob[0]] && WithoutSlashes(BeforeStar(name)) == name;
  }

  /**
   * Off the canonical form soundness fails: both scopes have canonical repository
   * spelling, they are told apart, and one path passes both as written.
   */
  lemma OddScopesShareAPath(u: Unicode, file: string, family: string, name: string)
    requires PlainIsPlain(u) && OddPair(file, family, name)
    ensures NormalizeRepoPath(u, file) == Some(file) && NormalizeRepoPath(u, family) == Some(family)
    ensures !ScopesOverlap(u, file, family)
    ensures Matches(file, file) && Matches(file, family)
    ensures !Canonical(u, file) && !Canonical(u, family)
  {
    OddFileSpelling(u, file, family, name);
    OddFileNormalizes(u, file, family, name);
    OddFamilyNormalizes(u, file, family, name);
    OddScopesAreApart(u, file, family, name);
    OddFileMatches(file, family, name);
  }

  lemma OddFileMatches(file: string, family: string, name: string)
    requires OddPair(file, family, name)
    ensures Matches(file, file) && Matches(file, family)
  {
    assert file == file[..2] + [file[2]] + name;
    MatchesLiteral(file, file);
    var front := family[..2];
    assert front + ['*'] + "" == family;
    FileFamilyMatches(file, front, "");
  }
}
