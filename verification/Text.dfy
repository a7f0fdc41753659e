/** Strings as sequences of code points: order, splitting, joining and sorted sets. */
module Text {
  /** Code-point order with a proper prefix first: Python's `<` and SQLite's BINARY collation. */
  predicate TextBefore(a: string, b: string) {
    if b == "" then false
    else if a == "" then true
    else if a[0] != b[0] then a[0] < b[0]
    else TextBefore(a[1..], b[1..])
  }

  lemma TextIrreflexive(a: string)
    ensures !TextBefore(a, a)
  {
  }

  lemma {:induction false} TextTotal(a: string, b: string)
    ensures TextBefore(a, b) || a == b || TextBefore(b, a)
  {
    if a != "" && b != "" && a[0] == b[0] {
      TextTotal(a[1..], b[1..]);
      assert a == [a[0]] + a[1..] && b == [b[0]] + b[1..];
    }
  }

  lemma {:induction false} TextTransitive(a: string, b: string, c: string)
    requires TextBefore(a, b) && TextBefore(b, c)
    ensures TextBefore(a, c)
  {
    if a != "" && a[0] == b[0] && b[0] == c[0] {
      TextTransitive(a[1..], b[1..], c[1..]);
    }
  }

  predicate StartsWith(s: string, prefix: string) {
    prefix <= s
  }

  predicate EndsWith(s: string, suffix: string) {
    |suffix| <= |s| && s[|s| - |suffix|..] == suffix
  }

  /** `s.split(sep)`: always at least one piece, none containing the separator. */
  function Split(s: string, sep: char): (pieces: seq<string>)
    ensures pieces != []
    ensures forall i :: 0 <= i < |pieces| ==> sep !in pieces[i]
  {
    if s == "" then [""]
    else
      var rest := Split(s[1..], sep);
      if s[0] == sep then [""] + rest else [[s[0]] + rest[0]] + rest[1..]
  }

  /** `sep.join(pieces)` */
  function Join(pieces: seq<string>, sep: char): string {
    if pieces == [] then ""
    else if |pieces| == 1 then pieces[0]
    else pieces[0] + [sep] + Join(pieces[1..], sep)
  }

  lemma {:induction false} JoinSplit(s: string, sep: char)
    ensures Join(Split(s, sep), sep) == s
  {
    if s != "" {
      var rest := Split(s[1..], sep);
      JoinSplit(s[1..], sep);
      if s[0] == sep {
        assert ([""] + rest)[1..] == rest;
      } else {
        assert ([[s[0]] + rest[0]] + rest[1..])[1..] == rest[1..];
      }
      assert s == [s[0]] + s[1..];
    }
  }

  // ---- sorted sets ------------------------------------------------------

  predicate StrictlySorted(s: seq<string>) {
    forall i, j :: 0 <= i < j < |s| ==> TextBefore(s[i], s[j])
  }

  function Elements(s: seq<string>): (r: set<string>)
    ensures forall x :: x in r <==> x in s
    ensures r == {} <==> s == []
  {
    assert s != [] ==> s[0] in s;
    set x | x in s
  }

  lemma SmallerFront(x: string, s: seq<string>)
    requires StrictlySorted(s) && s != [] && TextBefore(x, s[0])
    ensures StrictlySorted([x] + s) && Elements([x] + s) == Elements(s) + {x}
  {
    forall j | 0 < j < |s| ensures TextBefore(x, s[j]) {
      TextTransitive(x, s[0], s[j]);
    }
  }

  lemma GreaterRest(s: seq<string>, x: string, rest: seq<string>)
    requires StrictlySorted(s) && s != [] && s[0] != x && !TextBefore(x, s[0])
    requires StrictlySorted(rest) && Elements(rest) == Elements(s[1..]) + {x}
    ensures StrictlySorted([s[0]] + rest) && Elements([s[0]] + rest) == Elements(s) + {x}
  {
    TextTotal(x, s[0]);
    assert s == [s[0]] + s[1..];
    forall j | 0 <= j < |rest| ensures TextBefore(s[0], rest[j]) {
      assert rest[j] in Elements(rest);
      assert rest[j] in Elements(s[1..]) + {x};
    }
  }

  /** Insert into a sorted sequence unless already there. */
  function Insert(s: seq<string>, x: string): (r: seq<string>)
    requires StrictlySorted(s)
    ensures StrictlySorted(r) && Elements(r) == Elements(s) + {x}
  {
    if s == [] then [x]
    else if s[0] == x then s
    else if TextBefore(x, s[0]) then
      SmallerFront(x, s);
      [x] + s
    else
      var rest := Insert(s[1..], x);
      GreaterRest(s, x, rest);
      [s[0]] + rest
  }

  /** `sorted(set(s))` */
  function Sorted(s: seq<string>): (r: seq<string>)
    ensures StrictlySorted(r) && Elements(r) == Elements(s)
  {
    if s == [] then []
    else
      assert s == s[..|s| - 1] + [s[|s| - 1]];
      Insert(Sorted(s[..|s| - 1]), s[|s| - 1])
  }

  /** A set has one strictly sorted listing. */
  lemma {:induction false} SortedUnique(a: seq<string>, b: seq<string>)
    requires StrictlySorted(a) && StrictlySorted(b) && Elements(a) == Elements(b)
    ensures a == b
  {
    if a == [] {
      assert Elements(b) == {};
    } else {
      SameLeast(a, b);
      forall x ensures x in a[1..] <==> x in b[1..] {
        TextIrreflexive(x);
        assert x in Elements(a) <==> x in Elements(b);
      }
      SortedUnique(a[1..], b[1..]);
    }
  }

  lemma SameLeast(a: seq<string>, b: seq<string>)
    requires a != [] && b != [] && StrictlySorted(a) && StrictlySorted(b) && Elements(a) == Elements(b)
    ensures a[0] == b[0]
  {
    assert a[0] in Elements(b) && b[0] in Elements(a);
    if a[0] != b[0] {
      TextTransitive(a[0], b[0], a[0]);
      TextIrreflexive(a[0]);
    }
  }
}
