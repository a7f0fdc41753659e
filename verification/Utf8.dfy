/** UTF-8 as in section 3 of RFC 3629, and decoding that survives malformed bytes. */
module Utf8 {
  import opened Wrappers

  type Byte = b: int | 0 <= b < 0x100

  /** A Unicode scalar value: a code point that is not a surrogate. */
  type Scalar = c: int | 0 <= c < 0x11_0000 && !(0xD800 <= c < 0xE000)

  const REPLACEMENT: Scalar := 0xFFFD

  // ---- encoding ---------------------------------------------------------

  function EncodeOne(c: Scalar): (r: seq<Byte>)
    ensures 1 <= |r| <= 4
  {
    if c < 0x80 then [c]
    else if c < 0x800 then [0xC0 + c / 64, 0x80 + c % 64]
    else if c < 0x1_0000 then [0xE0 + c / 64 / 64, 0x80 + c / 64 % 64, 0x80 + c % 64]
    else [0xF0 + c / 64 / 64 / 64, 0x80 + c / 64 / 64 % 64, 0x80 + c / 64 % 64, 0x80 + c % 64]
  }

  function Encode(text: seq<Scalar>): seq<Byte> {
    if text == [] then [] else EncodeOne(text[0]) + Encode(text[1..])
  }

  // ---- decoding ---------------------------------------------------------

  predicate Continuation(b: Byte) {
    0x80 <= b < 0xC0
  }

  /** The length a leading byte announces, or 0 for a byte that cannot lead. */
  function Announced(b: Byte): nat {
    if b < 0x80 then 1
    else if b < 0xC2 then 0
    else if b < 0xE0 then 2
    else if b < 0xF0 then 3
    else if b < 0xF5 then 4
    else 0
  }

  /** No overlong forms, no surrogates, nothing above U+10FFFF. */
  predicate SecondOk(lead: Byte, b: Byte) {
    && Continuation(b)
    && (lead == 0xE0 ==> b >= 0xA0) && (lead == 0xED ==> b < 0xA0)
    && (lead == 0xF0 ==> b >= 0x90) && (lead == 0xF4 ==> b < 0x90)
  }

  /** How many bytes at the front belong together: the well-formed part of one character. */
  function Matched(b: seq<Byte>): (n: nat)
    requires b != []
    ensures 1 <= n <= |b| && n <= 4
  {
    var want := Announced(b[0]);
    if want < 2 || |b| < 2 || !SecondOk(b[0], b[1]) then 1
    else if want < 3 || |b| < 3 || !Continuation(b[2]) then 2
    else if want < 4 || |b| < 4 || !Continuation(b[3]) then 3
    else 4
  }

  predicate Complete(b: seq<Byte>)
    requires b != []
  {
    Matched(b) == Announced(b[0])
  }

  /** Six more bits. */
  function Shift(high: int, b: int): int {
    high * 64 + (b - 0x80)
  }

  function Value(b: seq<Byte>): Scalar
    requires b != [] && Complete(b)
  {
    var n := Announced(b[0]);
    var lead: int := b[0];
    if n == 1 then lead
    else if n == 2 then Shift(lead - 0xC0, b[1])
    else if n == 3 then Shift(Shift(lead - 0xE0, b[1]), b[2])
    else Shift(Shift(Shift(lead - 0xF0, b[1]), b[2]), b[3])
  }

  /** `onError` stands in for each malformed part: U+FFFD to replace it, nothing to ignore it. */
  function Decode(b: seq<Byte>, onError: seq<Scalar>): seq<Scalar>
    decreases |b|
  {
    if b == [] then []
    else (if Complete(b) then [Value(b)] else onError) + Decode(b[Matched(b)..], onError)
  }

  // ---- round trip -------------------------------------------------------

  lemma ShortIsComplete(c: Scalar, b: seq<Byte>)
    requires c < 0x800 && EncodeOne(c) <= b
    ensures Complete(b) && Matched(b) == |EncodeOne(c)| && Value(b) == c
  {
    var one := EncodeOne(c);
    assert b[0] == one[0] && (|one| == 2 ==> b[1] == one[1]);
  }

  lemma ThreeIsComplete(c: Scalar, b: seq<Byte>)
    requires 0x800 <= c < 0x1_0000 && EncodeOne(c) <= b
    ensures Complete(b) && Matched(b) == 3 && Value(b) == c
  {
    var one := EncodeOne(c);
    assert b[0] == one[0] && b[1] == one[1] && b[2] == one[2];
  }

  lemma FourIsComplete(c: Scalar, b: seq<Byte>)
    requires 0x1_0000 <= c && EncodeOne(c) <= b
    ensures Complete(b) && Matched(b) == 4 && Value(b) == c
  {
    var one := EncodeOne(c);
    assert b[0] == one[0] && b[1] == one[1] && b[2] == one[2] && b[3] == one[3];
  }

  lemma EncodedIsComplete(c: Scalar, rest: seq<Byte>)
    ensures Complete(EncodeOne(c) + rest) && Matched(EncodeOne(c) + rest) == |EncodeOne(c)|
    ensures Value(EncodeOne(c) + rest) == c
  {
    var b := EncodeOne(c) + rest;
    if c < 0x800 {
      ShortIsComplete(c, b);
    } else if c < 0x1_0000 {
      ThreeIsComplete(c, b);
    } else {
      FourIsComplete(c, b);
    }
  }

  /** Decoding what was encoded gives the text back, however errors are handled. */
  lemma {:induction false} DecodeEncode(text: seq<Scalar>, onError: seq<Scalar>)
    ensures Decode(Encode(text), onError) == text
  {
    if text != [] {
      var rest := Encode(text[1..]);
      EncodedIsComplete(text[0], rest);
      assert (EncodeOne(text[0]) + rest)[|EncodeOne(text[0])|..] == rest;
      DecodeEncode(text[1..], onError);
      assert text == [text[0]] + text[1..];
    }
  }

  lemma {:induction false} EncodeAppend(a: seq<Scalar>, b: seq<Scalar>)
    ensures Encode(a + b) == Encode(a) + Encode(b)
  {
    if a == [] {
      assert a + b == b;
    } else {
      assert (a + b)[1..] == a[1..] + b;
      EncodeAppend(a[1..], b);
    }
  }

  lemma EncodePrefix(text: seq<Scalar>, i: nat, j: nat)
    requires i <= j <= |text|
    ensures Encode(text[..i]) <= Encode(text[..j]) && |Encode(text[..i])| + (j - i) <= |Encode(text[..j])|
  {
    assert text[..j] == text[..i] + text[i..j];
    EncodeAppend(text[..i], text[i..j]);
    EncodeGrows(text[i..j]);
  }

  lemma {:induction false} EncodeGrows(text: seq<Scalar>)
    ensures |text| <= |Encode(text)| <= 4 * |text|
  {
    if text != [] {
      EncodeGrows(text[1..]);
    }
  }

  // ---- cutting at a byte ------------------------------------------------

  /** `k` is the largest number of whole characters that fit into `n` bytes. */
  predicate Fits(text: seq<Scalar>, n: nat, k: nat) {
    && k <= |text| && |Encode(text[..k])| <= n
    && (k < |text| ==> |Encode(text[..k + 1])| > n)
  }

  function FitCount(text: seq<Scalar>, n: nat): nat {
    if text == [] || |EncodeOne(text[0])| > n then 0 else 1 + FitCount(text[1..], n - |EncodeOne(text[0])|)
  }

  lemma {:induction false} FitCountFits(text: seq<Scalar>, n: nat)
    ensures FitCount(text, n) <= |text| && Fits(text, n, FitCount(text, n))
  {
    if text != [] {
      var c := |EncodeOne(text[0])|;
      assert text[..1][0] == text[0] && text[..1][1..] == [];
      if c <= n {
        var k := FitCount(text[1..], n - c);
        FitCountFits(text[1..], n - c);
        assert text[..k + 1][1..] == text[1..][..k];
        if k + 1 < |text| {
          assert text[..k + 2][1..] == text[1..][..k + 1];
        }
      }
    }
  }

  lemma FitsOnce(text: seq<Scalar>, n: nat, j: nat, k: nat)
    requires Fits(text, n, j) && Fits(text, n, k)
    ensures j == k
  {
    if j < k {
      EncodePrefix(text, j + 1, k);
    } else if k < j {
      EncodePrefix(text, k + 1, j);
    }
  }

  /** A proper, non-empty front of one encoded character is one malformed part. */
  lemma CutCharacter(c: Scalar, n: nat)
    requires 0 < n < |EncodeOne(c)|
    ensures !Complete(EncodeOne(c)[..n]) && Matched(EncodeOne(c)[..n]) == n
  {
  }

  lemma DecodeFirst(c: Scalar, rest: seq<Byte>, onError: seq<Scalar>)
    ensures Decode(EncodeOne(c) + rest, onError) == [c] + Decode(rest, onError)
  {
    EncodedIsComplete(c, rest);
    assert (EncodeOne(c) + rest)[|EncodeOne(c)|..] == rest;
  }

  lemma EncodeFront(text: seq<Scalar>, k: nat)
    requires k < |text|
    ensures text[..k + 1] == [text[0]] + text[1..][..k]
    ensures Encode(text[..k + 1]) == EncodeOne(text[0]) + Encode(text[1..][..k])
  {
    assert text[..k + 1][1..] == text[1..][..k];
  }

  /** The whole characters of a cut text, and one error for what is left. */
  predicate CutDecodes(text: seq<Scalar>, n: nat, onError: seq<Scalar>, k: nat)
    requires n <= |Encode(text)|
  {
    && k <= |text| && |Encode(text[..k])| <= n
    && Decode(Encode(text)[..n], onError) == text[..k] + (if |Encode(text[..k])| < n then onError else [])
  }

  lemma {:induction false} DecodeCut(text: seq<Scalar>, n: nat, onError: seq<Scalar>)
    requires n <= |Encode(text)|
    ensures CutDecodes(text, n, onError, FitCount(text, n))
  {
    if text == [] || n == 0 {
      assert Encode(text)[..n] == [] && text[..0] == [];
    } else if |EncodeOne(text[0])| <= n {
      DecodeCut(text[1..], n - |EncodeOne(text[0])|, onError);
      CutAfterFirst(text, n, onError, FitCount(text[1..], n - |EncodeOne(text[0])|));
    } else {
      var one := EncodeOne(text[0]);
      assert Encode(text)[..n] == one[..n];
      CutCharacter(text[0], n);
      assert one[..n][n..] == [] && text[..0] == [];
    }
  }

  lemma CutAfterFirst(text: seq<Scalar>, n: nat, onError: seq<Scalar>, k: nat)
    requires text != [] && |EncodeOne(text[0])| <= n <= |Encode(text)|
    requires CutDecodes(text[1..], n - |EncodeOne(text[0])|, onError, k)
    ensures CutDecodes(text, n, onError, k + 1)
  {
    var one, rest := EncodeOne(text[0]), Encode(text[1..]);
    var cut := rest[..n - |one|];
    CutPoint(one, rest, n);
    DecodeFirst(text[0], cut, onError);
    EncodeFront(text, k);
    CutGlue(text[0], text[1..][..k], onError, one, Encode(text[1..][..k]), n);
  }

  lemma CutPoint(one: seq<Byte>, rest: seq<Byte>, n: nat)
    requires |one| <= n <= |one| + |rest|
    ensures (one + rest)[..n] == one + rest[..n - |one|]
  {
  }

  lemma CutGlue(c: Scalar, front: seq<Scalar>, onError: seq<Scalar>, one: seq<Byte>, bytes: seq<Byte>, n: nat)
    requires |one| <= n
    ensures [c] + (front + (if |bytes| < n - |one| then onError else []))
      == ([c] + front) + (if |one + bytes| < n then onError else [])
  {
  }
}
