/** A child process's streams under a byte cap, and the text reported for them. */
module BoundedCapture {
  import opened Wrappers
  import opened Utf8

  // ---- the reported text ------------------------------------------------

  /** The code points of an ASCII literal. */
  function Ascii(s: string): (r: seq<Scalar>)
    requires forall i :: 0 <= i < |s| ==> s[i] < 128 as char
    ensures |r| == |s| && forall i :: 0 <= i < |r| ==> r[i] < 0x80
  {
    seq(|s|, i requires 0 <= i < |s| => s[i] as int)
  }

  /** `[output truncated: byte limit exceeded]` and a newline. */
  function Marker(): (r: seq<Scalar>)
    ensures |r| == 40 && forall i :: 0 <= i < |r| ==> r[i] < 0x80
  {
    Ascii("[output truncated: byte limit exceeded]\n")
  }

  /** `b[:n]` */
  function Take(b: seq<Byte>, n: nat): seq<Byte> {
    if n <= |b| then b[..n] else b
  }

  function DecodeOutput(payload: seq<Byte>, limit: nat, exceeded: bool): (seq<Scalar>, bool) {
    var decoded := Decode(payload, [REPLACEMENT]);
    var marker := Encode(Marker());
    if !exceeded && |Encode(decoded)| <= limit then (decoded, false)
    else if |marker| >= limit then (Decode(Take(marker, limit), []), true)
    else (Decode(Take(Encode(decoded), limit - |marker|), []) + Marker(), true)
  }

  lemma {:induction false} AsciiEncodes(text: seq<Scalar>)
    requires forall i :: 0 <= i < |text| ==> text[i] < 0x80
    ensures |Encode(text)| == |text|
  {
    if text != [] {
      AsciiEncodes(text[1..]);
    }
  }

  /** Taking bytes of encoded text and ignoring the broken end keeps its longest fitting front. */
  lemma TakenText(text: seq<Scalar>, n: nat)
    ensures FitCount(text, n) <= |text| && Fits(text, n, FitCount(text, n))
    ensures Decode(Take(Encode(text), n), []) == text[..FitCount(text, n)]
  {
    FitCountFits(text, n);
    if n <= |Encode(text)| {
      DecodeCut(text, n, []);
    } else {
      DecodeEncode(text, []);
      assert text[..|text|] == text;
      if FitCount(text, n) < |text| {
        EncodePrefix(text, FitCount(text, n) + 1, |text|);
      }
    }
  }

  lemma ShortMarkerFits(limit: nat)
    requires limit <= 40
    ensures |Encode(Decode(Take(Encode(Marker()), limit), []))| <= limit
  {
    TakenText(Marker(), limit);
  }

  lemma HeadAndMarkerFit(decoded: seq<Scalar>, limit: nat)
    requires limit > 40
    ensures |Encode(Decode(Take(Encode(decoded), limit - 40), []) + Marker())| <= limit
  {
    TakenText(decoded, limit - 40);
    AsciiEncodes(Marker());
    EncodeAppend(decoded[..FitCount(decoded, limit - 40)], Marker());
  }

  /** The report never encodes to more than the limit, and is flagged exactly when it was cut. */
  lemma ReportFits(payload: seq<Byte>, limit: nat, exceeded: bool)
    ensures |Encode(DecodeOutput(payload, limit, exceeded).0)| <= limit
    ensures DecodeOutput(payload, limit, exceeded).1
       <==> (exceeded || |Encode(Decode(payload, [REPLACEMENT]))| > limit)
  {
    AsciiEncodes(Marker());
    if limit <= 40 {
      ShortMarkerFits(limit);
    } else {
      HeadAndMarkerFit(Decode(payload, [REPLACEMENT]), limit);
    }
  }

  /** A cut report is the longest front of whole characters that leaves room for the marker. */
  lemma CutReport(payload: seq<Byte>, limit: nat, exceeded: bool)
    requires DecodeOutput(payload, limit, exceeded).1 && limit > 40
    ensures var decoded := Decode(payload, [REPLACEMENT]);
      var k := FitCount(decoded, limit - 40);
      && k <= |decoded| && Fits(decoded, limit - 40, k)
      && DecodeOutput(payload, limit, exceeded).0 == decoded[..k] + Marker()
  {
    AsciiEncodes(Marker());
    TakenText(Decode(payload, [REPLACEMENT]), limit - 40);
  }

  lemma {:induction false} AsciiFits(text: seq<Scalar>, n: nat)
    requires n <= |text| && forall i :: 0 <= i < |text| ==> text[i] < 0x80
    ensures FitCount(text, n) == n
  {
    if n > 0 {
      AsciiFits(text[1..], n - 1);
    }
  }

  /** Under a limit too small for more, a cut report is as much of the marker as fits. */
  lemma SmallReport(payload: seq<Byte>, limit: nat, exceeded: bool)
    requires DecodeOutput(payload, limit, exceeded).1 && limit <= 40
    ensures DecodeOutput(payload, limit, exceeded).0 == Marker()[..limit]
  {
    AsciiEncodes(Marker());
    TakenText(Marker(), limit);
    AsciiFits(Marker(), limit);
  }

  /** Text that fits is reported as it was written. */
  lemma WholeText(text: seq<Scalar>, limit: nat)
    requires |Encode(text)| <= limit
    ensures DecodeOutput(Encode(text), limit, false) == (text, false)
  {
    DecodeEncode(text, [REPLACEMENT]);
  }

  /** The last character cut off is shorter than four bytes. */
  lemma CutIsShort(text: seq<Scalar>, n: nat)
    requires |Encode(text)| > n
    ensures var k := FitCount(text, n); k < |text| && |Encode(text[..k])| + 4 > n
  {
    FitCountFits(text, n);
    var k := FitCount(text, n);
    assert text[..|text|] == text;
    if k < |text| {
      assert text[..k + 1] == text[..k] + [text[k]];
      EncodeAppend(text[..k], [text[k]]);
      assert [text[k]][1..] == [];
    }
  }

  lemma FrontOfFront(text: seq<Scalar>, decoded: seq<Scalar>, k: nat, n: nat)
    requires k <= |text| && k <= |decoded| && decoded[..k] == text[..k] && |Encode(text[..k])| > n
    ensures FitCount(decoded, n) == FitCount(text, n) < k
  {
    FitCountFits(decoded, n);
    FitCountFits(text, n);
    var j := FitCount(decoded, n);
    if j >= k {
      EncodePrefix(decoded, k, j);
    }
    assert decoded[..j] == decoded[..k][..j] && text[..j] == text[..k][..j];
    assert decoded[..j + 1] == decoded[..k][..j + 1] && text[..j + 1] == text[..k][..j + 1];
    FitsOnce(text, n, j, FitCount(text, n));
  }

  /** Captured UTF-8 text over the limit is reported as a whole-character prefix of what was written. */
  lemma TruncatedText(text: seq<Scalar>, limit: nat)
    requires |Encode(text)| > limit > 40
    ensures FitCount(text, limit - 40) <= |text|
    ensures DecodeOutput(Take(Encode(text), limit), limit, true) == (text[..FitCount(text, limit - 40)] + Marker(), true)
  {
    var k := FitCount(text, limit);
    var decoded := Decode(Encode(text)[..limit], [REPLACEMENT]);
    FitCountFits(text, limit - 40);
    DecodeCut(text, limit, [REPLACEMENT]);
    CutIsShort(text, limit);
    assert decoded[..k] == text[..k];
    FrontOfFront(text, decoded, k, limit - 40);
    AsciiEncodes(Marker());
    TakenText(decoded, limit - 40);
    var j := FitCount(text, limit - 40);
    assert decoded[..j] == decoded[..k][..j] && text[..j] == text[..k][..j];
  }

  // ---- the event loop ---------------------------------------------------

  datatype Stream = Stdout | Stderr

  /** What the selector reports: a chunk read (none at end of file), or stdin taking some bytes. */
  datatype Event =
    | Chunk(stream: Stream, bytes: seq<Byte>, consumed: bool)
    | StdinTook(count: nat)
    | StdinBroken

  /** One output stream: what was captured, what its consumer was fed, and whether it is open. */
  datatype Capture = Capture(buffer: seq<Byte>, fed: seq<Byte>, accepted: nat, exceeded: bool, isOpen: bool)

  datatype Pump = Pump(stdout: Capture, stderr: Capture, written: seq<Byte>, stdinOpen: bool)

  const CHUNK: nat := 65_536

  /** Everything read from a stream before its end of file. */
  function BytesRead(events: seq<Event>, stream: Stream): seq<Byte> {
    if events == [] || EndOfFile(events[0], stream) then []
    else
      (if events[0].Chunk? && events[0].stream == stream then events[0].bytes else [])
      + BytesRead(events[1..], stream)
  }

  predicate EndOfFile(e: Event, stream: Stream) {
    e.Chunk? && e.stream == stream && e.bytes == []
  }

  /** One chunk of one stream. */
  function Absorb(c: Capture, bytes: seq<Byte>, limit: nat, keep: bool): Capture {
    if !c.isOpen then c
    else if bytes == [] then c.(isOpen := false)
    else
      var available := limit - c.accepted;
      var taken := Take(bytes, if available > 0 then available else 0);
      Capture(if available > 0 && keep then c.buffer + taken else c.buffer,
              c.fed + taken, c.accepted + |taken|, c.exceeded || |bytes| > available, true)
  }

  /** The stream holds exactly the first bytes of what was read, up to the limit. */
  predicate Holds(c: Capture, read: seq<Byte>, limit: nat, keep: bool) {
    && c.fed == Take(read, limit)
    && c.buffer == (if keep then c.fed else [])
    && c.accepted == |c.fed|
    && (c.exceeded <==> |read| > limit)
  }

  lemma AbsorbHolds(c: Capture, read: seq<Byte>, bytes: seq<Byte>, limit: nat, keep: bool)
    requires Holds(c, read, limit, keep) && c.isOpen && bytes != []
    ensures Holds(Absorb(c, bytes, limit, keep), read + bytes, limit, keep)
  {
    var available := limit - c.accepted;
    if |read| <= limit {
      assert Take(read, limit) + Take(bytes, available) == Take(read + bytes, limit);
    } else {
      assert Take(read, limit) + Take(bytes, 0) == Take(read + bytes, limit);
    }
  }

  /** What remains to be read of a stream is the same seen before or after one event. */
  lemma ReadOne(events: seq<Event>, k: nat, stream: Stream)
    requires k < |events|
    ensures BytesRead(events[k..], stream)
      == if EndOfFile(events[k], stream) then []
         else (if events[k].Chunk? && events[k].stream == stream then events[k].bytes else [])
              + BytesRead(events[k + 1..], stream)
  {
    assert events[k..][1..] == events[k + 1..];
  }

  /** Part way: the stream holds what it has read, and `coming` completes it. */
  predicate PartWay(c: Capture, all: seq<Byte>, coming: seq<Byte>, limit: nat, keep: bool) {
    if c.isOpen then
      |coming| <= |all| && all[|all| - |coming|..] == coming && Holds(c, all[..|all| - |coming|], limit, keep)
    else Holds(c, all, limit, keep)
  }

  lemma Suffix(all: seq<Byte>, bytes: seq<Byte>, later: seq<Byte>)
    requires |bytes + later| <= |all| && all[|all| - |bytes + later|..] == bytes + later
    ensures all[|all| - |later|..] == later
    ensures all[..|all| - |later|] == all[..|all| - |bytes + later|] + bytes
  {
    var n := |all| - |bytes + later|;
    assert all == all[..n] + (bytes + later);
    assert all == (all[..n] + bytes) + later;
  }

  lemma AbsorbChunk(c: Capture, all: seq<Byte>, bytes: seq<Byte>, later: seq<Byte>, limit: nat, keep: bool)
    requires PartWay(c, all, bytes + later, limit, keep) && c.isOpen && bytes != []
    ensures PartWay(Absorb(c, bytes, limit, keep), all, later, limit, keep)
  {
    Suffix(all, bytes, later);
    AbsorbHolds(c, all[..|all| - |bytes + later|], bytes, limit, keep);
  }

  lemma AbsorbEnd(c: Capture, all: seq<Byte>, later: seq<Byte>, limit: nat, keep: bool)
    requires PartWay(c, all, [], limit, keep)
    ensures PartWay(Absorb(c, [], limit, keep), all, later, limit, keep)
  {
    assert all[..|all|] == all;
  }

  /** One event moves its own stream on and leaves the other part way. */
  lemma AbsorbNext(c: Capture, all: seq<Byte>, events: seq<Event>, k: nat, stream: Stream, limit: nat, keep: bool)
    requires k < |events| && PartWay(c, all, BytesRead(events[k..], stream), limit, keep)
    ensures PartWay(AfterEvent(c, events[k], stream, limit, keep), all, BytesRead(events[k + 1..], stream), limit, keep)
  {
    var e := events[k];
    var later := BytesRead(events[k + 1..], stream);
    ReadOne(events, k, stream);
    if e.Chunk? && e.stream == stream {
      if e.bytes == [] {
        AbsorbEnd(c, all, later, limit, keep);
      } else if c.isOpen {
        AbsorbChunk(c, all, e.bytes, later, limit, keep);
      }
    } else {
      assert [] + later == later;
    }
  }

  function AfterEvent(c: Capture, e: Event, stream: Stream, limit: nat, keep: bool): Capture {
    if e.Chunk? && e.stream == stream then Absorb(c, e.bytes, limit, keep) else c
  }

  lemma TookPrefix(input: seq<Byte>, offset: nat, count: nat)
    requires offset <= |input|
    ensures var took := Take(Take(input[offset..], CHUNK), count);
      offset + |took| <= |input| && input[..offset] + took == input[..offset + |took|]
  {
    var took := Take(Take(input[offset..], CHUNK), count);
    assert took == input[offset..offset + |took|];
  }

  /** The chunk gave the consumer bytes, and it raised. */
  predicate Raises(c: Capture, bytes: seq<Byte>, consumed: bool, limit: nat) {
    !consumed && c.isOpen && bytes != [] && limit > c.accepted
  }

  /** Stdin takes what the pipe accepts of the next piece and is closed when done or stuck. */
  function Feed(s: Pump, input: seq<Byte>, count: nat): (t: Pump)
    requires s.written <= input
    ensures t.written <= input && s.written <= t.written && t.stdout == s.stdout && t.stderr == s.stderr
  {
    var offset := |s.written|;
    var took := Take(Take(input[offset..], CHUNK), count);
    TookPrefix(input, offset, count);
    s.(written := s.written + took, stdinOpen := took != [] && offset + |took| < |input|)
  }

  function Smaller(a: nat, b: nat): nat {
    if a <= b then a else b
  }

  /** What the pipe offers to take before it breaks or takes nothing, at most a chunk at a time. */
  function Offered(events: seq<Event>): nat {
    if events == [] || events[0].StdinBroken? || (events[0].StdinTook? && events[0].count == 0) then 0
    else (if events[0].StdinTook? then Smaller(events[0].count, CHUNK) else 0) + Offered(events[1..])
  }

  /** `coming` is what the pipe still offers; an open stdin has something left to write. */
  predicate Feeding(s: Pump, input: seq<Byte>, coming: nat, total: nat) {
    && s.written <= input && total <= |input|
    && if s.stdinOpen then |s.written| < |input| && total == Smaller(|input|, |s.written| + coming)
       else |s.written| == total
  }

  function FeedNext(s: Pump, e: Event, input: seq<Byte>): Pump
    requires s.written <= input
  {
    match e
    case StdinTook(count) => if s.stdinOpen then Feed(s, input, count) else s
    case StdinBroken => s.(stdinOpen := false)
    case Chunk(_, _, _) => s
  }

  lemma FeedsOn(s: Pump, events: seq<Event>, k: nat, input: seq<Byte>, total: nat)
    requires k < |events| && Feeding(s, input, Offered(events[k..]), total)
    ensures Feeding(FeedNext(s, events[k], input), input, Offered(events[k + 1..]), total)
  {
    assert events[k..][1..] == events[k + 1..] && events[k..][0] == events[k];
  }

  // ---- a consumer that raises -------------------------------------------

  /** Chunk `k` reaches a consumer that raises: its stream is open and still below the limit. */
  predicate Fails(events: seq<Event>, k: nat, limit: nat) {
    && k < |events| && events[k].Chunk? && !events[k].consumed && events[k].bytes != []
    && (forall i :: 0 <= i < k ==> !EndOfFile(events[i], events[k].stream))
    && |BytesRead(events[..k], events[k].stream)| < limit
  }

  /** The capture knows whether its stream has ended, and how much of the limit is used. */
  predicate Tracks(c: Capture, events: seq<Event>, k: nat, stream: Stream, limit: nat)
    requires k <= |events|
  {
    && (c.isOpen <==> forall i :: 0 <= i < k ==> !EndOfFile(events[i], stream))
    && c.accepted == Smaller(|BytesRead(events[..k], stream)|, limit)
  }

  lemma {:induction false} ReadOn(events: seq<Event>, e: Event, stream: Stream)
    ensures (forall i :: 0 <= i < |events| ==> !EndOfFile(events[i], stream)) ==>
      BytesRead(events + [e], stream) == BytesRead(events, stream)
        + (if e.Chunk? && e.stream == stream then e.bytes else [])
    ensures !(forall i :: 0 <= i < |events| ==> !EndOfFile(events[i], stream)) ==>
      BytesRead(events + [e], stream) == BytesRead(events, stream)
  {
    if events == [] {
      assert events + [e] == [e] && [e][1..] == [];
    } else {
      assert (events + [e])[1..] == events[1..] + [e] && (events + [e])[0] == events[0];
      ReadOn(events[1..], e, stream);
      assert forall i :: 1 <= i < |events| ==> events[i] == events[1..][i - 1];
    }
  }

  lemma TracksOn(c: Capture, events: seq<Event>, k: nat, stream: Stream, limit: nat, keep: bool)
    requires k < |events| && Tracks(c, events, k, stream, limit)
    ensures Tracks(AfterEvent(c, events[k], stream, limit, keep), events, k + 1, stream, limit)
  {
    assert events[..k + 1] == events[..k] + [events[k]];
    assert forall i :: 0 <= i < k ==> events[..k][i] == events[i];
    ReadOn(events[..k], events[k], stream);
  }

  lemma FailsWhen(c: Capture, events: seq<Event>, k: nat, limit: nat)
    requires k < |events| && events[k].Chunk? && Tracks(c, events, k, events[k].stream, limit)
    ensures Raises(c, events[k].bytes, events[k].consumed, limit) <==> Fails(events, k, limit)
  {
  }

  /** One event: stdin is fed or closed, or a chunk is read, handed on and kept. */
  method React(s: Pump, e: Event, limit: nat, input: seq<Byte>, captureStdout: bool) returns (r: Option<Pump>)
    requires s.written <= input
    ensures r.Some? ==>
      && r.value.stdout == AfterEvent(s.stdout, e, Stdout, limit, captureStdout)
      && r.value.stderr == AfterEvent(s.stderr, e, Stderr, limit, true)
      && (r.value.written, r.value.stdinOpen) == (FeedNext(s, e, input).written, FeedNext(s, e, input).stdinOpen)
    ensures r.None? <==>
      e.Chunk? && Raises(if e.stream.Stdout? then s.stdout else s.stderr, e.bytes, e.consumed, limit)
  {
    match e {
      case StdinTook(count) =>
        return Some(if s.stdinOpen then Feed(s, input, count) else s);
      case StdinBroken =>
        return Some(s.(stdinOpen := false));
      case Chunk(Stdout, bytes, consumed) =>
        if Raises(s.stdout, bytes, consumed, limit) {
          return None;
        }
        return Some(s.(stdout := Absorb(s.stdout, bytes, limit, captureStdout)));
      case Chunk(Stderr, bytes, consumed) =>
        if Raises(s.stderr, bytes, consumed, limit) {
          return None;
        }
        return Some(s.(stderr := Absorb(s.stderr, bytes, limit, true)));
    }
  }

  /** The state before event `k`: both streams part way, stdin part way, and no consumer has raised. */
  ghost predicate Draining(s: Pump, events: seq<Event>, k: nat, limit: nat, input: seq<Byte>, keep: bool)
    requires k <= |events|
  {
    && Feeding(s, input, Offered(events[k..]), Smaller(|input|, Offered(events)))
    && Tracks(s.stdout, events, k, Stdout, limit) && Tracks(s.stderr, events, k, Stderr, limit)
    && PartWay(s.stdout, BytesRead(events, Stdout), BytesRead(events[k..], Stdout), limit, keep)
    && PartWay(s.stderr, BytesRead(events, Stderr), BytesRead(events[k..], Stderr), limit, true)
    && forall i :: 0 <= i < k ==> !Fails(events, i, limit)
  }

  lemma DrainsOn(s: Pump, t: Pump, events: seq<Event>, k: nat, limit: nat, input: seq<Byte>, keep: bool)
    requires k < |events| && Draining(s, events, k, limit, input, keep) && !Fails(events, k, limit)
    requires t.stdout == AfterEvent(s.stdout, events[k], Stdout, limit, keep)
    requires t.stderr == AfterEvent(s.stderr, events[k], Stderr, limit, true)
    requires (t.written, t.stdinOpen) == (FeedNext(s, events[k], input).written, FeedNext(s, events[k], input).stdinOpen)
    ensures Draining(t, events, k + 1, limit, input, keep)
  {
    AbsorbNext(s.stdout, BytesRead(events, Stdout), events, k, Stdout, limit, keep);
    AbsorbNext(s.stderr, BytesRead(events, Stderr), events, k, Stderr, limit, true);
    TracksOn(s.stdout, events, k, Stdout, limit, keep);
    TracksOn(s.stderr, events, k, Stderr, limit, true);
    FeedsOn(s, events, k, input, Smaller(|input|, Offered(events)));
  }

  lemma DrainBegins(events: seq<Event>, limit: nat, input: seq<Byte>, keep: bool)
    ensures var c := Capture([], [], 0, false, true);
      Draining(Pump(c, c, [], input != []), events, 0, limit, input, keep)
  {
    assert events[0..] == events && events[..0] == [];
  }

  lemma DrainEnds(s: Pump, events: seq<Event>, limit: nat, input: seq<Byte>, keep: bool)
    requires Draining(s, events, |events|, limit, input, keep)
    ensures Holds(s.stdout, BytesRead(events, Stdout), limit, keep)
    ensures Holds(s.stderr, BytesRead(events, Stderr), limit, true)
    ensures s.written == input[..Smaller(|input|, Offered(events))]
  {
    assert events[|events|..] == [];
    Ended(s.stdout, BytesRead(events, Stdout), limit, keep);
    Ended(s.stderr, BytesRead(events, Stderr), limit, true);
    assert s.written == input[..|s.written|];
  }

  lemma FailsAt(s: Pump, events: seq<Event>, k: nat, limit: nat, input: seq<Byte>, keep: bool)
    requires k < |events| && Draining(s, events, k, limit, input, keep)
    ensures Fails(events, k, limit) <==>
      events[k].Chunk?
      && Raises(if events[k].stream.Stdout? then s.stdout else s.stderr, events[k].bytes, events[k].consumed, limit)
  {
    if events[k].Chunk? {
      FailsWhen(if events[k].stream.Stdout? then s.stdout else s.stderr, events, k, limit);
    }
  }

  /**
   * The loop over selector events.  It ends with an error exactly when a chunk
   * reaches a consumer that raises; otherwise every stream holds the first bytes
   * read and stdin was written as far as the pipe took it, whatever the interleaving.
   */
  method Drain(events: seq<Event>, limit: nat, input: seq<Byte>, captureStdout: bool)
    returns (r: Option<Pump>)
    ensures r.Some? ==>
      && Holds(r.value.stdout, BytesRead(events, Stdout), limit, captureStdout)
      && Holds(r.value.stderr, BytesRead(events, Stderr), limit, true)
      && r.value.written == input[..Smaller(|input|, Offered(events))]
    ensures r.None? <==> exists i :: 0 <= i < |events| && Fails(events, i, limit)
  {
    var s := Pump(Capture([], [], 0, false, true), Capture([], [], 0, false, true), [], input != []);
    DrainBegins(events, limit, input, captureStdout);
    var k := 0;
    while k < |events|
      invariant 0 <= k <= |events| && Draining(s, events, k, limit, input, captureStdout)
    {
      FailsAt(s, events, k, limit, input, captureStdout);
      var next := React(s, events[k], limit, input, captureStdout);
      if next.None? {
        return None;
      }
      DrainsOn(s, next.value, events, k, limit, input, captureStdout);
      s := next.value;
      k := k + 1;
    }
    DrainEnds(s, events, limit, input, captureStdout);
    return Some(s);
  }

  lemma Ended(c: Capture, all: seq<Byte>, limit: nat, keep: bool)
    requires PartWay(c, all, [], limit, keep)
    ensures Holds(c, all, limit, keep)
  {
    assert all[..|all|] == all;
  }

  /**
   * End to end: a stream on which UTF-8 text was written is reported as that text,
   * or as its longest whole-character front that leaves room for the marker.
   */
  lemma ReportedText(c: Capture, text: seq<Scalar>, limit: nat)
    requires Holds(c, Encode(text), limit, true) && limit > 40
    ensures FitCount(text, limit - 40) <= |text|
    ensures DecodeOutput(c.buffer, limit, c.exceeded)
      == if |Encode(text)| <= limit then (text, false) else (text[..FitCount(text, limit - 40)] + Marker(), true)
  {
    if |Encode(text)| <= limit {
      assert Take(Encode(text), limit) == Encode(text);
      WholeText(text, limit);
      FitCountFits(text, limit - 40);
    } else {
      TruncatedText(text, limit);
    }
  }
}
