/**
 The multiplexed container log stream: frames of an 8-byte header (stream tag,
 three padding bytes, big-endian 32-bit length) followed by the payload.
 */
module LogFraming {

  type Byte = b: int | 0 <= b < 256

  const WORD := 0x1_0000_0000

  const NEWLINE: Byte := 10

  datatype Stream = Stdout | Stderr

  datatype LogLine = LogLine(stream: Stream, text: seq<Byte>)

  /** A frame as it lies in the stream: the header before the length, and the payload. */
  datatype Frame = Frame(prefix: seq<Byte>, payload: seq<Byte>)

  ghost predicate Legal(f: Frame) {
    |f.prefix| == 4 && |f.payload| < WORD
  }

  function Length(b: seq<Byte>): nat
    requires |b| == 4
  {
    ((b[0] as int * 256 + b[1]) * 256 + b[2]) * 256 + b[3]
  }

  function LengthBytes(n: nat): seq<Byte>
    requires n < WORD
  {
    [n / 256 / 256 / 256, n / 256 / 256 % 256, n / 256 % 256, n % 256]
  }

  lemma LengthRoundTrip(n: nat)
    requires n < WORD
    ensures Length(LengthBytes(n)) == n
  {
  }

  lemma LengthInverse(b: seq<Byte>)
    requires |b| == 4
    ensures Length(b) < WORD && LengthBytes(Length(b)) == b
  {
    var hi: int := b[0] as int * 256 + b[1];
    var mid: int := hi * 256 + b[2];
    assert Length(b) == mid * 256 + b[3];
    assert Length(b) / 256 == mid && mid / 256 == hi && hi / 256 == b[0];
  }

  function Chomp(text: seq<Byte>): seq<Byte> {
    if text != [] && text[|text| - 1] == NEWLINE then text[..|text| - 1] else text
  }

  /** `text` is the payload without the newline it ends in, if it ends in one. */
  ghost predicate LessNewline(payload: seq<Byte>, text: seq<Byte>) {
    if payload != [] && payload[|payload| - 1] == 10 then text + [10] == payload else text == payload
  }

  lemma ChompLess(text: seq<Byte>)
    ensures LessNewline(text, Chomp(text))
  {
  }

  function Line(f: Frame): LogLine
    requires |f.prefix| == 4
  {
    LogLine(if f.prefix[0] == 2 then Stderr else Stdout, Chomp(f.payload))
  }

  function Render(f: Frame): seq<Byte>
    requires Legal(f)
  {
    f.prefix + LengthBytes(|f.payload|) + f.payload
  }

  /** Where things are in a frame: tag first, the length from byte 4 to 7, the most
      significant byte first, and the payload from byte 8. */
  lemma FrameLayout(f: Frame)
    requires Legal(f)
    ensures var b := Render(f);
            && |b| == 8 + |f.payload| && b[..4] == f.prefix && b[8..] == f.payload
            && b[4] as int * 0x100_0000 + b[5] as int * 0x1_0000 + b[6] as int * 0x100 + b[7] == |f.payload|
  {
    var n, b := |f.payload|, Render(f);
    assert b[4..8] == LengthBytes(n);
    assert b[4] == b[4..8][0] && b[5] == b[4..8][1] && b[6] == b[4..8][2] && b[7] == b[4..8][3];
    assert n == n / 256 * 256 + n % 256;
    assert n / 256 == n / 256 / 256 * 256 + n / 256 % 256;
    assert n / 256 / 256 == n / 256 / 256 / 256 * 256 + n / 256 / 256 % 256;
  }

  ghost predicate AllLegal(fs: seq<Frame>) {
    forall i :: 0 <= i < |fs| ==> Legal(fs[i])
  }

  function RenderAll(fs: seq<Frame>): seq<Byte>
    requires AllLegal(fs)
  {
    if fs == [] then [] else Render(fs[0]) + RenderAll(fs[1..])
  }

  function Lines(fs: seq<Frame>): seq<LogLine>
    requires AllLegal(fs)
  {
    seq(|fs|, i requires 0 <= i < |fs| => Line(fs[i]))
  }

  /** The bytes do not begin with a whole frame. */
  predicate Incomplete(b: seq<Byte>) {
    |b| < 8 || |b| < 8 + Length(b[4..8])
  }

  function FirstFrame(b: seq<Byte>): (f: Frame)
    requires !Incomplete(b)
    ensures |f.prefix| == 4
  {
    Frame(b[..4], b[8..8 + Length(b[4..8])])
  }

  function AfterFirst(b: seq<Byte>): (rest: seq<Byte>)
    requires !Incomplete(b)
    ensures |rest| < |b|
  {
    b[8 + Length(b[4..8])..]
  }

  /** What the decoding loops emit on a stream. */
  function Decode(b: seq<Byte>): seq<LogLine>
    decreases |b|
  {
    if Incomplete(b) then [] else [Line(FirstFrame(b))] + Decode(AfterFirst(b))
  }

  lemma FirstOfRendered(f: Frame, rest: seq<Byte>)
    requires Legal(f)
    ensures !Incomplete(Render(f) + rest)
    ensures FirstFrame(Render(f) + rest) == f && AfterFirst(Render(f) + rest) == rest
  {
    var b := Render(f) + rest;
    assert b[4..8] == LengthBytes(|f.payload|);
    LengthRoundTrip(|f.payload|);
    assert b[..4] == f.prefix;
    assert b[8..8 + |f.payload|] == f.payload;
  }

  lemma RenderedFirst(b: seq<Byte>)
    requires !Incomplete(b)
    ensures Legal(FirstFrame(b)) && b == Render(FirstFrame(b)) + AfterFirst(b)
  {
    LengthInverse(b[4..8]);
    assert b == b[..4] + b[4..8] + b[8..8 + Length(b[4..8])] + b[8 + Length(b[4..8])..];
  }

  lemma {:induction false} LinesCons(fs: seq<Frame>)
    requires AllLegal(fs) && fs != []
    ensures Lines(fs) == [Line(fs[0])] + Lines(fs[1..])
  {
  }

  /** The whole frames at the start of the stream, and what follows them. */
  function Frames(b: seq<Byte>): seq<Frame>
    decreases |b|
  {
    if Incomplete(b) then [] else [FirstFrame(b)] + Frames(AfterFirst(b))
  }

  function Rest(b: seq<Byte>): seq<Byte>
    decreases |b|
  {
    if Incomplete(b) then b else Rest(AfterFirst(b))
  }

  lemma {:induction false} FramesAreLegal(b: seq<Byte>)
    ensures AllLegal(Frames(b)) && Incomplete(Rest(b))
    decreases |b|
  {
    if !Incomplete(b) {
      RenderedFirst(b);
      FramesAreLegal(AfterFirst(b));
    }
  }

  lemma Glue(b: seq<Byte>, first: seq<Byte>, after: seq<Byte>, more: seq<Byte>, rest: seq<Byte>)
    requires b == first + after && after == more + rest
    ensures b == first + more + rest
  {
  }

  lemma {:induction false} FramesRender(b: seq<Byte>)
    requires AllLegal(Frames(b))
    ensures b == RenderAll(Frames(b)) + Rest(b)
    decreases |b|
  {
    if !Incomplete(b) {
      var f, fs := FirstFrame(b), Frames(AfterFirst(b));
      RenderedFirst(b);
      FramesAreLegal(AfterFirst(b));
      FramesRender(AfterFirst(b));
      Glue(b, Render(f), AfterFirst(b), RenderAll(fs), Rest(b));
      assert Frames(b)[0] == f && Frames(b)[1..] == fs;
    }
  }

  lemma {:induction false} FramesAreDecoded(b: seq<Byte>)
    requires AllLegal(Frames(b))
    ensures Decode(b) == Lines(Frames(b))
    decreases |b|
  {
    if !Incomplete(b) {
      FramesAreLegal(AfterFirst(b));
      FramesAreDecoded(AfterFirst(b));
      assert Frames(b)[1..] == Frames(AfterFirst(b));
      LinesCons(Frames(b));
    }
  }

  /** Every byte string is its whole frames followed by an unfinished rest, and the
      loops emit one line for each of the frames: of the error stream exactly for the
      tag 2, with the payload less one trailing newline. */
  lemma DecodeSplits(b: seq<Byte>)
    ensures AllLegal(Frames(b)) && Incomplete(Rest(b))
    ensures b == RenderAll(Frames(b)) + Rest(b)
    ensures Decode(b) == Lines(Frames(b)) && |Decode(b)| == |Frames(b)|
    ensures forall i :: 0 <= i < |Frames(b)| ==>
              && (Decode(b)[i].stream == Stderr <==> Frames(b)[i].prefix[0] == 2)
              && LessNewline(Frames(b)[i].payload, Decode(b)[i].text)
  {
    FramesAreLegal(b);
    FramesRender(b);
    FramesAreDecoded(b);
    forall i | 0 <= i < |Frames(b)|
      ensures LessNewline(Frames(b)[i].payload, Decode(b)[i].text)
    {
      ChompLess(Frames(b)[i].payload);
    }
  }

  /** There is no other way to read the stream: whatever legal frames and unfinished
      rest it was put together from are the ones found. */
  lemma {:induction false} SplitIsUnique(fs: seq<Frame>, rest: seq<Byte>)
    requires AllLegal(fs) && Incomplete(rest)
    ensures Frames(RenderAll(fs) + rest) == fs && Rest(RenderAll(fs) + rest) == rest
  {
    if fs == [] {
      assert RenderAll(fs) + rest == rest;
    } else {
      var tail := RenderAll(fs[1..]) + rest;
      assert RenderAll(fs) + rest == Render(fs[0]) + tail;
      FirstOfRendered(fs[0], tail);
      SplitIsUnique(fs[1..], rest);
    }
  }

  /** Whole frames followed by an unfinished one decode to exactly those frames. */
  lemma DecodeRendered(fs: seq<Frame>, rest: seq<Byte>)
    requires AllLegal(fs) && Incomplete(rest)
    ensures Decode(RenderAll(fs) + rest) == Lines(fs)
  {
    SplitIsUnique(fs, rest);
    DecodeSplits(RenderAll(fs) + rest);
  }

  function Encode(tag: Byte, payload: seq<Byte>): Frame {
    Frame([tag, 0, 0, 0], payload)
  }

  /** Encoding tagged payloads and decoding them gives back every tag and every
      payload less one trailing newline. */
  lemma EncodeRoundTrip(tags: seq<Byte>, payloads: seq<seq<Byte>>)
    requires |tags| == |payloads|
    requires forall i :: 0 <= i < |payloads| ==> |payloads[i]| < WORD
    ensures var fs := seq(|tags|, i requires 0 <= i < |tags| => Encode(tags[i], payloads[i]));
            && AllLegal(fs)
            && var out := Decode(RenderAll(fs));
            && |out| == |tags|
            && forall i :: 0 <= i < |tags| ==>
                 (out[i].stream == Stderr <==> tags[i] == 2) && LessNewline(payloads[i], out[i].text)
  {
    var fs := seq(|tags|, i requires 0 <= i < |tags| => Encode(tags[i], payloads[i]));
    assert RenderAll(fs) + [] == RenderAll(fs);
    SplitIsUnique(fs, []);
    DecodeSplits(RenderAll(fs));
  }

  /** What has been emitted on part of a stream is never taken back. */
  lemma {:induction false} DecodePrefix(b: seq<Byte>, more: seq<Byte>)
    ensures Decode(b) <= Decode(b + more)
    decreases |b|
  {
    if !Incomplete(b) {
      assert (b + more)[4..8] == b[4..8];
      assert FirstFrame(b + more) == FirstFrame(b);
      assert AfterFirst(b + more) == AfterFirst(b) + more;
      DecodePrefix(AfterFirst(b), more);
    }
  }

  // ------------------------------------------------------------------------
  // Reading the stream
  // ------------------------------------------------------------------------

  function Flatten(chunks: seq<seq<Byte>>): seq<Byte> {
    if chunks == [] then [] else chunks[0] + Flatten(chunks[1..])
  }

  /** A reader that hands out its data in arbitrary, possibly empty, pieces. */
  class Reader {
    var chunks: seq<seq<Byte>>

    ghost function Remaining(): seq<Byte>
      reads this
    {
      Flatten(chunks)
    }

    constructor (chunks: seq<seq<Byte>>)
      ensures this.chunks == chunks
    {
      this.chunks := chunks;
    }

    /** At most `limit` bytes of the next piece. */
    method Read(limit: nat) returns (got: seq<Byte>)
      requires chunks != [] && limit > 0
      modifies this
      ensures |got| <= limit && old(Remaining()) == got + Remaining()
      ensures |chunks| < |old(chunks)| || |Remaining()| < |old(Remaining())|
      ensures |chunks| <= |old(chunks)|
    {
      var head := chunks[0];
      if |head| <= limit {
        got := head;
        chunks := chunks[1..];
      } else {
        got := head[..limit];
        assert head == got + head[limit..];
        assert [head[limit..]] + chunks[1..] == chunks[0 := head[limit..]];
        chunks := [head[limit..]] + chunks[1..];
        assert chunks[1..] == old(chunks)[1..];
      }
    }

    /** Fills a buffer of `n` bytes or fails at the end of the stream; how the data
        was cut into pieces does not show. */
    method ReadFull(n: nat) returns (ok: bool, buf: seq<Byte>)
      modifies this
      ensures ok <==> n <= |old(Remaining())|
      ensures ok ==> buf == old(Remaining())[..n] && Remaining() == old(Remaining())[n..]
    {
      ghost var input := Remaining();
      buf := [];
      while |buf| < n && chunks != []
        invariant |buf| <= n
        invariant input == buf + Remaining()
        decreases |chunks|, |Remaining()|
      {
        var got := Read(n - |buf|);
        buf := buf + got;
      }
      ok := |buf| == n;
    }
  }

  /** Header, then a message of the length it announces. */
  method ReadFrame(r: Reader) returns (ok: bool, f: Frame)
    modifies r
    ensures ok <==> !Incomplete(old(r.Remaining()))
    ensures ok ==> f == FirstFrame(old(r.Remaining())) && r.Remaining() == AfterFirst(old(r.Remaining()))
    ensures Decode(old(r.Remaining())) == if ok then [Line(f)] + Decode(r.Remaining()) else []
  {
    ghost var input := r.Remaining();
    var header, message: seq<Byte>;
    f := Frame([], []);
    ok, header := r.ReadFull(8);
    if !ok {
      return;
    }
    assert header[4..8] == input[4..8] && header[..4] == input[..4];
    var size := Length(header[4..8]);
    ok, message := r.ReadFull(size);
    if ok {
      f := Frame(header[..4], message);
      assert message == input[8..8 + size];
    }
  }

  /** The loop of the two functions that collect log lines. */
  method Demultiplex(r: Reader) returns (lines: seq<LogLine>)
    modifies r
    ensures lines == Decode(old(r.Remaining()))
  {
    ghost var left := Decode(r.Remaining());
    lines := [];
    while true
      invariant left == Decode(r.Remaining()) && lines + left == Decode(old(r.Remaining()))
      decreases |r.Remaining()|
    {
      var ok, f := ReadFrame(r);
      if !ok {
        break;
      }
      left := Decode(r.Remaining());
      Shift(lines, Line(f), left);
      lines := lines + [Line(f)];
    }
  }

  /** The first `n` looks at the context do not find it cancelled. */
  ghost predicate Uncancelled(cancelled: nat -> bool, n: nat) {
    forall k :: 0 <= k < n ==> !cancelled(k)
  }

  lemma StillUncancelled(cancelled: nat -> bool, n: nat)
    requires Uncancelled(cancelled, n) && !cancelled(n) && !cancelled(n + 1)
    ensures Uncancelled(cancelled, n + 2)
  {
  }

  /** The streaming loop.  `cancelled(k)` is what the k-th look at the context
      finds; two looks per iteration, before the header and at the send.  It stops
      at the first look that finds the context cancelled. */
  method StreamMultiplexed(r: Reader, cancelled: nat -> bool) returns (sent: seq<LogLine>)
    modifies r
    ensures sent <= Decode(old(r.Remaining()))
    ensures Uncancelled(cancelled, 2 * |sent|)
    ensures sent == Decode(old(r.Remaining())) || cancelled(2 * |sent|) || cancelled(2 * |sent| + 1)
  {
    ghost var all := Decode(r.Remaining());
    ghost var left := all;
    sent := [];
    var k := 0;
    while true
      invariant left == Decode(r.Remaining()) && sent + left == all
      invariant k == 2 * |sent| && Uncancelled(cancelled, k)
      decreases |r.Remaining()|
    {
      if cancelled(k) {
        return;
      }
      var ok, f := ReadFrame(r);
      if !ok {
        return;
      }
      if cancelled(k + 1) {
        return;
      }
      left := Decode(r.Remaining());
      Shift(sent, Line(f), left);
      StillUncancelled(cancelled, k);
      sent := sent + [Line(f)];
      k := k + 2;
    }
  }

  lemma Shift(sent: seq<LogLine>, line: LogLine, left: seq<LogLine>)
    ensures sent + ([line] + left) == sent + [line] + left
  {
  }
}
