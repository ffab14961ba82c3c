// The proxy's incremental ZMP frame parser.
module Framing {
  import opened Wrappers

  type byte = b: int | 0 <= b < 256

  const MAGIC: byte := 0x5A
  const VERSION: byte := 0x01
  const HEADER_SIZE := 8
  const REQUEST_SEQUENCE_SIZE := 8

  datatype Frame = Frame(raw: seq<byte>, flags: byte, body: seq<byte>)

  /** What one pass over a buffer yields. When malformed, rest starts at the bad header. */
  datatype Parse = Parse(frames: seq<Frame>, rest: seq<byte>, malformed: bool)

  predicate BadHeader(buffer: seq<byte>)
    requires |buffer| >= HEADER_SIZE
  {
    buffer[0] != MAGIC || buffer[1] != VERSION
  }

  function HeaderSize(buffer: seq<byte>): nat
    requires |buffer| >= HEADER_SIZE
  {
    if buffer[3] == 0x01 || buffer[3] == 0x02 || buffer[3] == 0x03
    then HEADER_SIZE + REQUEST_SEQUENCE_SIZE else HEADER_SIZE
  }

  function BigEndian(bytes: seq<byte>): (n: nat) {
    if bytes == [] then 0 else BigEndian(bytes[..|bytes| - 1]) * 256 + bytes[|bytes| - 1] as nat
  }

  /** Header plus the big-endian body size in bytes 4 to 7. */
  function TotalSize(buffer: seq<byte>): (n: nat)
    requires |buffer| >= HEADER_SIZE
    ensures n >= HeaderSize(buffer) >= HEADER_SIZE
  {
    HeaderSize(buffer)
    + BigEndian(buffer[4..8])
  }

  function FirstFrame(buffer: seq<byte>): Frame
    requires |buffer| >= HEADER_SIZE && TotalSize(buffer) <= |buffer|
  {
    var total := TotalSize(buffer);
    Frame(buffer[..total], buffer[2], buffer[HeaderSize(buffer)..total])
  }

  /** All complete frames at the front of a buffer, and what is left over. */
  function ParseAll(buffer: seq<byte>): Parse
    decreases |buffer|
  {
    if |buffer| < HEADER_SIZE then Parse([], buffer, false)
    else if BadHeader(buffer) then Parse([], buffer, true)
    else if |buffer| < TotalSize(buffer) then Parse([], buffer, false)
    else
      var tail := ParseAll(buffer[TotalSize(buffer)..]);
      Parse([FirstFrame(buffer)] + tail.frames, tail.rest, tail.malformed)
  }

  class FrameParser {
    var buffer: seq<byte>

    constructor ()
      ensures buffer == []
    {
      buffer := [];
    }

    /** Appends one chunk and takes off every complete frame. A bad header throws, and the frames
        taken off in the same call are lost with it. */
    method Feed(data: seq<byte>) returns (r: Option<seq<Frame>>)
      modifies this
      ensures var parse := ParseAll(old(buffer) + data);
              buffer == parse.rest && r == (if parse.malformed then None else Some(parse.frames))
    {
      hide TotalSize, FirstFrame, ParseAll, BadHeader;
      buffer := buffer + data;
      ghost var whole := ParseAll(buffer);
      var frames: seq<Frame> := [];
      while |buffer| >= HEADER_SIZE
        invariant whole.frames == frames + ParseAll(buffer).frames
        invariant whole.rest == ParseAll(buffer).rest && whole.malformed == ParseAll(buffer).malformed
        decreases |buffer|
      {
        ParseStep(buffer);
        if BadHeader(buffer) {
          return None;
        }
        var total := TotalSize(buffer);
        if |buffer| < total {
          break;
        }
        var frame := FirstFrame(buffer);
        buffer := buffer[total..];
        assert frames + ([frame] + ParseAll(buffer).frames) == (frames + [frame]) + ParseAll(buffer).frames;
        frames := frames + [frame];
      }
      ParseStep(buffer);
      assert frames + ParseAll(buffer).frames == frames;
      r := Some(frames);
    }
  }

  /** One turn of the parsing loop. */
  lemma ParseStep(buffer: seq<byte>)
    ensures ParseAll(buffer) ==
            if |buffer| < HEADER_SIZE then Parse([], buffer, false)
            else if BadHeader(buffer) then Parse([], buffer, true)
            else if |buffer| < TotalSize(buffer) then Parse([], buffer, false)
            else
              var tail := ParseAll(buffer[TotalSize(buffer)..]);
              Parse([FirstFrame(buffer)] + tail.frames, tail.rest, tail.malformed)
  {
  }

  // ---- Chunking --------------------------------------------------------------------

  function Flatten(chunks: seq<seq<byte>>): seq<byte> {
    if chunks == [] then [] else Flatten(chunks[..|chunks| - 1]) + chunks[|chunks| - 1]
  }

  function RawBytes(frames: seq<Frame>): seq<byte> {
    if frames == [] then [] else frames[0].raw + RawBytes(frames[1..])
  }

  /** Feeding the chunks one by one from an empty parser; a bad header ends the feeding. */
  function FeedAll(chunks: seq<seq<byte>>): Parse {
    if chunks == [] then Parse([], [], false)
    else
      var before := FeedAll(chunks[..|chunks| - 1]);
      if before.malformed then before else
      var parse := ParseAll(before.rest + chunks[|chunks| - 1]);
      if parse.malformed then Parse(before.frames, parse.rest, true)
      else Parse(before.frames + parse.frames, parse.rest, false)
  }

  /** More bytes never change what was already parsed: parsing the leftover with the new bytes
      appended continues where the first pass stopped. */
  lemma {:induction false} ParseContinues(a: seq<byte>, b: seq<byte>)
    requires !ParseAll(a).malformed
    ensures var first := ParseAll(a);
            var next := ParseAll(first.rest + b);
            ParseAll(a + b) == Parse(first.frames + next.frames, next.rest, next.malformed)
    decreases |a|
  {
    hide TotalSize, HeaderSize, BadHeader, BigEndian, FirstFrame;
    if |a| >= HEADER_SIZE && |a| >= TotalSize(a) {
      var total := TotalSize(a);
      FirstFrameStays(a, b);
      ParseContinues(a[total..], b);
      var tail := ParseAll(a[total..]);
      assert ([FirstFrame(a)] + tail.frames) + ParseAll(tail.rest + b).frames
          == [FirstFrame(a)] + (tail.frames + ParseAll(tail.rest + b).frames);
    }
  }

  lemma BadHeaderStays(a: seq<byte>, b: seq<byte>)
    requires |a| >= HEADER_SIZE
    ensures BadHeader(a + b) == BadHeader(a)
  {
  }

  lemma FirstFrameStays(a: seq<byte>, b: seq<byte>)
    requires |a| >= HEADER_SIZE && |a| >= TotalSize(a)
    ensures BadHeader(a + b) == BadHeader(a) && TotalSize(a + b) == TotalSize(a)
    ensures FirstFrame(a + b) == FirstFrame(a)
    ensures (a + b)[TotalSize(a)..] == a[TotalSize(a)..] + b
  {
    assert (a + b)[4..8] == a[4..8];
    assert (a + b)[..TotalSize(a)] == a[..TotalSize(a)];
  }

  lemma {:induction false} MalformedStays(a: seq<byte>, b: seq<byte>)
    requires ParseAll(a).malformed
    ensures ParseAll(a + b).malformed && ParseAll(a + b).frames == ParseAll(a).frames
    decreases |a|
  {
    hide TotalSize, HeaderSize, BadHeader, BigEndian, FirstFrame;
    BadHeaderStays(a, b);
    if !BadHeader(a) {
      FirstFrameStays(a, b);
      MalformedStays(a[TotalSize(a)..], b);
    }
  }

  /** Chunking does not matter: any split of a stream meets a bad header exactly when the whole
      stream has one, and otherwise yields the same frames and leftover as one feed. */
  lemma {:induction false} ChunkingInvariance(chunks: seq<seq<byte>>)
    ensures FeedAll(chunks).malformed == ParseAll(Flatten(chunks)).malformed
    ensures !FeedAll(chunks).malformed ==> FeedAll(chunks) == ParseAll(Flatten(chunks))
    ensures FeedAll(chunks).frames <= ParseAll(Flatten(chunks)).frames
  {
    if chunks != [] {
      var last := chunks[|chunks| - 1];
      var before := chunks[..|chunks| - 1];
      ChunkingInvariance(before);
      if FeedAll(before).malformed {
        MalformedStays(Flatten(before), last);
      } else {
        ParseContinues(Flatten(before), last);
      }
    }
  }

  lemma RawBytesCons(f: Frame, frames: seq<Frame>)
    ensures RawBytes([f] + frames) == f.raw + RawBytes(frames)
  {
    assert ([f] + frames)[1..] == frames;
  }

  /** Frames and leftover are the input, byte for byte. */
  lemma {:induction false} BytesConserved(buffer: seq<byte>)
    ensures RawBytes(ParseAll(buffer).frames) + ParseAll(buffer).rest == buffer
    decreases |buffer|
  {
    if |buffer| >= HEADER_SIZE && !BadHeader(buffer) && |buffer| >= TotalSize(buffer) {
      hide TotalSize, BadHeader, RawBytes;
      BytesConserved(buffer[TotalSize(buffer)..]);
      var tail := ParseAll(buffer[TotalSize(buffer)..]);
      Reassemble(FirstFrame(buffer), tail.frames, tail.rest, buffer, TotalSize(buffer));
    } else {
      assert ParseAll(buffer).frames == [] && ParseAll(buffer).rest == buffer;
      assert RawBytes([]) + buffer == buffer;
    }
  }

  lemma Reassemble(f: Frame, frames: seq<Frame>, rest: seq<byte>, buffer: seq<byte>, total: nat)
    requires total <= |buffer| && f.raw == buffer[..total]
    requires RawBytes(frames) + rest == buffer[total..]
    ensures RawBytes([f] + frames) + rest == buffer
  {
    RawBytesCons(f, frames);
    hide RawBytes;
    assert (f.raw + RawBytes(frames)) + rest == f.raw + (RawBytes(frames) + rest);
  }

  lemma {:induction false} RawBytesConcat(a: seq<Frame>, b: seq<Frame>)
    ensures RawBytes(a + b) == RawBytes(a) + RawBytes(b)
  {
    if a == [] {
      assert a + b == b;
    } else {
      assert (a + b)[1..] == a[1..] + b;
      RawBytesConcat(a[1..], b);
    }
  }

  // ---- The wire layout ------------------------------------------------------------------

  /** A number in this many bytes, the most significant first. */
  function Number(n: nat, width: nat): (r: seq<byte>)
    ensures |r| == width
  {
    if width == 0 then [] else Number(n / 0x100, width - 1) + [n % 0x100]
  }

  /** Requests, and no other kind, carry a sequence of eight bytes. */
  predicate SequenceFits(kind: byte, sequence: seq<byte>) {
    |sequence| == if kind == 0x01 || kind == 0x02 || kind == 0x03 then 8 else 0
  }

  /** A frame as it stands on the wire. */
  function Written(flags: byte, kind: byte, sequence: seq<byte>, body: seq<byte>): seq<byte>
    requires |body| < 0x1_0000_0000
  {
    [0x5A, 0x01, flags, kind] + (Number(|body|, 4) + (sequence + body))
  }

  /** The frame's bytes are written so, with its flags and its body. */
  ghost predicate IsWritten(f: Frame, kind: byte, sequence: seq<byte>) {
    |f.body| < 0x1_0000_0000 && SequenceFits(kind, sequence) && f.raw == Written(f.flags, kind, sequence, f.body)
  }

  ghost predicate WellFormed(f: Frame) {
    exists kind, sequence :: IsWritten(f, kind, sequence)
  }

  /** The number has at most this many bytes. */
  predicate Within(n: nat, width: nat) {
    if width == 0 then n == 0 else Within(n / 0x100, width - 1)
  }

  lemma WithinFour(n: nat)
    ensures Within(n, 4) <==> n < 0x1_0000_0000
  {
    var a := n / 0x100;
    var b := a / 0x100;
    var c := b / 0x100;
    assert Within(n, 4) == Within(a, 3) && Within(a, 3) == Within(b, 2) && Within(b, 2) == Within(c, 1);
    assert Within(c, 1) == Within(c / 0x100, 0);
  }

  lemma {:induction false} BigEndianNumber(n: nat, width: nat)
    requires Within(n, width)
    ensures BigEndian(Number(n, width)) == n
  {
    if width > 0 {
      BigEndianNumber(n / 0x100, width - 1);
      assert Number(n, width)[..width - 1] == Number(n / 0x100, width - 1);
    }
  }

  lemma {:induction false} NumberBigEndian(bytes: seq<byte>)
    ensures Within(BigEndian(bytes), |bytes|) && Number(BigEndian(bytes), |bytes|) == bytes
  {
    if bytes != [] {
      var front, last := bytes[..|bytes| - 1], bytes[|bytes| - 1];
      NumberBigEndian(front);
      assert BigEndian(bytes) / 0x100 == BigEndian(front) && BigEndian(bytes) % 0x100 == last;
      assert bytes == front + [last];
    }
  }

  /** What the parser reads off the front of written bytes. */
  lemma WrittenHeader(flags: byte, kind: byte, sequence: seq<byte>, body: seq<byte>)
    requires |body| < 0x1_0000_0000 && SequenceFits(kind, sequence)
    ensures var w := Written(flags, kind, sequence, body);
            && |w| >= HEADER_SIZE && !BadHeader(w) && TotalSize(w) == |w| && FirstFrame(w) == Frame(w, flags, body)
  {
    var w := Written(flags, kind, sequence, body);
    assert w[4..8] == Number(|body|, 4);
    WithinFour(|body|);
    BigEndianNumber(|body|, 4);
    hide BigEndian, Number, Within;
    assert HeaderSize(w) == 8 + |sequence| && |w| == 8 + |sequence| + |body|;
    assert w[8 + |sequence|..] == body && w[..|w|] == w;
  }

  /** Written bytes in front of others are taken off as that frame, and parsing goes on behind them. */
  lemma ParsesWritten(flags: byte, kind: byte, sequence: seq<byte>, body: seq<byte>, tail: seq<byte>)
    requires |body| < 0x1_0000_0000 && SequenceFits(kind, sequence)
    ensures var w, rest := Written(flags, kind, sequence, body), ParseAll(tail);
            ParseAll(w + tail) == Parse([Frame(w, flags, body)] + rest.frames, rest.rest, rest.malformed)
  {
    hide BigEndian, Written, TotalSize, BadHeader, FirstFrame;
    var w := Written(flags, kind, sequence, body);
    WrittenHeader(flags, kind, sequence, body);
    FirstFrameStays(w, tail);
    assert (w + tail)[|w|..] == tail;
  }

  /** The front of a buffer that the parser takes off was written. */
  lemma FrontWasWritten(buffer: seq<byte>)
    requires |buffer| >= HEADER_SIZE && !BadHeader(buffer) && |buffer| >= TotalSize(buffer)
    ensures IsWritten(FirstFrame(buffer), buffer[3], buffer[8..HeaderSize(buffer)])
  {
    var f, sequence := FirstFrame(buffer), buffer[8..HeaderSize(buffer)];
    NumberBigEndian(buffer[4..8]);
    WithinFour(BigEndian(buffer[4..8]));
    hide BigEndian, Number, Within;
    assert |f.body| == BigEndian(buffer[4..8]);
    assert f.raw == [0x5A, 0x01, buffer[2], buffer[3]] + (buffer[4..8] + (sequence + f.body));
  }

  /** Every frame parsed was written with its own flags and body. */
  lemma {:induction false} ParsedFramesWellFormed(buffer: seq<byte>)
    ensures forall f | f in ParseAll(buffer).frames :: WellFormed(f)
    decreases |buffer|
  {
    hide BigEndian, IsWritten, TotalSize, BadHeader, FirstFrame;
    if |buffer| >= HEADER_SIZE && !BadHeader(buffer) && |buffer| >= TotalSize(buffer) {
      FrontWasWritten(buffer);
      ParsedFramesWellFormed(buffer[TotalSize(buffer)..]);
    }
  }

  lemma WellFormedHeader(f: Frame)
    requires WellFormed(f)
    ensures |f.raw| >= HEADER_SIZE && !BadHeader(f.raw) && TotalSize(f.raw) == |f.raw| && FirstFrame(f.raw) == f
  {
    hide BigEndian, HeaderSize, FirstFrame, TotalSize, BadHeader, Written, SequenceFits;
    var kind, sequence :| IsWritten(f, kind, sequence);
    WrittenHeader(f.flags, kind, sequence, f.body);
  }

  /** The parser takes a frame off the front. */
  predicate FrameInFront(buffer: seq<byte>) {
    |buffer| >= HEADER_SIZE && !BadHeader(buffer) && |buffer| >= TotalSize(buffer)
  }

  lemma WrittenIsInFront(buffer: seq<byte>)
    ensures forall f: Frame | f.raw <= buffer && WellFormed(f) :: FrameInFront(buffer)
  {
    hide WellFormed, TotalSize, BadHeader, FirstFrame;
    forall f: Frame | f.raw <= buffer && WellFormed(f) ensures FrameInFront(buffer) {
      WellFormedHeader(f);
      FirstFrameStays(f.raw, buffer[|f.raw|..]);
      assert f.raw + buffer[|f.raw|..] == buffer;
    }
  }

  /** What is left over is no frame yet: the parser stops exactly at a header that does not begin with the
      magic byte and the version, or where no written frame stands in front. */
  lemma {:induction false} LeftoverIsNoFrame(buffer: seq<byte>)
    ensures var p := ParseAll(buffer);
            && (p.malformed <==> |p.rest| >= 8 && (p.rest[0] != 0x5A || p.rest[1] != 0x01))
            && (p.malformed || forall f: Frame | f.raw <= p.rest :: !WellFormed(f))
    decreases |buffer|
  {
    hide BigEndian, WellFormed, HeaderSize, FirstFrame;
    if FrameInFront(buffer) {
      LeftoverIsNoFrame(buffer[TotalSize(buffer)..]);
    } else {
      WrittenIsInFront(buffer);
      assert ParseAll(buffer).rest == buffer;
    }
  }

  /** Conversely, writing frames one after another parses back to those frames. */
  lemma {:induction false} ParseUndoesWriting(frames: seq<Frame>)
    requires forall f | f in frames :: WellFormed(f)
    ensures ParseAll(RawBytes(frames)) == Parse(frames, [], false)
  {
    if frames != [] {
      var f, tail := frames[0], frames[1..];
      assert f in frames && WellFormed(f);
      assert frames == [f] + tail;
      ParseUndoesWriting(tail);
      RawBytesCons(f, tail);
      hide IsWritten, ParseAll, RawBytes;
      var kind, sequence :| IsWritten(f, kind, sequence);
      WrittenParses(f, kind, sequence, RawBytes(tail));
    }
  }

  lemma WrittenParses(f: Frame, kind: byte, sequence: seq<byte>, tail: seq<byte>)
    requires IsWritten(f, kind, sequence)
    ensures var rest := ParseAll(tail);
            ParseAll(f.raw + tail) == Parse([f] + rest.frames, rest.rest, rest.malformed)
  {
    hide Written, ParseAll, SequenceFits;
    ParsesWritten(f.flags, kind, sequence, f.body, tail);
  }
}
