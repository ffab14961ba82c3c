// The proxy's pump: frames grouped into messages, and armed command-44 commits dropped.
module Proxy {
  import opened Wrappers
  import opened Framing
  import opened Command44

  /** The frame is not the last of its message. */
  predicate More(f: Frame) {
    f.flags as int % 2 == 1
  }

  /** Frames grouped into complete messages, and the frames of the message still open. */
  datatype Grouping = Grouping(messages: seq<seq<Frame>>, pending: seq<Frame>)

  function Group(frames: seq<Frame>): Grouping {
    if frames == [] then Grouping([], [])
    else
      var before := Group(frames[..|frames| - 1]);
      var last := frames[|frames| - 1];
      if More(last) then Grouping(before.messages, before.pending + [last])
      else Grouping(before.messages + [before.pending + [last]], [])
  }

  /** A route commit in a message of its own. */
  predicate IsLoneCommit(message: seq<Frame>) {
    |message| == 1 && Identity(message[0].body).Some? && Identity(message[0].body).value.action == 1
  }

  /** The bytes written to the sink; armed(i) says whether the arm file exists when message i
      is complete. */
  function Forward(messages: seq<seq<Frame>>, armed: nat -> bool): seq<byte> {
    if messages == [] then []
    else
      var last := |messages| - 1;
      Forward(messages[..last], armed)
      + (if armed(last) && IsLoneCommit(messages[last]) then [] else RawBytes(messages[last]))
  }

  /** Reads stop at the first empty chunk (end of stream or a read error). */
  function UntilEnd(chunks: seq<seq<byte>>): seq<seq<byte>> {
    if chunks == [] || chunks[0] == [] then [] else [chunks[0]] + UntilEnd(chunks[1..])
  }

  /** What the pump carries between frames, as the frames so far determine it. */
  ghost predicate Tracks(frames: seq<Frame>, message: seq<byte>, messageFrames: nat, command44: Option<Command>) {
    var pending := Group(frames).pending;
    && message == RawBytes(pending)
    && messageFrames == |pending|
    && (pending == [] ==> command44 == None)
    && (|pending| == 1 ==> command44 == Identity(pending[0].body))
  }

  lemma TracksStart()
    ensures Tracks([], [], 0, None)
  {
  }

  /** Taking in one frame: the open message grows by it, and closes when it is the last. */
  lemma TracksFrame(frames: seq<Frame>, message: seq<byte>, messageFrames: nat, command44: Option<Command>, f: Frame)
    requires Tracks(frames, message, messageFrames, command44)
    ensures var pending := Group(frames).pending + [f];
            var command := if Identity(f.body).Some? then Identity(f.body) else command44;
            && Group(frames + [f]) == (if More(f) then Grouping(Group(frames).messages, pending)
                                       else Grouping(Group(frames).messages + [pending], []))
            && message + f.raw == RawBytes(pending)
            && (More(f) ==> Tracks(frames + [f], message + f.raw, messageFrames + 1, command))
            && (!More(f) ==> Tracks(frames + [f], [], 0, None))
            && (IsLoneCommit(pending) <==> messageFrames + 1 == 1 && command.Some? && command.value.action == 1)
  {
    hide Identity;
    assert (frames + [f])[..|frames|] == frames;
    RawBytesConcat(Group(frames).pending, [f]);
    assert [f][1..] == [];
    assert RawBytes([f]) == f.raw;
  }

  lemma ForwardOneMore(messages: seq<seq<Frame>>, m: seq<Frame>, armed: nat -> bool)
    ensures Forward(messages + [m], armed)
         == Forward(messages, armed) + (if armed(|messages|) && IsLoneCommit(m) then [] else RawBytes(m))
  {
    assert (messages + [m])[..|messages|] == messages;
  }

  lemma FeedOneMore(fed: seq<seq<byte>>, chunk: seq<byte>)
    requires !FeedAll(fed).malformed
    ensures var before := FeedAll(fed);
            var parse := ParseAll(before.rest + chunk);
            FeedAll(fed + [chunk]) == if parse.malformed then Parse(before.frames, parse.rest, true)
                                      else Parse(before.frames + parse.frames, parse.rest, false)
  {
    assert (fed + [chunk])[..|fed|] == fed;
  }

  /** After a bad header nothing more is fed. */
  lemma {:induction false} FeedingStops(a: seq<seq<byte>>, b: seq<seq<byte>>)
    requires FeedAll(a).malformed
    ensures FeedAll(a + b) == FeedAll(a)
  {
    if b == [] {
      assert a + b == a;
    } else {
      assert (a + b)[..|a + b| - 1] == a + b[..|b| - 1];
      FeedingStops(a, b[..|b| - 1]);
    }
  }

  /** The pump loop over the chunks read from the source socket. */
  method Pump(chunks: seq<seq<byte>>, armed: nat -> bool) returns (output: seq<byte>)
    ensures output == Forward(Group(FeedAll(UntilEnd(chunks)).frames).messages, armed)
  {
    FeedNone();
    hide Identity, IsLoneCommit, ParseAll, Tracks, Group, Forward, RawBytes, FeedAll;
    var parser := new FrameParser();
    var message: seq<byte> := [];
    var messageFrames: nat := 0;
    var command44: Option<Command> := None;
    var completed: nat := 0;
    output := [];
    ghost var fed: seq<seq<byte>> := [];
    ghost var frames: seq<Frame> := [];
    TracksStart();
    StartEmpty(armed);
    var i := 0;
    while i < |chunks| && chunks[i] != []
      invariant i <= |chunks|
      invariant fed + UntilEnd(chunks[i..]) == UntilEnd(chunks)
      invariant FeedAll(fed) == Parse(frames, parser.buffer, false)
      invariant Tracks(frames, message, messageFrames, command44)
      invariant completed == |Group(frames).messages|
      invariant output == Forward(Group(frames).messages, armed)
    {
      ghost var before, feed := frames, fed + [chunks[i]];
      assert chunks[i..][1..] == chunks[i + 1..];
      assert feed + UntilEnd(chunks[i + 1..]) == UntilEnd(chunks);
      FeedOneMore(fed, chunks[i]);
      var parsed := parser.Feed(chunks[i]);
      if parsed == None {
        FeedingStops(feed, UntilEnd(chunks[i + 1..]));
        return;
      }
      fed := feed;
      ghost var leftover := parser.buffer;
      for k := 0 to |parsed.value|
        invariant frames == before + parsed.value[..k] && parser.buffer == leftover
        invariant Tracks(frames, message, messageFrames, command44)
        invariant completed == |Group(frames).messages|
        invariant output == Forward(Group(frames).messages, armed)
      {
        var frame := parsed.value[k];
        TracksFrame(frames, message, messageFrames, command44, frame);
        ForwardOneMore(Group(frames).messages, Group(frames).pending + [frame], armed);
        assert before + parsed.value[..k + 1] == (before + parsed.value[..k]) + [frame];
        frames := frames + [frame];
        message := message + frame.raw;
        messageFrames := messageFrames + 1;
        var identity := ReadIdentity(frame.body);
        if identity.Some? {
          command44 := identity;
        }
        if !More(frame) {
          var blocked := messageFrames == 1 && armed(completed) && command44.Some? && command44.value.action == 1;
          if !blocked {
            output := output + message;
          }
          message := [];
          messageFrames := 0;
          command44 := None;
          completed := completed + 1;
        }
      }
      assert before + parsed.value[..|parsed.value|] == before + parsed.value;
      i := i + 1;
    }
    assert UntilEnd(chunks[i..]) == [];
    assert fed + [] == fed;
  }

  lemma FeedNone()
    ensures FeedAll([]) == Parse([], [], false)
  {
  }

  lemma StartEmpty(armed: nat -> bool)
    ensures Group([]) == Grouping([], []) && Forward([], armed) == []
  {
  }

  // ---- What the sink receives ------------------------------------------------------

  function Concat(messages: seq<seq<Frame>>): seq<Frame> {
    if messages == [] then [] else Concat(messages[..|messages| - 1]) + messages[|messages| - 1]
  }

  /** Exactly one complete message: the lowest bit of the flags is set on every frame but the last. */
  ghost predicate IsMessage(m: seq<Frame>) {
    m != [] && m[|m| - 1].flags as int % 2 == 0 && forall i | 0 <= i < |m| - 1 :: m[i].flags as int % 2 == 1
  }

  /** Grouping loses and reorders nothing, and cuts after each last frame and only there. */
  lemma {:induction false} GroupingIsExact(frames: seq<Frame>)
    ensures Concat(Group(frames).messages) + Group(frames).pending == frames
    ensures forall m | m in Group(frames).messages :: IsMessage(m)
    ensures forall f | f in Group(frames).pending :: f.flags as int % 2 == 1
  {
    if frames != [] {
      var front, last := frames[..|frames| - 1], frames[|frames| - 1];
      GroupingIsExact(front);
      var before := Group(front);
      var open := before.pending + [last];
      assert frames == front + [last];
      assert Concat(before.messages) + open == (Concat(before.messages) + before.pending) + [last];
      if !More(last) {
        ConcatOneMore(before.messages, open);
        assert forall i | 0 <= i < |before.pending| :: before.pending[i] in before.pending;
        assert IsMessage(open);
      }
    }
  }

  lemma ConcatOneMore(messages: seq<seq<Frame>>, m: seq<Frame>)
    ensures Concat(messages + [m]) == Concat(messages) + m
  {
    assert (messages + [m])[..|messages|] == messages;
  }

  /** What is read is everything before the first empty chunk. */
  lemma {:induction false} ReadsStopAtTheEnd(chunks: seq<seq<byte>>)
    ensures var read := UntilEnd(chunks);
            read <= chunks && [] !in read && (|read| < |chunks| ==> chunks[|read|] == [])
  {
    if chunks != [] && chunks[0] != [] {
      ReadsStopAtTheEnd(chunks[1..]);
    }
  }

  /** The message is one frame whose body is a command 44 with the action commit and, when its route is long
      enough to hold them, both authorities. */
  ghost predicate IsCommit(message: seq<Frame>) {
    |message| == 1 && exists f, tail ::
      Fits(f) && message[0].body == Write(f, tail) && f.action == 1 && (f.route >= 16 ==> |tail| >= 16)
  }

  /** An armed commit in a message of its own is dropped, and every other message is forwarded whole. */
  lemma CommitsAreBlockedExactly(messages: seq<seq<Frame>>, m: seq<Frame>, armed: nat -> bool)
    ensures Forward(messages + [m], armed)
         == Forward(messages, armed) + (if armed(|messages|) && IsCommit(m) then [] else RawBytes(m))
  {
    hide Identity, Write, RawBytes, Forward, Fits;
    ForwardOneMore(messages, m, armed);
    if |m| == 1 && Identity(m[0].body).Some? {
      var f, tail := IdentityHasLayout(m[0].body);
    }
    if IsCommit(m) {
      var f, tail :| Fits(f) && m[0].body == Write(f, tail) && f.action == 1 && (f.route >= 16 ==> |tail| >= 16);
      IdentityReadsLayout(f, tail);
    }
  }

  lemma {:induction false} ForwardAll(messages: seq<seq<Frame>>, armed: nat -> bool)
    requires forall i: nat | i < |messages| :: !(armed(i) && IsLoneCommit(messages[i]))
    ensures Forward(messages, armed) == RawBytes(Concat(messages))
  {
    if messages != [] {
      var last := |messages| - 1;
      ForwardAll(messages[..last], armed);
      RawBytesConcat(Concat(messages[..last]), messages[last]);
    }
  }

  /** Byte conservation through the pump: when no armed lone commit passes, the sink's bytes, the
      open message and the parser's leftover are the source's bytes. */
  lemma NothingBlockedNothingLost(chunks: seq<seq<byte>>, armed: nat -> bool)
    requires !FeedAll(chunks).malformed
    requires var messages := Group(FeedAll(chunks).frames).messages;
             forall i: nat | i < |messages| :: !(armed(i) && IsLoneCommit(messages[i]))
    ensures var parse := FeedAll(chunks);
            Forward(Group(parse.frames).messages, armed) + RawBytes(Group(parse.frames).pending) + parse.rest
            == Flatten(chunks)
  {
    var parse := FeedAll(chunks);
    var group := Group(parse.frames);
    ForwardAll(group.messages, armed);
    RawBytesConcat(Concat(group.messages), group.pending);
    GroupingIsExact(parse.frames);
    ChunkingInvariance(chunks);
    BytesConserved(Flatten(chunks));
  }

  /** The sink's bytes do not depend on how the source's bytes were cut into reads. */
  lemma OutputIgnoresChunking(chunks: seq<seq<byte>>, other: seq<seq<byte>>, armed: nat -> bool)
    requires Flatten(chunks) == Flatten(other) && !ParseAll(Flatten(chunks)).malformed
    ensures Forward(Group(FeedAll(chunks).frames).messages, armed)
            == Forward(Group(FeedAll(other).frames).messages, armed)
  {
    ChunkingInvariance(chunks);
    ChunkingInvariance(other);
  }

  /** More frames add messages and change none. */
  lemma {:induction false} GroupGrows(a: seq<Frame>, b: seq<Frame>)
    requires a <= b
    ensures Group(a).messages <= Group(b).messages
  {
    if a == b {
    } else {
      GroupGrows(a, b[..|b| - 1]);
    }
  }

  lemma {:induction false} ForwardGrows(a: seq<seq<Frame>>, b: seq<seq<Frame>>, armed: nat -> bool)
    requires a <= b
    ensures Forward(a, armed) <= Forward(b, armed)
  {
    hide IsLoneCommit, RawBytes;
    if a == b {
    } else {
      ForwardGrows(a, b[..|b| - 1], armed);
      assert Forward(b[..|b| - 1], armed) <= Forward(b, armed);
    }
  }

  /** With a bad header in the stream the frames read together with it are lost, so a cut can shorten
      the output, and do nothing else to it: it is a beginning of what the whole parse forwards. */
  lemma OutputIsABeginning(chunks: seq<seq<byte>>, armed: nat -> bool)
    ensures var whole := ParseAll(Flatten(chunks));
            && Forward(Group(FeedAll(chunks).frames).messages, armed) <= Forward(Group(whole.frames).messages, armed)
            && (!whole.malformed ==>
                  Forward(Group(FeedAll(chunks).frames).messages, armed)
                      == Forward(Group(whole.frames).messages, armed))
  {
    hide Group, Forward, FeedAll, ParseAll;
    ChunkingInvariance(chunks);
    GroupGrows(FeedAll(chunks).frames, ParseAll(Flatten(chunks)).frames);
    ForwardGrows(Group(FeedAll(chunks).frames).messages, Group(ParseAll(Flatten(chunks)).frames).messages, armed);
  }
}
