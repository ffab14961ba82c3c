// The session relocation route message (command 44) as the proxy reads it.
module Command44 {
  import opened Wrappers
  import opened Framing

  const SESSION_RELOCATION_ROUTE: byte := 44

  datatype Command = Command(actor: seq<byte>, action: byte, previousAuthority: nat, targetAuthority: nat)

  // ---- What each read takes off the front of the remaining body; None where it throws -----

  function Take(rest: seq<byte>, count: nat): (r: Option<(seq<byte>, seq<byte>)>)
    ensures r.Some? ==> |r.value.0| == count && r.value.0 + r.value.1 == rest
  {
    if count > |rest| then None else Some((rest[..count], rest[count..]))
  }

  function TakeNumber(rest: seq<byte>, width: nat): Option<(nat, seq<byte>)> {
    var (digits, tail) :- Take(rest, width);
    Some((BigEndian(digits), tail))
  }

  /** A byte string behind its own length, written in width bytes. */
  function TakeText(rest: seq<byte>, width: nat): Option<(seq<byte>, seq<byte>)> {
    var (size, tail) :- TakeNumber(rest, width);
    Take(tail, size)
  }

  predicate HasCommandHeader(body: seq<byte>) {
    |body| >= 5 && body[0] == 90 && body[1] == 77 && body[3] == SESSION_RELOCATION_ROUTE
  }

  /** The fields the proxy keeps; None when the body is not a command 44 it understands. */
  function Identity(body: seq<byte>): Option<Command> {
    if !HasCommandHeader(body) then None else
    var (_, r1) :- Take(body, 5 + 16);
    var (_, r2) :- TakeText(r1, 1);
    var (_, r3) :- Take(r2, 8);
    var (_, r4) :- TakeText(r3, 1);
    var (_, r5) :- Take(r4, 8);
    var (_, r6) :- TakeText(r5, 2);
    var (_, r7) :- Take(r6, 1);
    IdentityFromActor(r7)
  }

  function IdentityFromActor(r7: seq<byte>): Option<Command> {
    var (actor, r8) :- TakeText(r7, 1);
    var (_, r9) :- Take(r8, 8);
    var (_, r10) :- TakeText(r9, 1);
    var (_, r11) :- Take(r10, 8);
    var (_, r12) :- TakeText(r11, 1);
    var (_, r13) :- Take(r12, 8);
    var (_, r14) :- TakeText(r13, 1);
    var (_, r15) :- Take(r14, 8);
    var (action, r16) :- Take(r15, 1);
    var (routeSize, r17) :- TakeNumber(r16, 2);
    if action[0] == 1 && routeSize >= 16 then
      var (previous, r18) :- TakeNumber(r17, 8);
      var (target, _) :- TakeNumber(r18, 8);
      Some(Command(actor, action[0], previous, target))
    else Some(Command(actor, action[0], 0, 0))
  }

  /** Reads a body front to back. A read past the end throws and the caller stops there. */
  class BodyReader {
    const body: seq<byte>
    var offset: nat

    ghost predicate Valid()
      reads this
    {
      offset <= |body|
    }

    ghost function Rest(): seq<byte>
      reads this
      requires Valid()
    {
      body[offset..]
    }

    constructor (body: seq<byte>)
      ensures this.body == body && Valid() && Rest() == body
    {
      this.body := body;
      offset := 0;
    }

    method Skip(count: nat) returns (r: Option<seq<byte>>)
      requires Valid()
      modifies this
      ensures Valid()
      ensures r == match Take(old(Rest()), count) case None => None case Some(p) => Some(p.0)
      ensures Rest() == match Take(old(Rest()), count) case None => old(Rest()) case Some(p) => p.1
    {
      if offset + count > |body| {
        return None;
      }
      assert Rest()[..count] == body[offset..offset + count];
      assert Rest()[count..] == body[offset + count..];
      r := Some(body[offset..offset + count]);
      offset := offset + count;
    }

    /** u8, u16 and u64: the bytes shifted in one at a time. */
    method Number(width: nat) returns (r: Option<nat>)
      requires Valid()
      modifies this
      ensures Valid()
      ensures r == match TakeNumber(old(Rest()), width) case None => None case Some(p) => Some(p.0)
      ensures Rest() == match TakeNumber(old(Rest()), width) case None => old(Rest()) case Some(p) => p.1
    {
      if offset + width > |body| {
        return None;
      }
      var digits := body[offset..offset + width];
      assert Rest()[..width] == digits && Rest()[width..] == body[offset + width..];
      var value: nat := 0;
      for i := 0 to width
        invariant value == BigEndian(digits[..i])
      {
        assert digits[..i + 1][..i] == digits[..i];
        value := value * 256 + digits[i];
      }
      assert digits[..width] == digits;
      offset := offset + width;
      r := Some(value);
    }

    method Text(width: nat) returns (r: Option<seq<byte>>)
      requires Valid()
      modifies this
      ensures Valid()
      ensures r == match TakeText(old(Rest()), width) case None => None case Some(p) => Some(p.0)
      ensures r.Some? ==> Rest() == TakeText(old(Rest()), width).value.1
    {
      var size :- Number(width);
      r := Skip(size);
    }
  }

  /** The source's reading order. */
  method ReadIdentity(body: seq<byte>) returns (r: Option<Command>)
    ensures r == Identity(body)
  {
    hide Take, TakeNumber, TakeText;
    if !HasCommandHeader(body) {
      return None;
    }
    var reader := new BodyReader(body);
    var _ :- reader.Skip(5 + 16);
    var _ :- reader.Text(1);
    var _ :- reader.Skip(8);
    var _ :- reader.Text(1);
    var _ :- reader.Skip(8);
    var _ :- reader.Text(2);
    var _ :- reader.Skip(1);
    r := ReadFromActor(reader);
  }

  method ReadFromActor(reader: BodyReader) returns (r: Option<Command>)
    requires reader.Valid()
    modifies reader
    ensures r == IdentityFromActor(old(reader.Rest()))
  {
    hide Take, TakeNumber, TakeText;
    var actor :- reader.Text(1);
    var _ :- reader.Skip(8);
    var _ :- reader.Text(1);
    var _ :- reader.Skip(8);
    var _ :- reader.Text(1);
    var _ :- reader.Skip(8);
    var _ :- reader.Text(1);
    var _ :- reader.Skip(8);
    var action :- reader.Skip(1);
    var routeSize :- reader.Number(2);
    if action[0] == 1 && routeSize >= 16 {
      var previous :- reader.Number(8);
      var target :- reader.Number(8);
      return Some(Command(actor, action[0], previous, target));
    }
    r := Some(Command(actor, action[0], 0, 0));
  }

  // ---- The wire layout -----------------------------------------------------------------

  /** The fields in wire order. Names follow the proxy's reading where it keeps them. */
  datatype Layout = Layout(
    header: seq<byte>, text1: seq<byte>, id1: seq<byte>, text2: seq<byte>, id2: seq<byte>,
    longText: seq<byte>, mark: seq<byte>, actor: seq<byte>, id3: seq<byte>, text4: seq<byte>, id4: seq<byte>,
    text5: seq<byte>, id5: seq<byte>, text6: seq<byte>, id6: seq<byte>, action: byte, route: nat)

  ghost predicate Fits(f: Layout) {
    && |f.header| == 5 + 16 && f.header[0] == 90 && f.header[1] == 77 && f.header[3] == 44
    && |f.id1| == |f.id2| == |f.id3| == |f.id4| == |f.id5| == |f.id6| == 8 && |f.mark| == 1
    && |f.text1| < 0x100 && |f.text2| < 0x100 && |f.actor| < 0x100
    && |f.text4| < 0x100 && |f.text5| < 0x100 && |f.text6| < 0x100
    && |f.longText| < 0x1_0000 && f.route < 0x1_0000
  }

  function Text1(t: seq<byte>): seq<byte>
    requires |t| < 0x100
  {
    [|t|] + t
  }

  function Text2(t: seq<byte>): seq<byte>
    requires |t| < 0x1_0000
  {
    Number(|t|, 2) + t
  }

  function Write(f: Layout, tail: seq<byte>): seq<byte>
    requires Fits(f)
  {
    f.header + (Text1(f.text1) + (f.id1 + (Text1(f.text2) + (f.id2 + (Text2(f.longText)
    + (f.mark + WriteFromActor(f, tail)))))))
  }

  function WriteFromActor(f: Layout, tail: seq<byte>): seq<byte>
    requires Fits(f)
  {
    Text1(f.actor) + (f.id3 + (Text1(f.text4) + (f.id4 + (Text1(f.text5) + (f.id5 + (Text1(f.text6)
    + (f.id6 + ([f.action] + (Number(f.route, 2) + tail)))))))))
  }

  /** What the proxy makes of the bytes after the layout. */
  function Outcome(f: Layout, tail: seq<byte>): Option<Command> {
    if f.action == 1 && f.route >= 16 then
      if |tail| < 16 then None
      else Some(Command(f.actor, f.action, BigEndian(tail[..8]), BigEndian(tail[8..16])))
    else Some(Command(f.actor, f.action, 0, 0))
  }

  lemma TakeWritten(x: seq<byte>, tail: seq<byte>)
    ensures Take(x + tail, |x|) == Some((x, tail))
  {
    assert (x + tail)[..|x|] == x && (x + tail)[|x|..] == tail;
  }

  lemma BigEndianOne(b: byte)
    ensures BigEndian([b]) == b
  {
    assert [b][..0] == [];
  }

  lemma WithinTwo(n: nat)
    ensures Within(n, 2) <==> n < 0x1_0000
  {
    var a := n / 0x100;
    assert Within(n, 2) == Within(a, 1) && Within(a, 1) == Within(a / 0x100, 0);
  }

  lemma TakeWrittenNumber2(n: nat, tail: seq<byte>)
    requires n < 0x1_0000
    ensures TakeNumber(Number(n, 2) + tail, 2) == Some((n, tail))
  {
    TakeWritten(Number(n, 2), tail);
    WithinTwo(n);
    BigEndianNumber(n, 2);
  }

  lemma TakeWrittenText1(t: seq<byte>, tail: seq<byte>)
    requires |t| < 0x100
    ensures TakeText(Text1(t) + tail, 1) == Some((t, tail))
  {
    TakeWritten([|t|], t + tail);
    assert Text1(t) + tail == [|t|] + (t + tail);
    BigEndianOne(|t|);
    TakeWritten(t, tail);
  }

  lemma TakeWrittenText2(t: seq<byte>, tail: seq<byte>)
    requires |t| < 0x1_0000
    ensures TakeText(Text2(t) + tail, 2) == Some((t, tail))
  {
    TakeWrittenNumber2(|t|, t + tail);
    assert Text2(t) + tail == Number(|t|, 2) + (t + tail);
    TakeWritten(t, tail);
  }

  /** Every body of the layout is read back to its own actor, action and authorities. */
  lemma IdentityReadsLayout(f: Layout, tail: seq<byte>)
    requires Fits(f)
    ensures Identity(Write(f, tail)) == Outcome(f, tail)
  {
    hide Take, TakeText, TakeNumber, Text1, Text2, Number, IdentityFromActor, WriteFromActor, Outcome;
    var w6 := f.mark + WriteFromActor(f, tail);
    var w5 := Text2(f.longText) + w6;
    var w4 := f.id2 + w5;
    var w3 := Text1(f.text2) + w4;
    var w2 := f.id1 + w3;
    var w1 := Text1(f.text1) + w2;
    TakeWritten(f.header, w1);
    TakeWrittenText1(f.text1, w2);
    TakeWritten(f.id1, w3);
    TakeWrittenText1(f.text2, w4);
    TakeWritten(f.id2, w5);
    TakeWrittenText2(f.longText, w6);
    TakeWritten(f.mark, WriteFromActor(f, tail));
    ActorPartReadsLayout(f, tail);
  }

  lemma ActorPartReadsLayout(f: Layout, tail: seq<byte>)
    requires Fits(f)
    ensures IdentityFromActor(WriteFromActor(f, tail)) == Outcome(f, tail)
  {
    hide Take, TakeText, TakeNumber, Text1, Text2, Number, Outcome;
    var w9 := Number(f.route, 2) + tail;
    var w8 := [f.action] + w9;
    var w7 := f.id6 + w8;
    var w6 := Text1(f.text6) + w7;
    var w5 := f.id5 + w6;
    var w4 := Text1(f.text5) + w5;
    var w3 := f.id4 + w4;
    var w2 := Text1(f.text4) + w3;
    var w1 := f.id3 + w2;
    TakeWrittenText1(f.actor, w1);
    TakeWritten(f.id3, w2);
    TakeWrittenText1(f.text4, w3);
    TakeWritten(f.id4, w4);
    TakeWrittenText1(f.text5, w5);
    TakeWritten(f.id5, w6);
    TakeWrittenText1(f.text6, w7);
    TakeWritten(f.id6, w8);
    TakeWritten([f.action], w9);
    TakeWrittenNumber2(f.route, tail);
    AuthoritiesRead(f, tail);
  }

  lemma AuthoritiesRead(f: Layout, tail: seq<byte>)
    ensures Outcome(f, tail) ==
            if f.action == 1 && f.route >= 16 then
              match TakeNumber(tail, 8)
              case None => None
              case Some(p) =>
                match TakeNumber(p.1, 8)
                case None => None
                case Some(t) => Some(Command(f.actor, f.action, p.0, t.0))
            else Some(Command(f.actor, f.action, 0, 0))
  {
    if |tail| >= 16 {
      assert tail[8..][..8] == tail[8..16];
    }
  }

  lemma TextOneWasWritten(rest: seq<byte>)
    requires TakeText(rest, 1).Some?
    ensures var (t, tail) := TakeText(rest, 1).value; |t| < 0x100 && rest == Text1(t) + tail
  {
    var (digits, r) := Take(rest, 1).value;
    BigEndianOne(digits[0]);
    assert digits == [digits[0]];
    var (t, tail) := TakeText(rest, 1).value;
    assert rest == [digits[0]] + (t + tail);
  }

  lemma NumberTwoWasWritten(rest: seq<byte>)
    requires TakeNumber(rest, 2).Some?
    ensures var (n, tail) := TakeNumber(rest, 2).value; n < 0x1_0000 && rest == Number(n, 2) + tail
  {
    var (digits, tail) := Take(rest, 2).value;
    NumberBigEndian(digits);
    WithinTwo(BigEndian(digits));
  }

  lemma TextTwoWasWritten(rest: seq<byte>)
    requires TakeText(rest, 2).Some?
    ensures var (t, tail) := TakeText(rest, 2).value; |t| < 0x1_0000 && rest == Text2(t) + tail
  {
    NumberTwoWasWritten(rest);
    var (n, r) := TakeNumber(rest, 2).value;
    var (t, tail) := TakeText(rest, 2).value;
    assert rest == Number(n, 2) + (t + tail);
    assert Text2(t) + tail == Number(n, 2) + (t + tail);
  }

  /** Conversely, every body understood as a command 44 is some layout followed by a tail. */
  lemma IdentityHasLayout(body: seq<byte>) returns (f: Layout, tail: seq<byte>)
    requires Identity(body).Some?
    ensures Fits(f) && body == Write(f, tail) && Identity(body) == Outcome(f, tail)
  {
    hide Take, TakeText, TakeNumber, Text1, Text2, Number, BigEndian, IdentityFromActor, WriteFromActor, Outcome;
    var (header, r1) := Take(body, 5 + 16).value;
    TextOneWasWritten(r1);
    var (text1, r2) := TakeText(r1, 1).value;
    var (id1, r3) := Take(r2, 8).value;
    TextOneWasWritten(r3);
    var (text2, r4) := TakeText(r3, 1).value;
    var (id2, r5) := Take(r4, 8).value;
    TextTwoWasWritten(r5);
    var (longText, r6) := TakeText(r5, 2).value;
    var (mark, r7) := Take(r6, 1).value;
    var rest: Layout;
    rest, tail := ActorPartHasLayout(r7, header);
    f := rest.(text1 := text1, id1 := id1, text2 := text2, id2 := id2, longText := longText, mark := mark);
    assert WriteFromActor(f, tail) == r7 by { SameActorPart(f, rest, tail); }
    assert Outcome(f, tail) == Outcome(rest, tail) by { SameActorPart(f, rest, tail); }
  }

  lemma SameActorPart(f: Layout, g: Layout, tail: seq<byte>)
    requires Fits(f) && Fits(g)
    requires f.actor == g.actor && f.id3 == g.id3 && f.text4 == g.text4 && f.id4 == g.id4 && f.text5 == g.text5
             && f.id5 == g.id5 && f.text6 == g.text6 && f.id6 == g.id6 && f.action == g.action && f.route == g.route
    ensures WriteFromActor(f, tail) == WriteFromActor(g, tail) && Outcome(f, tail) == Outcome(g, tail)
  {
  }

  lemma ActorPartHasLayout(r7: seq<byte>, header: seq<byte>) returns (f: Layout, tail: seq<byte>)
    requires IdentityFromActor(r7).Some?
    requires |header| == 5 + 16 && header[0] == 90 && header[1] == 77 && header[3] == 44
    ensures Fits(f) && f.header == header
    ensures r7 == WriteFromActor(f, tail) && IdentityFromActor(r7) == Outcome(f, tail)
  {
    hide Take, TakeText, TakeNumber, Text1, Text2, Number, BigEndian, Outcome;
    TextOneWasWritten(r7);
    var (actor, r8) := TakeText(r7, 1).value;
    var (id3, r9) := Take(r8, 8).value;
    TextOneWasWritten(r9);
    var (text4, r10) := TakeText(r9, 1).value;
    var (id4, r11) := Take(r10, 8).value;
    TextOneWasWritten(r11);
    var (text5, r12) := TakeText(r11, 1).value;
    var (id5, r13) := Take(r12, 8).value;
    TextOneWasWritten(r13);
    var (text6, r14) := TakeText(r13, 1).value;
    var (id6, r15) := Take(r14, 8).value;
    var (action, r16) := Take(r15, 1).value;
    NumberTwoWasWritten(r16);
    var (route, r17) := TakeNumber(r16, 2).value;
    tail := r17;
    var blank := seq(8, _ => 0);
    assert action == [action[0]];
    f := Layout(header, [], blank, [], blank, [], [0], actor, id3, text4, id4, text5, id5, text6, id6, action[0],
      route);
    ActorPartReadsLayout(f, tail);
  }
}
