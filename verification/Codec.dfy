/** Frame encoders, and the round trip through the decoder. */
module Codec {
  import opened Bytes
  import opened HeaderText
  import opened Framing

  const MAX_BODY: nat := 1024 * 1024
  // "Descriptor-Count"
  const DESCRIPTOR_COUNT: seq<byte> := [68, 101, 115, 99, 114, 105, 112, 116, 111, 114, 45, 67, 111, 117, 110, 116]

  /** The frame `encode` writes: one length line, a blank line, the body. */
  function Plain(body: seq<byte>): seq<byte> {
    Printed(CONTENT_LENGTH, |body|) + BLANK_LINE + body
  }

  /** `encode`, after serialization. */
  function Encode(body: seq<byte>): Option<seq<byte>> {
    if |body| > MAX_BODY then None else Some(Plain(body))
  }

  /** The header text of a descriptor-bearing frame. */
  function CountedHead(size: nat, count: nat): seq<byte> {
    Printed(CONTENT_LENGTH, size) + CRLF + Printed(DESCRIPTOR_COUNT, count)
  }

  /** The frame `Channel::queue` writes. */
  function Counted(body: seq<byte>, count: nat): seq<byte> {
    CountedHead(|body|, count) + BLANK_LINE + body
  }

  lemma DescriptorCountIsPlain()
    ensures PlainKey(DESCRIPTOR_COUNT) && |DESCRIPTOR_COUNT| == 16
    ensures |Lower(DESCRIPTOR_COUNT)| == 16 && |Lower(CONTENT_LENGTH)| == 14 && |Lower(CONTENT_TYPE)| == 12
    ensures Lower(DESCRIPTOR_COUNT) != Lower(CONTENT_LENGTH) && Lower(DESCRIPTOR_COUNT) != Lower(CONTENT_TYPE)
  {
  }

  /** The first blank line of a block is found where the block ends, if the block has none inside. */
  lemma FirstBlankLine(head: seq<byte>, body: seq<byte>)
    requires forall m :: 0 <= m < |head| && head[m] == CR ==> m + 2 < |head| && head[m + 2] != CR
    ensures HeaderEnd(head + BLANK_LINE + body, 0) == Some(|head| + 4)
  {
    var all := head + BLANK_LINE + body;
    assert all[|head|..|head| + 4] == BLANK_LINE;
    assert TerminatorAt(all, |head| + 4);
    forall m: nat | TerminatorAt(all, m) ensures m >= |head| + 4 {
      assert all[m - 4..m][0] == all[m - 4] && all[m - 4..m][2] == all[m - 2];
    }
  }

  lemma PlainHeader(size: nat, limit: nat, allowed: seq<Text>)
    requires 0 < size <= limit < USIZE_END
    ensures Header(Printed(CONTENT_LENGTH, size) + BLANK_LINE, limit, allowed) == Ok((size, map[]))
  {
    hide Line, Lines, Utf8, Printed;
    var line := Printed(CONTENT_LENGTH, size);
    ContentLengthIsPlain();
    PrintedLine(CONTENT_LENGTH, size);
    assert (line + BLANK_LINE)[..|line|] == line;
    AsciiIsUtf8(line);
    LineBreak(line, []);
    LengthLine(size, allowed);
    var start := Fields(None, false, map[]);
    var lines: seq<Text> := [line];
    assert lines[1..] == [];
    assert AllLines(lines, allowed, start) == Ok(Fields(Some(size), false, map[]));
  }

  /** The count line of a frame is kept as an extra header. */
  lemma CountLine(size: nat, count: nat)
    ensures Line(Printed(DESCRIPTOR_COUNT, count), [DESCRIPTOR_COUNT], Fields(Some(size), false, map[]))
         == Ok(Fields(Some(size), false, map[Lower(DESCRIPTOR_COUNT) := Decimal(count)]))
  {
    hide Decimal, Trim, ColonAt, Printed, Lower;
    DescriptorCountIsPlain();
    PrintedLine(DESCRIPTOR_COUNT, count);
    var allowed: seq<Text> := [DESCRIPTOR_COUNT];
    assert Lower(allowed[0]) == Lower(DESCRIPTOR_COUNT);
  }

  lemma CountedHeader(size: nat, count: nat, limit: nat)
    requires 0 < size <= limit < USIZE_END
    ensures Header(CountedHead(size, count) + BLANK_LINE, limit, [DESCRIPTOR_COUNT])
         == Ok((size, map[Lower(DESCRIPTOR_COUNT) := Decimal(count)]))
  {
    hide Line, Lines, Utf8, Printed, Lower, Decimal, PlainKey;
    var first := Printed(CONTENT_LENGTH, size);
    var second := Printed(DESCRIPTOR_COUNT, count);
    ContentLengthIsPlain();
    DescriptorCountIsPlain();
    PrintedLine(CONTENT_LENGTH, size);
    PrintedLine(DESCRIPTOR_COUNT, count);
    var head := CountedHead(size, count);
    assert (head + BLANK_LINE)[..|head|] == head;
    AsciiIsUtf8(head);
    LineBreak(first, second);
    LineBreak(second, []);
    LengthLine(size, [DESCRIPTOR_COUNT]);
    CountLine(size, count);
    var start := Fields(None, false, map[]);
    var lines: seq<Text> := [first] + [second];
    assert lines[1..] == [second] && lines[1..][1..] == [];
    assert AllLines(lines[1..], [DESCRIPTOR_COUNT], Fields(Some(size), false, map[]))
        == Ok(Fields(Some(size), false, map[Lower(DESCRIPTOR_COUNT) := Decimal(count)]));
    assert Lines(head) == lines;
  }

  /** Every numeral below 2^64 has at most 20 digits, so a generated header is short. */
  lemma NumeralIsShort(n: nat)
    requires n < USIZE_END
    ensures |Decimal(n)| <= 20
  {
    assert Pow10(20) == 100_000_000_000_000_000_000 by {
      assert Pow10(5) == 100_000;
      assert Pow10(10) == 10_000_000_000;
      assert Pow10(15) == 1_000_000_000_000_000;
    }
    DecimalLength(n, 20);
  }

  lemma PlainHeadShape(size: nat)
    requires size < USIZE_END
    ensures var head := Printed(CONTENT_LENGTH, size);
            |head| + 4 <= MAX_HEADER && forall m :: 0 <= m < |head| ==> head[m] != CR
  {
    hide Decimal;
    ContentLengthIsPlain();
    PrintedLine(CONTENT_LENGTH, size);
    NumeralIsShort(size);
  }

  /** A plain frame decodes to its own body, whatever follows it. */
  lemma PlainFrame(config: Config, body: seq<byte>, rest: seq<byte>)
    requires 0 < |body| <= config.limit < USIZE_END
    ensures OneShot(config, Plain(body) + rest) == Frame(|Plain(body)|, body, map[])
    ensures |body| < |Plain(body)| <= MAX_HEADER + |body|
  {
    hide Header, HeaderEnd, TerminatorAt;
    var head := Printed(CONTENT_LENGTH, |body|);
    PlainHeadShape(|body|);
    FirstBlankLine(head, body);
    var n := |head| + 4;
    assert Plain(body)[..n] == head + BLANK_LINE;
    PlainHeader(|body|, config.limit, config.allowed);
    assert Plain(body)[n..n + |body|] == body;
    VerdictIsStable(config, Plain(body), rest);
  }

  lemma CountedHeadShape(size: nat, count: nat)
    requires size < USIZE_END && count < USIZE_END
    ensures var head := CountedHead(size, count);
            |head| + 4 <= MAX_HEADER
            && forall m :: 0 <= m < |head| && head[m] == CR ==> m + 2 < |head| && head[m + 2] != CR
  {
    hide Decimal;
    ContentLengthIsPlain();
    DescriptorCountIsPlain();
    PrintedLine(CONTENT_LENGTH, size);
    PrintedLine(DESCRIPTOR_COUNT, count);
    NumeralIsShort(size);
    NumeralIsShort(count);
  }

  /** A counted frame decodes to its own body and count, whatever follows it. */
  lemma CountedFrame(limit: nat, body: seq<byte>, count: nat, rest: seq<byte>)
    requires 0 < |body| <= limit < USIZE_END && count < USIZE_END
    ensures OneShot(Config(limit, [DESCRIPTOR_COUNT]), Counted(body, count) + rest)
         == Frame(|Counted(body, count)|, body, map[Lower(DESCRIPTOR_COUNT) := Decimal(count)])
    ensures |Counted(body, count)| <= MAX_HEADER + |body|
  {
    hide Header, HeaderEnd, TerminatorAt;
    var head := CountedHead(|body|, count);
    CountedHeadShape(|body|, count);
    FirstBlankLine(head, body);
    var n := |head| + 4;
    assert Counted(body, count)[..n] == head + BLANK_LINE;
    CountedHeader(|body|, count, limit);
    assert Counted(body, count)[n..n + |body|] == body;
    VerdictIsStable(Config(limit, [DESCRIPTOR_COUNT]), Counted(body, count), rest);
  }

  /** Every proper prefix of a frame is still pending. */
  lemma PrefixIsPending(config: Config, frame: seq<byte>, k: nat)
    requires OneShot(config, frame).Frame? && OneShot(config, frame).size == |frame|
    requires k < |frame|
    ensures OneShot(config, frame[..k]).Incomplete?
  {
    if !OneShot(config, frame[..k]).Incomplete? {
      assert frame[..k] + frame[k..] == frame;
      VerdictIsStable(config, frame[..k], frame[k..]);
    }
  }

  /** A fresh decoder takes exactly the first frame of its input. */
  lemma FirstFrame(config: Config, bytes: seq<byte>)
    requires OneShot(config, bytes).Frame?
    ensures Push(Fresh(config), bytes).Whole?
    ensures Push(Fresh(config), bytes).consumed == OneShot(config, bytes).size
    ensures Push(Fresh(config), bytes).body == OneShot(config, bytes).body
    ensures Push(Fresh(config), bytes).decoder.headers == OneShot(config, bytes).headers
  {
    assert OneShot(config, []).Incomplete?;
    assert [] + bytes == bytes;
    PushMeans(config, [], bytes);
  }

  /** The first frame of an input decodes the same when it stands alone. */
  lemma FirstFrameAlone(config: Config, bytes: seq<byte>)
    requires OneShot(config, bytes).Frame?
    ensures OneShot(config, bytes).size <= |bytes|
    ensures OneShot(config, bytes[..OneShot(config, bytes).size]) == OneShot(config, bytes)
  {
    hide Header;
    var n := HeaderEnd(bytes, 0).value;
    var size := OneShot(config, bytes).size;
    var first := bytes[..size];
    assert bytes == first + bytes[size..];
    HeaderEndExtends(first, bytes[size..]);
    assert HeaderEnd(first, 0) == Some(n);
    assert first[..n] == bytes[..n] && first[n..size] == bytes[n..size];
  }

  /** Frames one after another, as `encode` writes them. */
  function EncodeAll(bodies: seq<seq<byte>>): seq<byte> {
    if bodies == [] then [] else Plain(bodies[0]) + EncodeAll(bodies[1..])
  }

  /** A reader that uses a fresh decoder for each frame; None unless the input ends with a frame. */
  function DecodeAll(config: Config, bytes: seq<byte>): Option<seq<seq<byte>>>
    decreases |bytes|
  {
    if bytes == [] then Some([])
    else
      PushKeepsSound(Fresh(config), bytes);
      match Push(Fresh(config), bytes)
      case Whole(_, consumed, body) =>
        (match DecodeAll(config, bytes[consumed..])
         case Some(bodies) => Some([body] + bodies)
         case None => None)
      case _ => None
  }

  /** Round trip: any list of nonempty bodies within the limit comes back, with nothing left over. */
  lemma {:induction false} RoundTrip(config: Config, bodies: seq<seq<byte>>)
    requires config.limit < USIZE_END
    requires forall i :: 0 <= i < |bodies| ==> 0 < |bodies[i]| <= config.limit
    ensures DecodeAll(config, EncodeAll(bodies)) == Some(bodies)
  {
    hide OneShot, Push, Plain;
    if bodies != [] {
      var rest := EncodeAll(bodies[1..]);
      var all := Plain(bodies[0]) + rest;
      PlainFrame(config, bodies[0], rest);
      FirstFrame(config, all);
      assert all[|Plain(bodies[0])|..] == rest;
      RoundTrip(config, bodies[1..]);
      assert all == EncodeAll(bodies) && all != [];
      assert [bodies[0]] + bodies[1..] == bodies;
    }
  }
}
