/** The header block of one frame: UTF-8 text, CRLF lines, `key: value` pairs. */
module HeaderText {
  import opened Bytes

  /** Text as code points, after `std::str::from_utf8`. */
  type Text = seq<int>

  datatype HeaderError =
    | NotUtf8
    | MissingColon
    | LengthOverflow
    | InvalidOrDuplicate
    | InvalidLength

  const CR: byte := 13
  const LF: byte := 10
  const COLON: byte := 58
  const SPACE: byte := 32
  const CRLF: seq<byte> := [CR, LF]
  const BLANK_LINE: seq<byte> := [CR, LF, CR, LF]

  // "Content-Length" and "Content-Type" as bytes.
  const CONTENT_LENGTH: seq<byte> := [67, 111, 110, 116, 101, 110, 116, 45, 76, 101, 110, 103, 116, 104]
  const CONTENT_TYPE: seq<byte> := [67, 111, 110, 116, 101, 110, 116, 45, 84, 121, 112, 101]
  // "application/json"
  const JSON_TYPE: seq<byte> := [97, 112, 112, 108, 105, 99, 97, 116, 105, 111, 110, 47, 106, 115, 111, 110]
  // "application/vscode-jsonrpc; charset=utf-8"
  const LSP_TYPE: seq<byte> := [97, 112, 112, 108, 105, 99, 97, 116, 105, 111, 110, 47, 118, 115, 99, 111, 100, 101, 45,
                                106, 115, 111, 110, 114, 112, 99, 59, 32, 99, 104, 97, 114, 115, 101, 116, 61, 117, 116, 102, 45, 56]

  /** Lengths are parsed as `usize`, 64 bits wide. */
  const USIZE_END: nat := 0x1_0000_0000_0000_0000

  // UTF-8 -----------------------------------------------------------------

  predicate Continuation(b: byte, low: int, high: int) {
    low <= b <= high
  }

  /** The payload bits of a byte whose marker bits are `marker`. */
  function Bits(b: byte, marker: int): int {
    b - marker
  }

  /** Strict UTF-8 decoding: shortest form, no surrogates, at most U+10FFFF. */
  function Utf8(s: seq<byte>): Option<Text>
    decreases |s|
  {
    if s == [] then Some([])
    else if s[0] < 0x80 then Prepend(s[0], Utf8(s[1..]))
    else if 0xC2 <= s[0] <= 0xDF && |s| >= 2 && Continuation(s[1], 0x80, 0xBF) then
      Prepend(64 * Bits(s[0], 0xC0) + Bits(s[1], 0x80), Utf8(s[2..]))
    else if 0xE0 <= s[0] <= 0xEF && |s| >= 3
            && Continuation(s[1], if s[0] == 0xE0 then 0xA0 else 0x80, if s[0] == 0xED then 0x9F else 0xBF)
            && Continuation(s[2], 0x80, 0xBF) then
      Prepend(4096 * Bits(s[0], 0xE0) + 64 * Bits(s[1], 0x80) + Bits(s[2], 0x80), Utf8(s[3..]))
    else if 0xF0 <= s[0] <= 0xF4 && |s| >= 4
            && Continuation(s[1], if s[0] == 0xF0 then 0x90 else 0x80, if s[0] == 0xF4 then 0x8F else 0xBF)
            && Continuation(s[2], 0x80, 0xBF) && Continuation(s[3], 0x80, 0xBF) then
      Prepend(262144 * Bits(s[0], 0xF0) + 4096 * Bits(s[1], 0x80) + 64 * Bits(s[2], 0x80) + Bits(s[3], 0x80),
              Utf8(s[4..]))
    else None
  }

  function Prepend(c: int, rest: Option<Text>): Option<Text> {
    match rest
    case Some(t) => Some([c] + t)
    case None => None
  }

  predicate Ascii(s: Text) {
    forall i :: 0 <= i < |s| ==> 0 <= s[i] < 0x80
  }

  lemma {:induction false} AsciiIsUtf8(s: seq<byte>)
    requires Ascii(s)
    ensures Utf8(s) == Some(s)
  {
    if s != [] {
      AsciiIsUtf8(s[1..]);
      assert [s[0]] + s[1..] == s;
    }
  }

  // Lines and fields --------------------------------------------------------

  /** `text.split("\r\n")`. */
  function Lines(t: Text): (lines: seq<Text>)
    ensures lines != []
  {
    if |t| < 2 then [t]
    else if t[0] == CR && t[1] == LF then [[]] + Lines(t[2..])
    else
      var rest := Lines(t[1..]);
      [[t[0]] + rest[0]] + rest[1..]
  }

  /** The index of the first colon, or the length when there is none. */
  function ColonAt(line: Text): (i: nat)
    ensures i <= |line|
    ensures forall j :: 0 <= j < i ==> line[j] != COLON
    ensures i < |line| ==> line[i] == COLON
  {
    if line == [] then 0
    else if line[0] == COLON then 0
    else 1 + ColonAt(line[1..])
  }

  /** Unicode White_Space, which `str::trim` removes. */
  predicate White(c: int) {
    9 <= c <= 13 || c == 0x20 || c == 0x85 || c == 0xA0 || c == 0x1680 || 0x2000 <= c <= 0x200A
    || c == 0x2028 || c == 0x2029 || c == 0x202F || c == 0x205F || c == 0x3000
  }

  function TrimStart(t: Text): Text {
    if t != [] && White(t[0]) then TrimStart(t[1..]) else t
  }

  function TrimEnd(t: Text): Text {
    if t != [] && White(t[|t| - 1]) then TrimEnd(t[..|t| - 1]) else t
  }

  function Trim(t: Text): Text {
    TrimEnd(TrimStart(t))
  }

  function LowerChar(c: int): int {
    if 65 <= c <= 90 then c + 32 else c
  }

  /** `to_ascii_lowercase`. */
  function Lower(t: Text): Text {
    seq(|t|, i requires 0 <= i < |t| => LowerChar(t[i]))
  }

  /** What the header loop has seen so far. */
  datatype Fields = Fields(length: Option<nat>, contentType: bool, extra: map<Text, Text>)

  /** One `key: value` line, with the branch order of the header loop. */
  function Line(line: Text, allowed: seq<Text>, f: Fields): Result<Fields, HeaderError> {
    var colon := ColonAt(line);
    if colon == |line| then Err(MissingColon)
    else
      var key := Lower(line[..colon]);
      var value := Trim(line[colon + 1..]);
      if key == Lower(CONTENT_LENGTH) && f.length.None? && value != [] && AllDigits(value) then
        if DecimalValue(value) < USIZE_END then Ok(f.(length := Some(DecimalValue(value)))) else Err(LengthOverflow)
      else if key == Lower(CONTENT_TYPE) && !f.contentType && (value == JSON_TYPE || value == LSP_TYPE) then
        Ok(f.(contentType := true))
      else if (exists i :: 0 <= i < |allowed| && key == Lower(allowed[i])) && key !in f.extra then
        Ok(f.(extra := f.extra[key := value]))
      else Err(InvalidOrDuplicate)
  }

  function AllLines(lines: seq<Text>, allowed: seq<Text>, f: Fields): Result<Fields, HeaderError> {
    if lines == [] then Ok(f)
    else
      match Line(lines[0], allowed, f)
      case Err(e) => Err(e)
      case Ok(g) => AllLines(lines[1..], allowed, g)
  }

  /** A header block ending in a blank line: the body length and the extra
      headers. The blank line is ASCII, so decoding before or after cutting it
      off gives the same text and the same failures. */
  function Header(data: seq<byte>, limit: nat, allowed: seq<Text>): (r: Result<(nat, map<Text, Text>), HeaderError>)
    requires |data| >= 4
    ensures r.Ok? ==> 0 < r.value.0 <= limit
  {
    match Utf8(data[..|data| - 4])
    case None => Err(NotUtf8)
    case Some(text) =>
      match AllLines(Lines(text), allowed, Fields(None, false, map[]))
      case Err(e) => Err(e)
      case Ok(f) =>
        if f.length.Some? && 0 < f.length.value <= limit then Ok((f.length.value, f.extra)) else Err(InvalidLength)
  }

  // Reading back what the encoders write -------------------------------------

  /** A line an encoder prints: `key: numeral`. */
  function Printed(key: seq<byte>, n: nat): seq<byte> {
    key + [COLON, SPACE] + Decimal(n)
  }

  /** A key the encoders use: plain ASCII without separators. */
  predicate PlainKey(key: seq<byte>) {
    Ascii(key) && forall i :: 0 <= i < |key| ==> key[i] != COLON && key[i] != CR && key[i] != LF
  }

  lemma ContentLengthIsPlain()
    ensures PlainKey(CONTENT_LENGTH) && |CONTENT_LENGTH| == 14
  {
  }

  /** The length line of a frame sets the length. */
  lemma LengthLine(size: nat, allowed: seq<Text>)
    requires size < USIZE_END
    ensures Line(Printed(CONTENT_LENGTH, size), allowed, Fields(None, false, map[]))
         == Ok(Fields(Some(size), false, map[]))
  {
    hide Decimal, Trim, ColonAt, Printed;
    ContentLengthIsPlain();
    PrintedLine(CONTENT_LENGTH, size);
  }

  lemma {:induction false} ColonAfterKey(key: Text, rest: Text)
    requires forall i :: 0 <= i < |key| ==> key[i] != COLON
    ensures ColonAt(key + [COLON] + rest) == |key|
  {
    var line := key + [COLON] + rest;
    assert line[|key|] == COLON;
  }

  lemma TrimNumeral(n: nat)
    ensures Trim([SPACE] + Decimal(n)) == Decimal(n)
  {
    var d := Decimal(n);
    assert ([SPACE] + d)[1..] == d;
    assert !White(d[0]) && !White(d[|d| - 1]);
    assert TrimStart(d) == d;
  }

  /** How a printed line splits: the key back, and the numeral as the value. */
  lemma PrintedLine(key: seq<byte>, n: nat)
    requires PlainKey(key)
    ensures ColonAt(Printed(key, n)) == |key| < |Printed(key, n)|
    ensures Printed(key, n)[..|key|] == key
    ensures Trim(Printed(key, n)[|key| + 1..]) == Decimal(n)
    ensures Ascii(Printed(key, n))
    ensures forall i :: 0 <= i < |Printed(key, n)| ==> Printed(key, n)[i] != CR && Printed(key, n)[i] != LF
  {
    hide Decimal, Trim, ColonAt;
    var line := Printed(key, n);
    assert line == key + [COLON] + ([SPACE] + Decimal(n));
    ColonAfterKey(key, [SPACE] + Decimal(n));
    assert line[|key| + 1..] == [SPACE] + Decimal(n);
    TrimNumeral(n);
  }

  /** A text without CR is one line; before a CRLF it is the first line. */
  lemma {:induction false} LineBreak(line: Text, rest: Text)
    requires forall i :: 0 <= i < |line| ==> line[i] != CR
    ensures Lines(line) == [line]
    ensures Lines(line + CRLF + rest) == [line] + Lines(rest)
  {
    if line == [] {
      assert (line + CRLF + rest)[2..] == rest;
    } else {
      LineBreak(line[1..], rest);
      var t := line + CRLF + rest;
      assert t[1..] == line[1..] + CRLF + rest;
      assert [line[0]] + line[1..] == line;
      if |line| >= 2 {
        assert line[1] != LF || line[0] != CR;
      }
    }
  }
}
