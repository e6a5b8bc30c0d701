/** The byte scan that bounds JSON nesting before parsing. */
module Nesting {
  import opened Bytes

  const MAX_DEPTH: nat := 32
  const QUOTE: byte := 34
  const BACKSLASH: byte := 92

  predicate Opens(b: byte) {
    b == 91 || b == 123
  }

  predicate Closes(b: byte) {
    b == 93 || b == 125
  }

  /** The three locals of the scan. */
  datatype Scan = Scan(depth: nat, quoted: bool, escaped: bool)

  /** One byte of the scan; None is the refusal. */
  function Step(s: Scan, b: byte): Option<Scan> {
    if s.quoted then
      if s.escaped then Some(s.(escaped := false))
      else if b == BACKSLASH then Some(s.(escaped := true))
      else if b == QUOTE then Some(s.(quoted := false))
      else Some(s)
    else if b == QUOTE then Some(s.(quoted := true))
    else if Opens(b) then if s.depth + 1 > MAX_DEPTH then None else Some(s.(depth := s.depth + 1))
    else if Closes(b) then Some(s.(depth := if s.depth == 0 then 0 else s.depth - 1))
    else Some(s)
  }

  function Steps(s: Scan, bytes: seq<byte>): Option<Scan>
    decreases |bytes|
  {
    if bytes == [] then Some(s)
    else
      match Step(s, bytes[0])
      case None => None
      case Some(t) => Steps(t, bytes[1..])
  }

  /** The scan loop of `parse_with_limit`. */
  method TooDeep(bytes: seq<byte>) returns (refused: bool)
    ensures refused <==> Steps(Scan(0, false, false), bytes).None?
  {
    var depth: nat, quoted, escaped := 0, false, false;
    assert bytes[0..] == bytes;
    for i := 0 to |bytes|
      invariant Steps(Scan(0, false, false), bytes) == Steps(Scan(depth, quoted, escaped), bytes[i..])
    {
      var b := bytes[i];
      assert bytes[i..][0] == b && bytes[i..][1..] == bytes[i + 1..];
      if quoted {
        if escaped {
          escaped := false;
        } else if b == BACKSLASH {
          escaped := true;
        } else if b == QUOTE {
          quoted := false;
        }
      } else if b == QUOTE {
        quoted := true;
      } else if Opens(b) {
        depth := depth + 1;
        if depth > MAX_DEPTH {
          return true;
        }
      } else if Closes(b) {
        depth := if depth == 0 then 0 else depth - 1;
      }
    }
    refused := false;
  }

  // JSON text, as the grammar of RFC 8259 sections 2, 4, 5 and 7 writes it ------

  /** A character of a string: any byte but quote and backslash, or a backslash
      escape with the byte after it (the digits of `\u` escapes are plain bytes). */
  datatype Character = Plain(b: byte) | Escape(b: byte)

  /** A value as written: blanks and separators are part of the text. */
  datatype Value =
    | Token(text: seq<byte>)
    | String(characters: seq<Character>)
    | Container(open: byte, parts: seq<Part>, after: seq<byte>, close: byte)

  /** What stands between the brackets of a container: values (an object's keys are
      string values), each after the blanks, commas and colons that precede it. */
  datatype Part = Part(before: seq<byte>, value: Value)

  /** Numbers, literals, blanks and separators: no quote, no bracket. */
  predicate Neutral(text: seq<byte>) {
    forall i :: 0 <= i < |text| ==> text[i] != QUOTE && !Opens(text[i]) && !Closes(text[i])
  }

  predicate WrittenString(characters: seq<Character>) {
    forall i :: 0 <= i < |characters| && characters[i].Plain? ==>
                  characters[i].b != QUOTE && characters[i].b != BACKSLASH
  }

  predicate Written(v: Value)
    decreases v, 0
  {
    match v
    case Token(text) => Neutral(text)
    case String(characters) => WrittenString(characters)
    case Container(open, parts, after, close) => Opens(open) && Closes(close) && Neutral(after) && WrittenParts(parts)
  }

  predicate WrittenParts(parts: seq<Part>)
    decreases parts, 1
  {
    parts != [] ==> Neutral(parts[0].before) && Written(parts[0].value) && WrittenParts(parts[1..])
  }

  function CharacterText(c: Character): seq<byte> {
    match c
    case Plain(b) => [b]
    case Escape(b) => [BACKSLASH, b]
  }

  function CharactersText(characters: seq<Character>): seq<byte> {
    if characters == [] then [] else CharacterText(characters[0]) + CharactersText(characters[1..])
  }

  function Text(v: Value): seq<byte>
    decreases v, 0
  {
    match v
    case Token(text) => text
    case String(characters) => [QUOTE] + CharactersText(characters) + [QUOTE]
    case Container(open, parts, after, close) => [open] + PartsText(parts) + after + [close]
  }

  function PartsText(parts: seq<Part>): seq<byte>
    decreases parts, 1
  {
    if parts == [] then [] else parts[0].before + Text(parts[0].value) + PartsText(parts[1..])
  }

  function Max(a: nat, b: nat): nat {
    if a < b then b else a
  }

  /** Container nesting: 0 for scalars, one more than the deepest part for containers. */
  function Depth(v: Value): nat
    decreases v, 0
  {
    if v.Container? then 1 + PartsDepth(v.parts) else 0
  }

  function PartsDepth(parts: seq<Part>): nat
    decreases parts, 1
  {
    if parts == [] then 0 else Max(Depth(parts[0].value), PartsDepth(parts[1..]))
  }

  lemma {:induction false} StepsSplit(s: Scan, a: seq<byte>, b: seq<byte>)
    ensures Steps(s, a + b) ==
            match Steps(s, a)
            case None => None
            case Some(t) => Steps(t, b)
    decreases |a|
  {
    if a == [] {
      assert a + b == b;
    } else {
      assert (a + b)[0] == a[0] && (a + b)[1..] == a[1..] + b;
      match Step(s, a[0])
      case Some(t) => StepsSplit(t, a[1..], b);
      case None =>
    }
  }

  lemma {:induction false} NeutralText(depth: nat, text: seq<byte>)
    requires Neutral(text)
    ensures Steps(Scan(depth, false, false), text) == Some(Scan(depth, false, false))
    decreases |text|
  {
    if text != [] {
      NeutralText(depth, text[1..]);
    }
  }

  lemma OneCharacter(depth: nat, c: Character)
    requires WrittenString([c])
    ensures Steps(Scan(depth, true, false), CharacterText(c)) == Some(Scan(depth, true, false))
  {
    assert [c][0] == c;
    if c.Escape? {
      StepsSplit(Scan(depth, true, false), [BACKSLASH], [c.b]);
      assert CharacterText(c) == [BACKSLASH] + [c.b];
      assert Steps(Scan(depth, true, true), [c.b]) == Some(Scan(depth, true, false));
    }
  }

  /** Inside a string nothing moves the depth and no byte of it ends the string. */
  lemma {:induction false} StringText(depth: nat, characters: seq<Character>)
    requires WrittenString(characters)
    ensures Steps(Scan(depth, true, false), CharactersText(characters)) == Some(Scan(depth, true, false))
    decreases |characters|
  {
    if characters != [] {
      var c := characters[0];
      StepsSplit(Scan(depth, true, false), CharacterText(c), CharactersText(characters[1..]));
      OneCharacter(depth, c);
      StringText(depth, characters[1..]);
    }
  }

  function Outcome(depth: nat, extra: nat): Option<Scan> {
    if depth + extra > MAX_DEPTH then None else Some(Scan(depth, false, false))
  }

  lemma {:induction false} ValueScan(depth: nat, v: Value)
    requires Written(v) && depth <= MAX_DEPTH
    ensures Steps(Scan(depth, false, false), Text(v)) == Outcome(depth, Depth(v))
    decreases v, 0
  {
    var s := Scan(depth, false, false);
    match v
    case Token(text) => NeutralText(depth, text);
    case String(characters) =>
      StringText(depth, characters);
      StepsSplit(s, [QUOTE], CharactersText(characters));
      StepsSplit(s, [QUOTE] + CharactersText(characters), [QUOTE]);
      assert [QUOTE][1..] == [];
    case Container(open, parts, after, close) =>
      assert [open][1..] == [] && [close][1..] == [];
      StepsSplit(s, [open], PartsText(parts));
      StepsSplit(s, [open] + PartsText(parts), after);
      StepsSplit(s, [open] + PartsText(parts) + after, [close]);
      if depth < MAX_DEPTH {
        PartsScan(depth + 1, parts);
        NeutralText(depth + 1, after);
      }
  }

  lemma {:induction false} PartsScan(depth: nat, parts: seq<Part>)
    requires WrittenParts(parts) && depth <= MAX_DEPTH
    ensures Steps(Scan(depth, false, false), PartsText(parts)) == Outcome(depth, PartsDepth(parts))
    decreases parts, 1
  {
    if parts != [] {
      var s := Scan(depth, false, false);
      var Part(before, v) := parts[0];
      NeutralText(depth, before);
      ValueScan(depth, v);
      StepsSplit(s, before, Text(v));
      StepsSplit(s, before + Text(v), PartsText(parts[1..]));
      PartsScan(depth, parts[1..]);
    }
  }

  /** Exactness: the scan refuses a JSON text if and only if its containers nest
      deeper than 32; otherwise it ends at depth 0, outside any string. */
  lemma ScanIsExact(before: seq<byte>, v: Value, after: seq<byte>)
    requires Written(v) && Neutral(before) && Neutral(after)
    ensures Steps(Scan(0, false, false), before + Text(v) + after)
         == if Depth(v) > MAX_DEPTH then None else Some(Scan(0, false, false))
  {
    var s := Scan(0, false, false);
    NeutralText(0, before);
    NeutralText(0, after);
    ValueScan(0, v);
    StepsSplit(s, before, Text(v));
    StepsSplit(s, before + Text(v), after);
  }

  /** Arrays nested `n` deep, with nothing else. */
  function Nested(n: nat): Value {
    if n == 0 then Token([]) else Container(91, [Part([], Nested(n - 1))], [], 93)
  }

  lemma OnePart(v: Value)
    ensures var parts := [Part([], v)];
            && (WrittenParts(parts) <==> Written(v)) && PartsDepth(parts) == Depth(v) && |PartsText(parts)| == |Text(v)|
  {
    var parts := [Part([], v)];
    assert parts[0].value == v && parts[1..] == [];
    assert PartsDepth([]) == 0 && PartsText([]) == [] && WrittenParts([]);
    assert PartsDepth(parts) == Max(Depth(v), PartsDepth(parts[1..]));
    assert PartsText(parts) == [] + Text(v) + PartsText(parts[1..]);
  }

  lemma {:induction false} NestedIsDeep(n: nat)
    ensures Written(Nested(n)) && Depth(Nested(n)) == n && |Text(Nested(n))| == 2 * n
  {
    if n > 0 {
      NestedIsDeep(n - 1);
      OnePart(Nested(n - 1));
    }
  }
}
