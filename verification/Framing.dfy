/** Content-Length framing: the incremental decoder and its one-shot meaning. */
module Framing {
  import opened Bytes
  import opened HeaderText

  const MAX_HEADER: nat := 256

  datatype FrameError = HeaderTooLarge | BadHeader(header: HeaderError) | TimedOut

  /** Body limit and extra headers a decoder is created with. */
  datatype Config = Config(limit: nat, allowed: seq<Text>)

  /** A decoder between two pushes; `body` is the offset and length of the body
      once the header is complete. */
  datatype Decoder = Decoder(config: Config, data: seq<byte>, body: Option<(nat, nat)>, headers: map<Text, Text>) {
    /** How many bytes may be read without running into the next frame. */
    function Remaining(): int {
      match body
      case Some((offset, length)) => offset + length - |data|
      case None => 1
    }
  }

  function Fresh(config: Config): Decoder {
    Decoder(config, [], None, map[])
  }

  predicate EndsWith(data: seq<byte>, suffix: seq<byte>) {
    |data| >= |suffix| && data[|data| - |suffix|..] == suffix
  }

  /** What one byte does to a decoder. */
  datatype Fed = More(decoder: Decoder) | Done(decoder: Decoder, body: seq<byte>) | Bad(error: FrameError)

  function Feed(d: Decoder, b: byte): Fed {
    var e := d.(data := d.data + [b]);
    if d.body.Some? then Settle(e)
    else if |e.data| > MAX_HEADER then Bad(HeaderTooLarge)
    else if EndsWith(e.data, BLANK_LINE) then
      match Header(e.data, d.config.limit, d.config.allowed)
      case Err(error) => Bad(BadHeader(error))
      case Ok((length, extra)) => Settle(e.(body := Some((|e.data|, length)), headers := extra))
    else More(e)
  }

  function Settle(d: Decoder): Fed
    requires d.body.Some?
  {
    var (offset, length) := d.body.value;
    if offset <= |d.data| == offset + length then Done(d, d.data[offset..]) else More(d)
  }

  /** The outcome of one push: still pending, a whole frame, or a failure. */
  datatype Pushed =
    | Pending(decoder: Decoder)
    | Whole(decoder: Decoder, consumed: nat, body: seq<byte>)
    | Failed(error: FrameError)

  function Push(d: Decoder, bytes: seq<byte>): Pushed
    decreases |bytes|
  {
    if bytes == [] then Pending(d)
    else
      match Feed(d, bytes[0])
      case Bad(error) => Failed(error)
      case Done(e, body) => Whole(e, 1, body)
      case More(e) => After(1, Push(e, bytes[1..]))
  }

  /** The same outcome, counted from `n` bytes earlier. */
  function After(n: nat, p: Pushed): Pushed {
    match p
    case Whole(d, consumed, body) => Whole(d, n + consumed, body)
    case _ => p
  }

  /** What a caller gets that pushes `first`, and goes on with `rest` while the frame is pending. */
  function Then(first: Pushed, size: nat, rest: seq<byte>): Pushed {
    match first
    case Pending(d) => After(size, Push(d, rest))
    case _ => first
  }

  /** Splitting the input anywhere changes nothing. */
  lemma {:induction false} PushSplit(d: Decoder, a: seq<byte>, b: seq<byte>)
    ensures Push(d, a + b) == Then(Push(d, a), |a|, b)
    decreases |a|
  {
    if a == [] {
      assert a + b == b;
    } else {
      assert (a + b)[0] == a[0] && (a + b)[1..] == a[1..] + b;
      match Feed(d, a[0])
      case More(e) => PushSplit(e, a[1..], b);
      case _ =>
    }
  }

  /** A caller feeding chunk after chunk, stopping at a frame or a failure. */
  function PushChunks(d: Decoder, chunks: seq<seq<byte>>): Pushed
    decreases |chunks|
  {
    if chunks == [] then Pending(d)
    else
      match Push(d, chunks[0])
      case Pending(e) => After(|chunks[0]|, PushChunks(e, chunks[1..]))
      case stopped => stopped
  }

  /** Incremental decoding refines one-shot decoding, for every split into chunks:
      the same body, the same total consumed and the same acceptance. */
  lemma {:induction false} ChunksArePush(d: Decoder, chunks: seq<seq<byte>>)
    ensures PushChunks(d, chunks) == Push(d, Flatten(chunks))
    decreases |chunks|
  {
    if chunks != [] {
      PushSplit(d, chunks[0], Flatten(chunks[1..]));
      match Push(d, chunks[0])
      case Pending(e) => ChunksArePush(e, chunks[1..]);
      case _ =>
    }
  }

  /** Reachable decoders: no terminator missed, never past the end of the body. */
  predicate Sound(d: Decoder) {
    match d.body
    case None => d.headers == map[]
    case Some((offset, length)) =>
      4 <= offset <= MAX_HEADER && 0 < length && offset <= |d.data| < offset + length
  }

  /** Soundness is kept while a frame is pending, so `remaining` never underflows. */
  lemma {:induction false} PushKeepsSound(d: Decoder, bytes: seq<byte>)
    requires Sound(d)
    ensures Push(d, bytes).Pending? ==> Sound(Push(d, bytes).decoder)
    ensures Push(d, bytes).Pending? ==> Push(d, bytes).decoder.data == d.data + bytes
    ensures Push(d, bytes).Pending? ==> Push(d, bytes).decoder.config == d.config
    ensures Push(d, bytes).Pending? ==> Push(d, bytes).decoder.Remaining() > 0
    ensures Push(d, bytes).Whole? ==> 0 < Push(d, bytes).consumed <= |bytes|
    decreases |bytes|
  {
    if bytes == [] {
      assert d.data + bytes == d.data;
    } else {
      match Feed(d, bytes[0])
      case More(e) =>
        PushKeepsSound(e, bytes[1..]);
        assert d.data + bytes == (d.data + [bytes[0]]) + bytes[1..];
      case _ =>
    }
  }

  /** A chunk no longer than `remaining` is consumed whole: it ends at the frame's
      last byte or before it. */
  lemma {:induction false} WithinRemaining(d: Decoder, bytes: seq<byte>)
    requires Sound(d) && |bytes| <= d.Remaining()
    ensures Push(d, bytes).Whole? ==> Push(d, bytes).consumed == |bytes| == d.Remaining()
    decreases |bytes|
  {
    if bytes != [] {
      match Feed(d, bytes[0])
      case More(e) =>
        if d.body.Some? {
          WithinRemaining(e, bytes[1..]);
        }
      case _ =>
    }
  }

  // The meaning of a byte string, without a decoder --------------------------

  predicate TerminatorAt(bytes: seq<byte>, n: nat) {
    4 <= n <= |bytes| && bytes[n - 4..n] == BLANK_LINE
  }

  /** The end of the first header block at or after `from`. */
  function HeaderEnd(bytes: seq<byte>, from: nat): (n: Option<nat>)
    ensures n.Some? ==> from <= n.value && TerminatorAt(bytes, n.value)
    ensures n.Some? ==> forall m :: from <= m < n.value ==> !TerminatorAt(bytes, m)
    ensures n.None? ==> forall m :: from <= m ==> !TerminatorAt(bytes, m)
    decreases |bytes| - from
  {
    if from > |bytes| then None
    else if TerminatorAt(bytes, from) then Some(from)
    else HeaderEnd(bytes, from + 1)
  }

  datatype Verdict = Incomplete | Frame(size: nat, body: seq<byte>, headers: map<Text, Text>) | Malformed(error: FrameError)

  /** Decode a byte string in one go: find the blank line, read the header, cut the body. */
  function OneShot(config: Config, bytes: seq<byte>): Verdict {
    match HeaderEnd(bytes, 0)
    case Some(n) =>
      if n > MAX_HEADER then Malformed(HeaderTooLarge)
      else
        (match Header(bytes[..n], config.limit, config.allowed)
         case Err(error) => Malformed(BadHeader(error))
         case Ok((length, extra)) =>
           if |bytes| < n + length then Incomplete else Frame(n + length, bytes[n..n + length], extra))
    case None => if |bytes| > MAX_HEADER then Malformed(HeaderTooLarge) else Incomplete
  }

  /** What a push means, in the terms of the one-shot reference. */
  predicate Means(p: Pushed, v: Verdict) {
    match p
    case Pending(_) => v.Incomplete?
    case Whole(d, consumed, body) => v == Frame(consumed, body, d.headers)
    case Failed(error) => v == Malformed(error)
  }

  /** The decoder a pending byte string leaves behind. */
  function Midway(config: Config, bytes: seq<byte>): Decoder
    requires OneShot(config, bytes).Incomplete?
  {
    match HeaderEnd(bytes, 0)
    case None => Decoder(config, bytes, None, map[])
    case Some(n) =>
      var (length, extra) := Header(bytes[..n], config.limit, config.allowed).value;
      Decoder(config, bytes, Some((n, length)), extra)
  }

  /** A later byte does not move a header end already found, and can only create one at the very end. */
  lemma HeaderEndExtends(bytes: seq<byte>, more: seq<byte>)
    ensures HeaderEnd(bytes, 0).Some? ==> HeaderEnd(bytes + more, 0) == HeaderEnd(bytes, 0)
    ensures HeaderEnd(bytes, 0).None? && HeaderEnd(bytes + more, 0).Some? ==> HeaderEnd(bytes + more, 0).value > |bytes|
  {
    var all := bytes + more;
    forall m: nat | m <= |bytes| ensures TerminatorAt(bytes, m) == TerminatorAt(all, m) {
      if 4 <= m {
        assert all[m - 4..m] == bytes[m - 4..m];
      }
    }
    match HeaderEnd(bytes, 0)
    case Some(n) =>
      assert TerminatorAt(all, n);
      match HeaderEnd(all, 0) {
        case Some(m) =>
          assert m <= n;
          assert TerminatorAt(bytes, m);
        case None =>
      }
    case None =>
  }

  /** One byte more: the decoder's step and the reference agree. */
  lemma FeedMeans(config: Config, bytes: seq<byte>, b: byte)
    requires OneShot(config, bytes).Incomplete?
    ensures var v := OneShot(config, bytes + [b]);
            match Feed(Midway(config, bytes), b)
            case More(e) => v.Incomplete? && e == Midway(config, bytes + [b])
            case Done(e, body) => v == Frame(|bytes| + 1, body, e.headers)
            case Bad(error) => v == Malformed(error)
  {
    hide Header;
    var all := bytes + [b];
    HeaderEndExtends(bytes, [b]);
    match HeaderEnd(bytes, 0) {
      case Some(n) =>
        assert all[..n] == bytes[..n];
        var (length, extra) := Header(bytes[..n], config.limit, config.allowed).value;
        if |all| == n + length {
          assert all[n..n + length] == all[n..];
        }
      case None =>
        assert EndsWith(all, BLANK_LINE) <==> TerminatorAt(all, |all|);
        match HeaderEnd(all, 0) {
          case Some(m) =>
            assert m == |all|;
            assert all[..m] == all;
          case None =>
            assert !TerminatorAt(all, |all|);
        }
    }
  }

  /** A verdict already reached does not depend on later bytes. */
  lemma VerdictIsStable(config: Config, bytes: seq<byte>, more: seq<byte>)
    requires !OneShot(config, bytes).Incomplete?
    ensures OneShot(config, bytes + more) == OneShot(config, bytes)
  {
    hide Header, HeaderEnd;
    HeaderEndExtends(bytes, more);
    match HeaderEnd(bytes, 0)
    case Some(n) =>
      assert (bytes + more)[..n] == bytes[..n];
      match OneShot(config, bytes) {
        case Frame(size, _, _) => assert (bytes + more)[n..size] == bytes[n..size];
        case _ =>
      }
    case None =>
  }

  /** The decoder decodes exactly what the one-shot reference says, for every byte
      string and from every pending state. */
  lemma {:induction false} PushMeans(config: Config, done: seq<byte>, bytes: seq<byte>)
    requires OneShot(config, done).Incomplete?
    ensures Means(After(|done|, Push(Midway(config, done), bytes)), OneShot(config, done + bytes))
    ensures Push(Midway(config, done), bytes).Pending? ==> Push(Midway(config, done), bytes).decoder == Midway(config, done + bytes)
    decreases |bytes|
  {
    hide OneShot, Midway, Feed;
    if bytes == [] {
      assert done + bytes == done;
    } else {
      FeedMeans(config, done, bytes[0]);
      var next := done + [bytes[0]];
      assert done + bytes == next + bytes[1..];
      match Feed(Midway(config, done), bytes[0])
      case More(e) => PushMeans(config, next, bytes[1..]);
      case _ => VerdictIsStable(config, next, bytes[1..]);
    }
  }
}
