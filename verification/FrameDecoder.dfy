/** The decoder object: an incremental parser with one deadline per frame. */
module FrameDecoder {
  import opened Bytes
  import opened HeaderText
  import opened Framing

  const TIMEOUT: int := 3

  /** Unfold a push at position `i`. */
  lemma PushStep(d: Framing.Decoder, bytes: seq<byte>, i: nat)
    requires i < |bytes|
    ensures Push(d, bytes[i..]) ==
            match Feed(d, bytes[i])
            case Bad(error) => Failed(error)
            case Done(e, body) => Whole(e, 1, body)
            case More(e) => After(1, Push(e, bytes[i + 1..]))
  {
    assert bytes[i..][0] == bytes[i] && bytes[i..][1..] == bytes[i + 1..];
  }

  class Decoder {
    var data: seq<byte>
    var body: Option<(nat, nat)>
    var headers: map<Text, Text>
    var deadline: Option<int>
    const config: Config

    ghost function View(): Framing.Decoder
      reads this
    {
      Framing.Decoder(config, data, body, headers)
    }

    constructor (config: Config, start: Option<int>)
      ensures View() == Fresh(config)
      ensures deadline == if start.Some? then Some(start.value + TIMEOUT) else None
    {
      this.config := config;
      data, body, headers := [], None, map[];
      deadline := if start.Some? then Some(start.value + TIMEOUT) else None;
    }

    predicate Expired(now: int)
      reads this
    {
      deadline.Some? && now >= deadline.value
    }

    /** The loop body of a push: one byte, and the body when it completes the frame. */
    method Take(b: byte) returns (r: Result<Option<seq<byte>>, FrameError>)
      requires Sound(View())
      modifies this`data, this`body, this`headers
      ensures match Feed(old(View()), b)
              case More(d) => r == Ok(None) && View() == d && Sound(View())
              case Done(d, found) => r == Ok(Some(found)) && View() == d
              case Bad(error) => r == Err(error)
    {
      hide Header;
      data := data + [b];
      if body.None? {
        if |data| > MAX_HEADER {
          return Err(HeaderTooLarge);
        }
        if EndsWith(data, BLANK_LINE) {
          match Header(data, config.limit, config.allowed) {
            case Err(error) => return Err(BadHeader(error));
            case Ok((length, extra)) =>
              headers := extra;
              body := Some((|data|, length));
          }
        }
      }
      if body.Some? && |data| == body.value.0 + body.value.1 {
        return Ok(Some(data[body.value.0..]));
      }
      r := Ok(None);
    }

    /** Push one chunk. The first byte starts the deadline; before the deadline the
        outcome is that of the functional decoder, on the bytes given. */
    method PushBytes(bytes: seq<byte>, now: int) returns (r: Result<(nat, Option<seq<byte>>), FrameError>)
      requires Sound(View())
      modifies this
      ensures deadline == if old(deadline).None? && bytes != [] then Some(now + TIMEOUT) else old(deadline)
      ensures old(Expired(now)) ==> r == Err(TimedOut) && View() == old(View())
      ensures !old(Expired(now)) ==>
                match Push(old(View()), bytes)
                case Pending(d) => r == Ok((|bytes|, None)) && View() == d && Sound(View())
                case Whole(d, n, found) => r == Ok((n, Some(found))) && View() == d
                case Failed(error) => r == Err(error)
    {
      hide Header, Feed, Sound;
      if deadline.None? && bytes != [] {
        deadline := Some(now + TIMEOUT);
      }
      if Expired(now) {
        return Err(TimedOut);
      }
      assert bytes[0..] == bytes;
      for i := 0 to |bytes|
        invariant deadline == if old(deadline).None? && bytes != [] then Some(now + TIMEOUT) else old(deadline)
        invariant Push(old(View()), bytes) == After(i, Push(View(), bytes[i..]))
        invariant Sound(View())
      {
        PushStep(View(), bytes, i);
        var taken := Take(bytes[i]);
        match taken {
          case Err(error) => return Err(error);
          case Ok(Some(found)) => return Ok((i + 1, Some(found)));
          case Ok(None) =>
        }
      }
      r := Ok((|bytes|, None));
    }
  }
}
