/** The channel object: buffers and budgets updated in place, with the bounded loops of
    `flush` and `receive`. */
module Channel {
  import opened Bytes
  import opened Framing
  import opened Codec
  import opened References
  import opened ChannelSpec

  class Channel {
    var open: bool
    var decoder: Decoder
    var input: seq<byte>
    var partial: bool
    var received: seq<Fd>
    var output: seq<Output>
    var queuedBytes: int
    var queuedFds: int
    const read: Reader

    ghost function View(): State
      reads this
    {
      State(open, decoder, input, partial, received, output, queuedBytes, queuedFds)
    }

    constructor (read: Reader)
      ensures View() == New() && this.read == read
    {
      this.read := read;
      open, decoder, input, partial := true, Fresh(CONTROL), [], false;
      received, output, queuedBytes, queuedFds := [], [], 0, 0;
    }

    /** Accept a frame or refuse it whole; the caller keeps its descriptors on refusal. */
    method Queue(value: Json, body: seq<byte>, fds: seq<Fd>) returns (result: QueueResult, kept: seq<Fd>)
      requires Budgeted(View())
      modifies this`output, this`queuedBytes, this`queuedFds
      ensures (View(), result) == ChannelSpec.Queue(old(View()), value, body, fds)
      ensures kept == if result == Queued then [] else fds
      ensures Budgeted(View())
    {
      hide Budgeted, Accepted, Counted;
      QueueKeepsBudget(View(), value, body, fds);
      kept := fds;
      if !open {
        return BrokenPipe, kept;
      }
      if |fds| > MAX_FDS || !Accepted(value, |fds|) || body == [] || |body| > MAX_CONTROL_BODY {
        return Invalid, kept;
      }
      var bytes := Counted(body, |fds|);
      if |output| >= MAX_QUEUED_FRAMES || queuedBytes + |bytes| > MAX_QUEUED_BYTES || queuedFds + |fds| > MAX_QUEUED_FDS {
        return QueueFull, kept;
      }
      queuedBytes := queuedBytes + |bytes|;
      queuedFds := queuedFds + |fds|;
      output := output + [Output(bytes, 0, fds)];
      result, kept := Queued, [];
    }

    /** Every owned descriptor is dropped before the socket shows the end. */
    method Close()
      modifies this
      ensures View() == Closed() && Owned(View()) == []
    {
      input, received, output := [], [], [];
      queuedBytes, queuedFds, partial := 0, 0, false;
      decoder := Fresh(CONTROL);
      open := false;
    }

    /** Send with the kernel answers of `script`; `sent` is what entered the stream. */
    method Flush(script: seq<Send>) returns (sent: seq<Cell>, ok: bool)
      requires Budgeted(View())
      modifies this
      ensures (View(), sent, ok) == ChannelSpec.Flush(old(View()), script)
      ensures Budgeted(View())
    {
      hide Budgeted, Advance;
      FlushKeepsBudget(View(), script);
      sent := [];
      if !open {
        Close();
        return sent, false;
      }
      var i := 0;
      assert script[0..] == script;
      assert sent + ChannelSpec.Flush(View(), script).1 == ChannelSpec.Flush(View(), script).1;
      while i < |script| && output != []
        invariant 0 <= i <= |script| && open
        invariant Budgeted(View())
        invariant ChannelSpec.Flush(old(View()), script) == Behind(sent, ChannelSpec.Flush(View(), script[i..]))
        decreases |script| - i
      {
        assert script[i..][0] == script[i] && script[i..][1..] == script[i + 1..];
        FlushKeepsBudget(View(), script[i..]);
        match script[i] {
          case SendBlocked =>
            assert sent + [] == sent;
            return sent, true;
          case SendInterrupted =>
            i := i + 1;
            continue;
          case SendFailed =>
            assert sent + [] == sent;
            Close();
            return sent, false;
          case Sent(k) =>
            FrontOpen(View());
            var n := Min(k, |output[0].bytes| - output[0].offset);
            if n <= 0 {
              assert sent + [] == sent;
              Close();
              return sent, false;
            }
            var step := SendFront(n);
            Assoc(sent, step, ChannelSpec.Flush(View(), script[i + 1..]).1);
            sent := sent + step;
            i := i + 1;
        }
      }
      assert sent + [] == sent;
      ok := true;
    }

    /** One successful `sendmsg`. */
    method SendFront(n: nat) returns (cells: seq<Cell>)
      requires Budgeted(View()) && output != [] && 0 < n <= |output[0].bytes| - output[0].offset
      modifies this`output, this`queuedBytes, this`queuedFds
      ensures (View(), cells) == Advance(old(View()), n)
      ensures Budgeted(View())
    {
      AdvanceKeepsBudget(View(), n);
      var front := output[0];
      cells := Cells(front.bytes[front.offset..front.offset + n], front.fds);
      queuedFds := queuedFds - |front.fds|;
      front := front.(fds := [], offset := front.offset + n);
      queuedBytes := queuedBytes - n;
      if front.offset == |front.bytes| {
        output := output[1..];
      } else {
        output := [front] + output[1..];
      }
    }

    /** Decode buffered input; a frame leaves the decoder fresh for the next one. */
    method Decode(late: bool) returns (got: Got)
      modifies this`decoder, this`input, this`partial, this`received
      ensures got.Refused? || (View(), got) == ChannelSpec.Decode(old(View()), read, late)
      ensures got == ChannelSpec.Decode(old(View()), read, late).1
    {
      if input == [] {
        return Nothing;
      }
      var started := decoder.data != [];
      partial := true;
      if late && started {
        return Refused;
      }
      match Push(decoder, input) {
        case Failed(_) => return Refused;
        case Pending(d) =>
          decoder := d;
          input := [];
          return Nothing;
        case Whole(d, consumed, body) =>
          decoder := d;
          input := if consumed <= |input| then input[consumed..] else [];
          match Admitted(read, body, d.headers, received) {
            case None => return Refused;
            case Some(value) =>
              got := Delivered(value, body, received);
              received := [];
              decoder := Fresh(CONTROL);
              partial := false;
          }
      }
    }

    /** Receive at most one frame with the kernel answers of `turns`. */
    method Receive(wire: Wire, turns: seq<Turn>) returns (rest: Wire, got: Got)
      modifies this
      ensures (View(), rest, got) == ChannelSpec.Receive(old(View()), read, wire, turns)
    {
      hide ChannelSpec.Decode, Pull, Drained;
      rest := wire;
      assert turns[0..] == turns;
      for i := 0 to |turns|
        invariant ChannelSpec.Receive(old(View()), read, wire, turns) == ChannelSpec.Receive(View(), read, rest, turns[i..])
      {
        assert turns[i..][0] == turns[i] && turns[i..][1..] == turns[i + 1..];
        var turn := turns[i];
        got := Decode(turn.pushLate);
        if got.Refused? {
          Close();
          return;
        }
        if got.Delivered? {
          return;
        }
        var step;
        rest, step := ReadOnce(rest, turn);
        match step {
          case Broken =>
            Close();
            return rest, Refused;
          case Halt => return rest, Nothing;
          case Continue =>
        }
      }
      got := Nothing;
    }

    /** The part of an iteration that asks the clock and the kernel. */
    method ReadOnce(wire: Wire, turn: Turn) returns (rest: Wire, step: Step)
      modifies this
      ensures match Pull(old(View()), wire, turn)
              case Again(e) => step == Continue && View() == e && rest == Drained(old(View()), wire, turn)
              case Stop(e) => step == Halt && View() == e && rest == wire
              case Fault => step == Broken && rest == Drained(old(View()), wire, turn)
    {
      rest := wire;
      if !open {
        return rest, Halt;
      }
      if turn.late && decoder.data != [] {
        return rest, Broken;
      }
      match turn.recv {
        case ReadInterrupted => return rest, Continue;
        case ReadFailed => return rest, Broken;
        case Read(k) =>
          var room := Min(CHUNK, decoder.Remaining());
          var most := Min(room, |wire.cells|);
          var n := if most <= 0 then 0 else if k < 1 then 1 else Min(k, most);
          var firstByte := !partial && input == [];
          var beforeFds := |received|;
          if wire.cells == [] {
            if !wire.ended {
              return rest, Halt;
            }
            if partial || received != [] {
              return rest, Broken;
            }
            Close();
            return rest, Halt;
          }
          var took := wire.cells[..n];
          rest := wire.(cells := wire.cells[n..]);
          received := received + FdsOf(took);
          if (!firstByte && |received| != beforeFds) || |received| > MAX_FDS {
            return rest, Broken;
          }
          input := input + BytesOf(took);
          step := Continue;
      }
    }
  }

  datatype Step = Continue | Halt | Broken

  /** The outcome of a flush that had already sent `sent`. */
  function Behind(sent: seq<Cell>, r: (State, seq<Cell>, bool)): (State, seq<Cell>, bool) {
    (r.0, sent + r.1, r.2)
  }

  lemma FrontOpen(c: State)
    requires Budgeted(c) && c.output != []
    ensures c.output[0].offset < |c.output[0].bytes|
  {
  }
}
