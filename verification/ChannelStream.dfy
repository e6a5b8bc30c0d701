/** What a whole run of a channel delivers: against any peer stream, and end to end. */
module ChannelStream {
  import opened Bytes
  import opened HeaderText
  import opened Framing
  import opened Codec
  import opened References
  import opened ChannelSpec
  import Nesting

  /** A frame body with its descriptors. */
  datatype Payload = Payload(body: seq<byte>, fds: seq<Fd>)

  // The meaning of a stream of bytes and descriptors, without a channel -------------

  /** The reading of a stream: its frames, the unfinished rest, and whether all of it is legal so far. */
  datatype Meaning = Meaning(frames: seq<Payload>, rest: seq<Cell>, legal: bool)

  /** Descriptors stand on the first byte only, and there are not too many. */
  predicate Tidy(cells: seq<Cell>) {
    && (cells != [] ==> |cells[0].fds| <= MAX_FDS)
    && (forall i :: 0 < i < |cells| ==> cells[i].fds == [])
  }

  function Prefixed(p: Payload, m: Meaning): Meaning {
    m.(frames := [p] + m.frames)
  }

  /** Cut the stream into frames: each frame's descriptors are those of its first byte,
      its count header names their number, and its references are a bijection. */
  function Parse(read: Reader, cells: seq<Cell>): Meaning
    decreases |cells|
  {
    match OneShot(CONTROL, BytesOf(cells))
    case Incomplete => Meaning([], cells, Tidy(cells))
    case Malformed(_) => Meaning([], cells, false)
    case Frame(size, body, headers) =>
      if 0 < size <= |cells| && Tidy(cells[..size]) && Admitted(read, body, headers, cells[0].fds).Some?
      then Prefixed(Payload(body, cells[0].fds), Parse(read, cells[size..]))
      else Meaning([], cells, false)
  }

  lemma BytesOfParts(a: seq<Cell>, b: seq<Cell>)
    ensures BytesOf(a + b) == BytesOf(a) + BytesOf(b)
  {
  }

  /** A stream that ends between two frames is read independently of what follows. */
  lemma {:induction false} ParseAppend(read: Reader, a: seq<Cell>, b: seq<Cell>)
    requires Parse(read, a).legal && Parse(read, a).rest == []
    ensures Parse(read, a + b) == Meaning(Parse(read, a).frames + Parse(read, b).frames,
                                          Parse(read, b).rest, Parse(read, b).legal)
    decreases |a|
  {
    hide OneShot, Admitted;
    BytesOfParts(a, b);
    if a == [] {
      assert a + b == b;
      EmptyIsIncomplete();
      assert Parse(read, a).frames + Parse(read, b).frames == Parse(read, b).frames;
    } else {
      var v := OneShot(CONTROL, BytesOf(a));
      assert v.Frame?;
      VerdictIsStable(CONTROL, BytesOf(a), BytesOf(b));
      assert (a + b)[..v.size] == a[..v.size];
      assert (a + b)[v.size..] == a[v.size..] + b;
      ParseAppend(read, a[v.size..], b);
    }
  }

  lemma EmptyIsIncomplete()
    ensures OneShot(CONTROL, []) == Incomplete
    ensures BytesOf([]) == []
  {
  }

  // Any peer --------------------------------------------------------------------------

  /** A receiver with its history: all cells read, how many of them belong to frames
      already delivered, and those frames. */
  datatype Log = Log(state: State, read: seq<Cell>, settled: nat, delivered: seq<Payload>)

  /** The bytes of the frame in progress. */
  function Begun(c: State): seq<byte> {
    c.decoder.data + c.input
  }

  /** The invariant of every receiving run while the channel is open. */
  predicate Follows(read: Reader, log: Log) {
    var c := log.state;
    c.open ==>
      && log.settled <= |log.read|
      && Parse(read, log.read[..log.settled]) == Meaning(log.delivered, [], true)
      && log.read[log.settled..] == Cells(Begun(c), c.received)
      && (Begun(c) == [] ==> c.received == [])
      && |c.received| <= MAX_FDS
      && OneShot(CONTROL, c.decoder.data) == Incomplete
      && c.decoder == Midway(CONTROL, c.decoder.data)
      && Sound(c.decoder)
      && |c.input| <= c.decoder.Remaining()
      && (c.partial <==> c.decoder.data != [])
  }

  lemma CellsBytes(bytes: seq<byte>, fds: seq<Fd>)
    ensures BytesOf(Cells(bytes, fds)) == bytes
  {
  }

  /** Once everything read has been decoded, the frames delivered are exactly the
      meaning of the cells read, and those cells are legal. */
  lemma DeliveredIsMeaning(read: Reader, log: Log)
    requires Follows(read, log) && log.state.open && log.state.input == []
    ensures Parse(read, log.read) == Meaning(log.delivered, log.read[log.settled..], true)
  {
    hide OneShot, Admitted;
    var c := log.state;
    var tail := log.read[log.settled..];
    assert log.read == log.read[..log.settled] + tail;
    assert Begun(c) == c.decoder.data;
    CellsBytes(Begun(c), c.received);
    assert Parse(read, tail) == Meaning([], tail, true);
    ParseAppend(read, log.read[..log.settled], tail);
    assert log.delivered + [] == log.delivered;
  }

  /** `decode` on a following receiver: it consumes all its input, and a delivered frame
      is the next one of the stream. */
  lemma DecodeFollows(read: Reader, log: Log, late: bool)
    requires Follows(read, log) && log.state.open
    ensures var (d, got) := Decode(log.state, read, late);
            match got
            case Nothing => Follows(read, log.(state := d)) && d.input == [] && d.open
            case Delivered(_, body, fds) =>
              d.open && Follows(read, log.(state := d, settled := |log.read|, delivered := log.delivered + [Payload(body, fds)]))
            case Refused => true
  {
    hide OneShot, Admitted, Push, Midway;
    var c := log.state;
    if c.input != [] {
      PushMeans(CONTROL, c.decoder.data, c.input);
      PushKeepsSound(c.decoder, c.input);
      WithinRemaining(c.decoder, c.input);
      match Push(c.decoder, c.input)
      case Pending(d) =>
        assert c.decoder.data + c.input == d.data;
        assert d.data + [] == d.data;
      case Whole(d, n, body) =>
        if Admitted(read, body, d.headers, c.received).Some? {
          FrameFollows(read, log, body, d.headers);
        }
      case Failed(_) =>
    }
  }

  /** Completing a frame moves it from the tail of the stream to the settled part. */
  lemma FrameFollows(read: Reader, log: Log, body: seq<byte>, headers: map<Text, Text>)
    requires Follows(read, log) && log.state.open && log.state.input != []
    requires OneShot(CONTROL, Begun(log.state)) == Frame(|Begun(log.state)|, body, headers)
    requires Admitted(read, body, headers, log.state.received).Some?
    ensures Follows(read, log.(state := log.state.(decoder := Framing.Fresh(CONTROL), input := [], partial := false, received := []),
                               settled := |log.read|, delivered := log.delivered + [Payload(body, log.state.received)]))
  {
    FrameMeaning(read, log, body, headers);
    FreshAfterNothing();
    hide OneShot, Admitted, Midway, Parse, Cells;
    assert log.read[..|log.read|] == log.read && log.read[|log.read|..] == [];
    assert Cells([], []) == [];
  }

  lemma FrameMeaning(read: Reader, log: Log, body: seq<byte>, headers: map<Text, Text>)
    requires Follows(read, log) && log.state.open && log.state.input != []
    requires OneShot(CONTROL, Begun(log.state)) == Frame(|Begun(log.state)|, body, headers)
    requires Admitted(read, body, headers, log.state.received).Some?
    ensures Parse(read, log.read) == Meaning(log.delivered + [Payload(body, log.state.received)], [], true)
  {
    hide OneShot, Admitted, Midway, Parse, Cells, Sound;
    var tail := log.read[log.settled..];
    assert log.read == log.read[..log.settled] + tail;
    OneFrameMeaning(read, Begun(log.state), log.state.received, body, headers);
    ParseAppend(read, log.read[..log.settled], tail);
  }

  /** The meaning of the cells of exactly one admitted frame. */
  lemma OneFrameMeaning(read: Reader, bytes: seq<byte>, fds: seq<Fd>, body: seq<byte>, headers: map<Text, Text>)
    requires OneShot(CONTROL, bytes) == Frame(|bytes|, body, headers) && bytes != [] && |fds| <= MAX_FDS
    requires Admitted(read, body, headers, fds).Some?
    ensures Parse(read, Cells(bytes, fds)) == Meaning([Payload(body, fds)], [], true)
  {
    EmptyIsIncomplete();
    hide OneShot, Admitted;
    var cells := Cells(bytes, fds);
    CellsBytes(bytes, fds);
    assert cells[..|cells|] == cells && cells[|cells|..] == [];
    assert Parse(read, []) == Meaning([], [], true);
    assert [Payload(body, fds)] + [] == [Payload(body, fds)];
  }

  lemma {:induction false} NoFds(cells: seq<Cell>)
    ensures FdsOf(cells) == [] <==> forall i :: 0 <= i < |cells| ==> cells[i].fds == []
  {
    if cells != [] {
      NoFds(cells[1..]);
      assert cells == [cells[0]] + cells[1..];
    }
  }

  /** The receiver after a read of `took`. */
  function Fed(c: State, took: seq<Cell>): State {
    c.(received := c.received + FdsOf(took), input := c.input + BytesOf(took))
  }

  /** The first byte of a frame is read alone, with its descriptors. */
  lemma FirstByteFollows(read: Reader, log: Log, cell: Cell)
    requires Follows(read, log) && log.state.open && log.state.input == [] && log.state.decoder.data == []
    requires |cell.fds| <= MAX_FDS
    ensures Follows(read, log.(state := Fed(log.state, [cell]), read := log.read + [cell]))
  {
    hide OneShot, Midway, Parse;
    var c := log.state;
    var e := Fed(c, [cell]);
    assert Begun(c) == [] && c.received == [];
    assert [cell][1..] == [] && FdsOf([cell]) == cell.fds + FdsOf([]);
    assert cell.fds + [] == cell.fds;
    assert e.received == cell.fds && Begun(e) == [cell.b];
    assert (log.read + [cell])[..log.settled] == log.read[..log.settled];
    assert (log.read + [cell])[log.settled..] == [cell] == Cells(Begun(e), e.received);
  }

  lemma CellsAppend(bytes: seq<byte>, fds: seq<Fd>, took: seq<Cell>)
    requires bytes != [] && FdsOf(took) == []
    ensures Cells(bytes, fds) + took == Cells(bytes + BytesOf(took), fds)
  {
    NoFds(took);
  }

  /** Later bytes of a frame carry no descriptors. */
  lemma LaterBytesFollow(read: Reader, log: Log, took: seq<Cell>)
    requires Follows(read, log) && log.state.open && log.state.input == [] && log.state.decoder.data != []
    requires |took| <= log.state.decoder.Remaining() && FdsOf(took) == []
    ensures Follows(read, log.(state := Fed(log.state, took), read := log.read + took))
  {
    hide OneShot, Midway, Parse, Cells, FdsOf, BytesOf;
    var c := log.state;
    var e := Fed(c, took);
    assert c.received + [] == c.received && c.input + BytesOf(took) == BytesOf(took) && c.decoder.data + [] == c.decoder.data;
    CutAppend(log.read, took, log.settled);
    CellsAppend(Begun(c), c.received, took);
  }

  lemma TakenBounds(c: State, wire: Wire, n: nat)
    requires c.decoder.Remaining() > 0
    ensures Taken(c, wire, n) <= |wire.cells| && Taken(c, wire, n) <= c.decoder.Remaining()
    ensures wire.cells != [] ==> Taken(c, wire, n) > 0
  {
  }

  /** A read takes a front part of the stream, bounded by what the frame still lacks. */
  lemma TookShape(c: State, wire: Wire, turn: Turn)
    requires c.open && c.decoder.Remaining() > 0
    ensures var after := Drained(c, wire, turn).cells;
            |after| <= |wire.cells| && wire.cells == wire.cells[..|wire.cells| - |after|] + after
    ensures |Took(c, wire, turn)| <= c.decoder.Remaining()
  {
    hide Taken;
    if turn.recv.Read? {
      TakenBounds(c, wire, turn.recv.n);
    }
  }

  /** A stop takes nothing, and a read that goes on takes something when there is something. */
  lemma TookWhen(c: State, wire: Wire, turn: Turn)
    requires c.open && c.decoder.Remaining() > 0
    ensures Pull(c, wire, turn).Stop? ==> Took(c, wire, turn) == []
    ensures Pull(c, wire, turn).Again? && wire.cells != [] && turn.recv.Read? ==> Took(c, wire, turn) != []
  {
    hide FdsOf, BytesOf, Taken;
    if turn.recv.Read? {
      TakenBounds(c, wire, turn.recv.n);
    }
  }

  /** What a successful read leaves. */
  lemma PullShape(c: State, wire: Wire, turn: Turn)
    requires c.open && c.decoder.Remaining() > 0
    requires Pull(c, wire, turn).Again?
    ensures var took := Took(c, wire, turn);
            if took == [] then Pull(c, wire, turn).state == c
            else Pull(c, wire, turn).state == Fed(c, took)
                 && |c.received + FdsOf(took)| <= MAX_FDS && (c.partial || c.input != [] ==> FdsOf(took) == [])
  {
    TookShape(c, wire, turn);
    TookWhen(c, wire, turn);
    hide FdsOf, BytesOf, Taken;
    if turn.recv.Read? && wire.cells != [] {
      TakenBounds(c, wire, turn.recv.n);
      assert Took(c, wire, turn) == wire.cells[..Taken(c, wire, turn.recv.n)];
    }
  }

  /** One read on a following receiver with no undecoded input. */
  lemma PullFollows(read: Reader, log: Log, wire: Wire, turn: Turn)
    requires Follows(read, log) && log.state.open && log.state.input == []
    ensures var after := Drained(log.state, wire, turn).cells;
            |after| <= |wire.cells| && wire.cells == wire.cells[..|wire.cells| - |after|] + after
    ensures match Pull(log.state, wire, turn)
            case Again(e) =>
              e.open && Follows(read, log.(state := e, read := log.read + Took(log.state, wire, turn)))
            case Stop(e) => Took(log.state, wire, turn) == [] && Follows(read, log.(state := e)) && (e.open || e == Closed())
            case Fault => true
  {
    hide Parse, Follows, FdsOf, BytesOf, Sound, Took, Drained;
    var c := log.state;
    SoundFollows(read, log);
    TookShape(c, wire, turn);
    TookWhen(c, wire, turn);
    match Pull(c, wire, turn)
    case Again(e) =>
      hide Pull;
      PullShape(c, wire, turn);
      var took := Took(c, wire, turn);
      if took == [] {
        assert log.read + took == log.read;
      } else if c.decoder.data == [] {
        assert took == [took[0]];
        OneCellFds(took[0]);
        FirstByteFollows(read, log, took[0]);
      } else {
        LaterBytesFollow(read, log, took);
      }
    case Stop(e) =>
      if !e.open {
        ClosedFollows(read, log.(state := e));
      }
    case Fault =>
  }

  lemma OneCellFds(cell: Cell)
    ensures FdsOf([cell]) == cell.fds
  {
    assert [cell][1..] == [];
  }

  /** The facts of the invariant that bound a read. */
  lemma SoundFollows(read: Reader, log: Log)
    requires Follows(read, log) && log.state.open
    ensures Sound(log.state.decoder) && (log.state.partial <==> log.state.decoder.data != [])
    ensures log.state.decoder.Remaining() > 0
    ensures log.state.decoder.data == [] ==> log.state.decoder.Remaining() == 1
    ensures log.state.decoder.data == [] && log.state.input == [] ==> log.state.received == []
  {
    FreshAfterNothing();
  }

  /** The cells an iteration takes from the stream. */
  function Took(c: State, wire: Wire, turn: Turn): seq<Cell> {
    var after := Drained(c, wire, turn).cells;
    if |after| <= |wire.cells| then wire.cells[..|wire.cells| - |after|] else []
  }

  lemma FreshAfterNothing()
    ensures OneShot(CONTROL, []) == Incomplete
    ensures Midway(CONTROL, []) == Framing.Fresh(CONTROL)
  {
  }

  /** The log after one `receive`. */
  function Received(read: Reader, log: Log, wire: Wire, turns: seq<Turn>): Log {
    var (c, rest, got) := Receive(log.state, read, wire, turns);
    var seen := log.read + wire.cells[..if |rest.cells| <= |wire.cells| then |wire.cells| - |rest.cells| else 0];
    match got
    case Delivered(_, body, fds) => Log(c, seen, |seen|, log.delivered + [Payload(body, fds)])
    case _ => Log(c, seen, log.settled, log.delivered)
  }

  /** Reading on after one pull is the same as reading it all at once. */
  lemma ReceivedAgain(read: Reader, log: Log, wire: Wire, turns: seq<Turn>)
    requires turns != [] && log.state.open
    requires Decode(log.state, read, turns[0].pushLate).1 == Nothing
    requires var d := Decode(log.state, read, turns[0].pushLate).0;
             var rest := Drained(d, wire, turns[0]);
             && Pull(d, wire, turns[0]).Again?
             && |rest.cells| <= |wire.cells| && wire.cells == wire.cells[..|wire.cells| - |rest.cells|] + rest.cells
    requires var d := Decode(log.state, read, turns[0].pushLate).0;
             var rest := Drained(d, wire, turns[0]);
             var last := Receive(Pull(d, wire, turns[0]).state, read, rest, turns[1..]).1;
             |last.cells| <= |rest.cells| && rest.cells == rest.cells[..|rest.cells| - |last.cells|] + last.cells
    ensures var d := Decode(log.state, read, turns[0].pushLate).0;
            var e := Pull(d, wire, turns[0]).state;
            var rest := Drained(d, wire, turns[0]);
            var last := Receive(e, read, rest, turns[1..]).1;
            && wire.cells == wire.cells[..|wire.cells| - |last.cells|] + last.cells
            && Received(read, log, wire, turns)
               == Received(read, log.(state := e, read := log.read + Took(d, wire, turns[0])), rest, turns[1..])
  {
    hide Decode, Pull, Drained;
    var d := Decode(log.state, read, turns[0].pushLate).0;
    var e := Pull(d, wire, turns[0]).state;
    var rest := Drained(d, wire, turns[0]);
    var last := Receive(e, read, rest, turns[1..]).1;
    var took := wire.cells[..|wire.cells| - |rest.cells|];
    var more := rest.cells[..|rest.cells| - |last.cells|];
    assert wire.cells == took + more + last.cells;
    assert wire.cells[..|wire.cells| - |last.cells|] == took + more;
    assert log.read + (took + more) == (log.read + took) + more;
  }

  /** Every `receive`, with every pattern of short reads, keeps the invariant; it only
      takes cells from the front of the stream, and an error leaves the channel closed. */
  lemma {:induction false} ReceiveFollows(read: Reader, log: Log, wire: Wire, turns: seq<Turn>)
    requires Follows(read, log) && log.state.open
    ensures var (c, rest, got) := Receive(log.state, read, wire, turns);
            && |rest.cells| <= |wire.cells|
            && wire.cells == wire.cells[..|wire.cells| - |rest.cells|] + rest.cells
            && Follows(read, Received(read, log, wire, turns))
            && (got.Refused? ==> c == Closed())
            && (c.open || c == Closed())
    decreases |turns|
  {
    hide Follows, Decode, Pull, Drained;
    assert wire.cells[..0] == [] && log.read + [] == log.read;
    if turns != [] {
      DecodeFollows(read, log, turns[0].pushLate);
      var (d, got) := Decode(log.state, read, turns[0].pushLate);
      match got
      case Nothing =>
        PullFollows(read, log.(state := d), wire, turns[0]);
        match Pull(d, wire, turns[0]) {
          case Again(e) =>
            var rest := Drained(d, wire, turns[0]);
            ReceiveFollows(read, log.(state := e, read := log.read + Took(d, wire, turns[0])), rest, turns[1..]);
            ReceivedAgain(read, log, wire, turns);
          case Stop(e) =>
          case Fault => ClosedFollows(read, Received(read, log, wire, turns));
        }
      case Delivered(_, body, fds) =>
      case Refused => ClosedFollows(read, Received(read, log, wire, turns));
    }
  }

  lemma ClosedFollows(read: Reader, log: Log)
    requires !log.state.open
    ensures Follows(read, log)
  {
  }

  // End to end --------------------------------------------------------------------------

  /** The cells one queued frame puts on the stream. */
  function FrameCells(p: Payload): seq<Cell> {
    Cells(Counted(p.body, |p.fds|), p.fds)
  }

  function Stream(frames: seq<Payload>): seq<Cell> {
    if frames == [] then [] else FrameCells(frames[0]) + Stream(frames[1..])
  }

  /** The cells of a frame that are not on the stream yet. */
  function Unsent(o: Output): seq<Cell> {
    if o.offset <= |o.bytes| then Cells(o.bytes[o.offset..], o.fds) else []
  }

  /** What a sender still has to put on the stream. */
  function Waiting(output: seq<Output>): seq<Cell> {
    if output == [] then [] else Unsent(output[0]) + Waiting(output[1..])
  }

  lemma {:induction false} WaitingAppend(output: seq<Output>, o: Output)
    ensures Waiting(output + [o]) == Waiting(output) + Unsent(o)
  {
    hide Unsent;
    if output == [] {
      assert output + [o] == [o] && [o][1..] == [];
      assert Waiting([o]) == Unsent(o) + Waiting([]);
    } else {
      assert (output + [o])[0] == output[0] && (output + [o])[1..] == output[1..] + [o];
      WaitingAppend(output[1..], o);
    }
  }

  lemma {:induction false} StreamAppend(frames: seq<Payload>, p: Payload)
    ensures Stream(frames + [p]) == Stream(frames) + FrameCells(p)
  {
    if frames == [] {
      assert frames + [p] == [p] && [p][1..] == [];
      assert Stream([p]) == FrameCells(p) + Stream([]);
    } else {
      assert (frames + [p])[0] == frames[0] && (frames + [p])[1..] == frames[1..] + [p];
      StreamAppend(frames[1..], p);
    }
  }

  predicate Fits(c: State) {
    forall i :: 0 <= i < |c.output| ==> c.output[i].offset < |c.output[i].bytes|
  }

  lemma CellsSplit(bytes: seq<byte>, fds: seq<Fd>, a: nat, n: nat)
    requires 0 < n && a + n <= |bytes|
    ensures Cells(bytes[a..a + n], fds) + Cells(bytes[a + n..], []) == Cells(bytes[a..], fds)
  {
    var whole, left, right := Cells(bytes[a..], fds), Cells(bytes[a..a + n], fds), Cells(bytes[a + n..], []);
    forall i | 0 <= i < |whole| ensures (left + right)[i] == whole[i] {
      assert bytes[a..][i] == bytes[a + i];
    }
  }

  /** Sending part of the front frame moves exactly those cells; descriptors move once. */
  lemma AdvanceMoves(c: State, n: nat)
    requires Fits(c) && c.output != [] && 0 < n <= |c.output[0].bytes| - c.output[0].offset
    ensures Fits(Advance(c, n).0) && Advance(c, n).0.open == c.open
    ensures Advance(c, n).1 + Waiting(Advance(c, n).0.output) == Waiting(c.output)
  {
    hide Unsent, Waiting, Cells;
    var front := c.output[0];
    var sent := Advance(c, n).1;
    var behind := c.output[1..];
    assert c.output == [front] + behind;
    WaitingFront(front, behind);
    if front.offset + n == |front.bytes| {
      LastMoves(front, n);
    } else {
      var after := Output(front.bytes, front.offset + n, []);
      FrontMoves(front, n);
      WaitingFront(after, behind);
      Assoc(sent, Unsent(after), Waiting(behind));
    }
  }

  lemma WaitingFront(o: Output, rest: seq<Output>)
    ensures Waiting([o] + rest) == Unsent(o) + Waiting(rest)
  {
    assert ([o] + rest)[1..] == rest;
  }

  lemma LastMoves(front: Output, n: nat)
    requires front.offset + n == |front.bytes|
    ensures Cells(front.bytes[front.offset..front.offset + n], front.fds) == Unsent(front)
  {
    assert front.bytes[front.offset..front.offset + n] == front.bytes[front.offset..];
  }

  lemma FrontMoves(front: Output, n: nat)
    requires 0 < n < |front.bytes| - front.offset
    ensures Cells(front.bytes[front.offset..front.offset + n], front.fds) + Unsent(Output(front.bytes, front.offset + n, []))
         == Unsent(front)
  {
    hide Cells;
    CellsSplit(front.bytes, front.fds, front.offset, n);
  }

  /** Any flush moves a front part of the waiting cells onto the stream; all others still wait. */
  lemma {:induction false} FlushMoves(c: State, script: seq<Send>)
    requires Fits(c)
    ensures var (d, sent, ok) := Flush(c, script);
            && Fits(d) && (d.open <==> ok)
            && (ok ==> sent + Waiting(d.output) == Waiting(c.output))
            && (c.open ==> sent <= Waiting(c.output))
            && (!c.open ==> sent == [] && !ok)
    decreases |script|
  {
    hide Budgeted, Advance, Waiting;
    assert [] + Waiting(c.output) == Waiting(c.output);
    if c.open && script != [] && c.output != [] {
      match script[0]
      case SendInterrupted => FlushMoves(c, script[1..]);
      case Sent(k) =>
        var n := Min(k, |c.output[0].bytes| - c.output[0].offset);
        if n > 0 {
          AdvanceMoves(c, n);
          var (d, sent) := Advance(c, n);
          FlushMoves(d, script[1..]);
          var (e, more, ok) := Flush(d, script[1..]);
          PrefixUnder(sent, more, Waiting(d.output));
          Assoc(sent, more, Waiting(e.output));
        }
      case _ =>
    }
  }

  /** Reading any front part of an honest stream yields a front part of its frames; an
      accepted whole stream yields all of them. */
  lemma {:induction false} HonestPrefix(read: Reader, frames: seq<Payload>, cells: seq<Cell>)
    requires forall i :: 0 <= i < |frames| ==> Sendable(frames[i])
    requires cells <= Stream(frames)
    ensures Parse(read, cells).frames <= frames
    ensures cells == Stream(frames) && Parse(read, cells).legal ==> Parse(read, cells).frames == frames
    decreases |frames|
  {
    hide OneShot, Admitted, Counted;
    if frames == [] {
      EmptyIsIncomplete();
    } else {
      var p := frames[0];
      var bytes := Counted(p.body, |p.fds|);
      var first := FrameCells(p);
      var rest := Stream(frames[1..]);
      CellsBytes(bytes, p.fds);
      CountedFrame(MAX_CONTROL_BODY, p.body, |p.fds|, []);
      assert bytes + [] == bytes;
      if |cells| < |first| {
        assert cells == first[..|cells|];
        assert BytesOf(cells) == bytes[..|cells|];
        PrefixIsPending(CONTROL, bytes, |cells|);
        assert cells != Stream(frames);
      } else {
        var tail := cells[|first|..];
        assert cells == first + tail;
        assert tail <= rest;
        BytesOfParts(first, tail);
        VerdictIsStable(CONTROL, bytes, BytesOf(tail));
        assert cells[..|first|] == first;
        HonestPrefix(read, frames[1..], tail);
        assert frames == [p] + frames[1..];
      }
    }
  }

  predicate Sendable(p: Payload) {
    0 < |p.body| <= MAX_CONTROL_BODY && |p.fds| <= MAX_FDS
  }

  /** A sender, the stream, and a receiver with its log; `queued` are the frames accepted. */
  datatype Trip = Trip(sender: State, wire: Wire, receiver: Log, queued: seq<Payload>)

  datatype Action =
    | Send(value: Json, body: seq<byte>, fds: seq<Fd>)
    | FlushSome(script: seq<ChannelSpec.Send>)
    | ReceiveSome(turns: seq<Turn>)
    | CloseSender
    | CloseReceiver

  function Start(): Trip {
    Trip(New(), Wire([], false), Log(New(), [], 0, []), [])
  }

  function Step(read: Reader, t: Trip, a: Action): Trip {
    match a
    case Send(value, body, fds) =>
      var (c, r) := Queue(t.sender, value, body, fds);
      t.(sender := c, queued := if r == Queued then t.queued + [Payload(body, fds)] else t.queued)
    case FlushSome(script) =>
      var (c, sent, ok) := Flush(t.sender, script);
      t.(sender := c, wire := Wire(t.wire.cells + sent, !c.open))
    case ReceiveSome(turns) =>
      if !t.receiver.state.open then t
      else
        t.(receiver := Received(read, t.receiver, t.wire, turns),
           wire := Receive(t.receiver.state, read, t.wire, turns).1)
    case CloseSender => t.(sender := Closed(), wire := t.wire.(ended := true))
    case CloseReceiver => t.(receiver := t.receiver.(state := Closed()))
  }

  function Run(read: Reader, t: Trip, actions: seq<Action>): Trip
    decreases |actions|
  {
    if actions == [] then t else Run(read, Step(read, t, actions[0]), actions[1..])
  }

  /** What every reachable trip satisfies. */
  predicate Linked(read: Reader, t: Trip) {
    && Budgeted(t.sender) && Fits(t.sender)
    && (forall i :: 0 <= i < |t.queued| ==> Sendable(t.queued[i]))
    && Follows(read, t.receiver)
    && (t.receiver.state.open || t.receiver.state == Closed())
    && t.receiver.read + t.wire.cells <= Stream(t.queued)
    && (t.sender.open ==> t.receiver.read + t.wire.cells + Waiting(t.sender.output) == Stream(t.queued))
    && t.receiver.delivered <= t.queued
  }

  lemma SendLinked(read: Reader, t: Trip, value: Json, body: seq<byte>, fds: seq<Fd>)
    requires Linked(read, t)
    ensures Linked(read, Step(read, t, Send(value, body, fds)))
  {
    hide Follows, Budgeted, Accepted, Counted, Stream, Waiting, Cells;
    var (c, r) := Queue(t.sender, value, body, fds);
    QueueKeepsBudget(t.sender, value, body, fds);
    if r == Queued {
      var o := Output(Counted(body, |fds|), 0, fds);
      CountedNonEmpty(body, |fds|);
      WaitingAppend(t.sender.output, o);
      StreamAppend(t.queued, Payload(body, fds));
      assert o.bytes[0..] == o.bytes;
      assert Unsent(o) == FrameCells(Payload(body, fds));
      hide FrameCells, Unsent;
      Assoc(t.receiver.read + t.wire.cells, Waiting(t.sender.output), Unsent(o));
    }
  }

  lemma CountedNonEmpty(body: seq<byte>, count: nat)
    ensures Counted(body, count) != []
  {
  }

  lemma FlushLinked(read: Reader, t: Trip, script: seq<ChannelSpec.Send>)
    requires Linked(read, t)
    ensures Linked(read, Step(read, t, FlushSome(script)))
  {
    hide Follows, Budgeted, Flush, Waiting, Stream, Fits, Sendable;
    var (c, sent, ok) := Flush(t.sender, script);
    FlushKeepsBudget(t.sender, script);
    FlushMoves(t.sender, script);
    var before := t.receiver.read + t.wire.cells;
    Assoc(t.receiver.read, t.wire.cells, sent);
    if t.sender.open {
      PrefixUnder(before, sent, Waiting(t.sender.output));
      Assoc(before, sent, Waiting(c.output));
    } else {
      assert before + [] == before;
    }
  }

  lemma ReceiveLinked(read: Reader, t: Trip, turns: seq<Turn>)
    requires Linked(read, t)
    ensures Linked(read, Step(read, t, ReceiveSome(turns)))
  {
    hide Budgeted, Receive, Waiting, Follows, Stream, Fits, Sendable;
    if t.receiver.state.open {
      ReceiveFollows(read, t.receiver, t.wire, turns);
      var log := Received(read, t.receiver, t.wire, turns);
      var (c, rest, got) := Receive(t.receiver.state, read, t.wire, turns);
      Assoc(t.receiver.read, t.wire.cells[..|t.wire.cells| - |rest.cells|], rest.cells);
      if log.state.open {
        SettledMeaning(read, log);
        PrefixTrans(log.read[..log.settled], log.read, rest.cells, Stream(t.queued));
        HonestPrefix(read, t.queued, log.read[..log.settled]);
      } else {
        RefusedDeliversNothing(t.receiver.state, read, t.wire, turns);
      }
    }
  }

  lemma SettledMeaning(read: Reader, log: Log)
    requires Follows(read, log) && log.state.open
    ensures log.settled <= |log.read| && Parse(read, log.read[..log.settled]).frames == log.delivered
  {
  }

  lemma PrefixTrans<T>(a: seq<T>, b: seq<T>, c: seq<T>, d: seq<T>)
    requires a <= b && b + c <= d
    ensures a <= d
  {
  }

  /** A call that closes the channel yields no frame. */
  lemma {:induction false} RefusedDeliversNothing(c: State, read: Reader, wire: Wire, turns: seq<Turn>)
    requires c.open
    ensures !Receive(c, read, wire, turns).0.open ==> !Receive(c, read, wire, turns).2.Delivered?
    decreases |turns|
  {
    hide Push, Admitted, Taken, FdsOf, BytesOf;
    if turns != [] {
      var (d, got) := Decode(c, read, turns[0].pushLate);
      assert d.open;
      if got.Nothing? {
        match Pull(d, wire, turns[0])
        case Again(e) => RefusedDeliversNothing(e, read, Drained(d, wire, turns[0]), turns[1..]);
        case _ =>
      }
    }
  }

  lemma {:induction false} RunLinked(read: Reader, t: Trip, actions: seq<Action>)
    requires Linked(read, t)
    ensures Linked(read, Run(read, t, actions))
    decreases |actions|
  {
    hide Linked, Step;
    if actions != [] {
      match actions[0] {
        case Send(value, body, fds) => SendLinked(read, t, value, body, fds);
        case FlushSome(script) => FlushLinked(read, t, script);
        case ReceiveSome(turns) => ReceiveLinked(read, t, turns);
        case CloseSender => CloseLinked(read, t);
        case CloseReceiver => CloseLinked(read, t);
      }
      RunLinked(read, Step(read, t, actions[0]), actions[1..]);
    }
  }

  lemma CloseLinked(read: Reader, t: Trip)
    requires Linked(read, t)
    ensures Linked(read, Step(read, t, CloseSender))
    ensures Linked(read, Step(read, t, CloseReceiver))
  {
    hide Parse, Stream, Sendable, OneShot, Midway;
  }

  /** End to end, for every run: the frames delivered are a front part of the frames queued,
      in order, each with its own body and exactly its own descriptors. */
  lemma DeliveredIsPrefix(read: Reader, actions: seq<Action>)
    ensures var t := Run(read, Start(), actions);
            t.receiver.delivered <= t.queued
  {
    StartLinked(read);
    RunLinked(read, Start(), actions);
  }

  lemma StartLinked(read: Reader)
    ensures Linked(read, Start())
  {
    FreshAfterNothing();
    assert Cells([], []) == [];
    hide OneShot, Admitted, Midway;
  }

  /** Nothing is lost: if both ends are still open and nothing waits anywhere, every queued
      frame has been delivered. */
  lemma DrainedDeliversAll(read: Reader, actions: seq<Action>)
    ensures var t := Run(read, Start(), actions);
            t.sender.open && t.receiver.state.open && t.sender.output == [] && t.wire.cells == [] && t.receiver.state.input == []
            ==> t.receiver.delivered == t.queued
  {
    StartLinked(read);
    RunLinked(read, Start(), actions);
    var t := Run(read, Start(), actions);
    if t.sender.open && t.receiver.state.open && t.sender.output == [] && t.wire.cells == [] && t.receiver.state.input == [] {
      DeliveredIsMeaning(read, t.receiver);
      assert t.receiver.read == Stream(t.queued);
      HonestPrefix(read, t.queued, t.receiver.read);
    }
  }

  /** The cells of delivered frames are settled, also after the channel has closed. */
  predicate Settled(read: Reader, log: Log) {
    log.settled <= |log.read| && Parse(read, log.read[..log.settled]) == Meaning(log.delivered, [], true)
  }

  /** What is settled is a front part of the meaning of everything read. */
  lemma SettledIsPrefix(read: Reader, log: Log)
    requires Settled(read, log)
    ensures log.delivered <= Parse(read, log.read).frames
    ensures Parse(read, log.read).legal <==> Parse(read, log.read[log.settled..]).legal
  {
    hide Parse;
    assert log.read == log.read[..log.settled] + log.read[log.settled..];
    ParseAppend(read, log.read[..log.settled], log.read[log.settled..]);
  }

  lemma ReceiveSettles(read: Reader, log: Log, wire: Wire, turns: seq<Turn>)
    requires Follows(read, log) && log.state.open
    ensures Settled(read, Received(read, log, wire, turns))
  {
    hide Receive, Parse;
    ReceiveFollows(read, log, wire, turns);
    var after := Received(read, log, wire, turns);
    if !after.state.open {
      RefusedDeliversNothing(log.state, read, wire, turns);
      assert after.read[..log.settled] == log.read[..log.settled];
    }
  }

  /** No deadline passed and no read failed. */
  predicate Calm(turns: seq<Turn>) {
    forall i :: 0 <= i < |turns| ==> !turns[i].pushLate && !turns[i].late && !turns[i].recv.ReadFailed?
  }

  lemma UntidyIsIllegal(read: Reader, cells: seq<Cell>)
    requires !Tidy(cells) && (OneShot(CONTROL, BytesOf(cells)).Frame? ==> OneShot(CONTROL, BytesOf(cells)).size == |cells|)
    ensures !Parse(read, cells).legal
  {
    hide OneShot, Admitted;
    assert cells[..|cells|] == cells;
  }

  /** `decode` refuses, in time, only what is illegal. */
  lemma DecodeRefusesIllegal(read: Reader, log: Log)
    requires Follows(read, log) && log.state.open && Decode(log.state, read, false).1 == Refused
    ensures !Parse(read, log.read).legal
  {
    hide OneShot, Admitted, Push, Midway;
    var c := log.state;
    var tail := log.read[log.settled..];
    PushMeans(CONTROL, c.decoder.data, c.input);
    CellsBytes(Begun(c), c.received);
    assert tail[0].fds == c.received;
    assert !Parse(read, tail).legal;
    SettledIsPrefix(read, log);
  }

  /** A read faults, in time and before the end of the stream, only on misplaced descriptors. */
  lemma PullFaultsOnIllegal(read: Reader, log: Log, wire: Wire, turn: Turn)
    requires Follows(read, log) && log.state.open && log.state.input == []
    requires !wire.ended && !turn.late && !turn.recv.ReadFailed? && Pull(log.state, wire, turn) == Fault
    ensures !Parse(read, log.read + Took(log.state, wire, turn)).legal
  {
    hide OneShot, Admitted, Push, Midway, Parse;
    var c := log.state;
    SoundFollows(read, log);
    TakenBounds(c, wire, turn.recv.n);
    var took := Took(c, wire, turn);
    assert took == wire.cells[..Taken(c, wire, turn.recv.n)];
    var seen := log.read + took;
    CutAppend(log.read, took, log.settled);
    var tail := seen[log.settled..];
    assert tail == Cells(c.decoder.data, c.received) + took by { assert Begun(c) == c.decoder.data; }
    NoFds(took);
    FaultIsUntidy(c, took);
    CellsBytes(c.decoder.data, c.received);
    BytesOfParts(Cells(c.decoder.data, c.received), took);
    PushMeans(CONTROL, c.decoder.data, BytesOf(took));
    WithinRemaining(c.decoder, BytesOf(took));
    UntidyIsIllegal(read, tail);
    SettledIsPrefix(read, log.(read := seen));
  }

  lemma FaultIsUntidy(c: State, took: seq<Cell>)
    requires |c.received| <= MAX_FDS && (c.decoder.data == [] ==> c.received == [] && |took| <= 1)
    requires took != [] && ((c.decoder.data != [] && FdsOf(took) != []) || |c.received + FdsOf(took)| > MAX_FDS)
    ensures !Tidy(Cells(c.decoder.data, c.received) + took)
  {
    var tail := Cells(c.decoder.data, c.received) + took;
    NoFds(took);
    if c.decoder.data == [] {
      assert took == [took[0]];
      OneCellFds(took[0]);
      assert tail[0] == took[0];
    } else {
      assert c.received + [] == c.received;
      var i :| 0 <= i < |took| && took[i].fds != [];
      assert tail[|c.decoder.data| + i] == took[i];
    }
  }

  /** In time and before the end of the stream, `receive` refuses only an illegal stream. */
  lemma {:induction false} RefusalMeansIllegal(read: Reader, log: Log, wire: Wire, turns: seq<Turn>)
    requires Follows(read, log) && log.state.open && Calm(turns) && !wire.ended
    ensures var after := Received(read, log, wire, turns);
            && !Receive(log.state, read, wire, turns).1.ended
            && (after.state.open || !Parse(read, after.read).legal)
    decreases |turns|
  {
    hide Follows, Decode, Pull, Drained, Parse;
    assert wire.cells[..0] == [] && log.read + [] == log.read;
    if turns != [] {
      DecodeFollows(read, log, false);
      var (d, got) := Decode(log.state, read, false);
      match got
      case Nothing =>
        PullFollows(read, log.(state := d), wire, turns[0]);
        DrainedEnd(d, wire, turns[0]);
        match Pull(d, wire, turns[0]) {
          case Again(e) =>
            var rest := Drained(d, wire, turns[0]);
            var next := log.(state := e, read := log.read + Took(d, wire, turns[0]));
            RefusalMeansIllegal(read, next, rest, turns[1..]);
            ReceiveFollows(read, next, rest, turns[1..]);
            ReceivedAgain(read, log, wire, turns);
          case Stop(e) => StopIsOpen(d, wire, turns[0]);
          case Fault => PullFaultsOnIllegal(read, log.(state := d), wire, turns[0]);
        }
      case Delivered(_, body, fds) =>
      case Refused => DecodeRefusesIllegal(read, log);
    }
  }

  lemma DrainedEnd(c: State, wire: Wire, turn: Turn)
    ensures Drained(c, wire, turn).ended == wire.ended
  {
  }

  lemma StopIsOpen(c: State, wire: Wire, turn: Turn)
    requires c.open && !wire.ended && Pull(c, wire, turn).Stop?
    ensures Pull(c, wire, turn).state == c
  {
  }

  /** Any peer, in every state: the frames delivered are a front part of those the stream read so
      far means. A channel still open with nothing undecoded has read a legal stream and delivered
      all its frames; and without a timeout, a failed read or the end of the stream, only an
      illegal stream closes it. A closed channel owns no descriptor. */
  lemma AnyPeer(read: Reader, wire: Wire, calls: seq<seq<Turn>>)
    ensures var (end, rest) := ReceiveMany(read, Log(New(), [], 0, []), wire, calls);
            && end.delivered <= Parse(read, end.read).frames
            && (end.state.open && end.state.input == [] ==>
                  Parse(read, end.read).legal && end.delivered == Parse(read, end.read).frames)
            && (!wire.ended && (forall i :: 0 <= i < |calls| ==> Calm(calls[i])) ==>
                  end.state.open || !Parse(read, end.read).legal)
            && (!end.state.open ==> Owned(end.state) == [])
  {
    hide Parse;
    StartLinked(read);
    var log := Log(New(), [], 0, []);
    assert Settled(read, log) by { assert Follows(read, log); }
    ManyFollow(read, log, wire, calls);
    var (end, rest) := ReceiveMany(read, log, wire, calls);
    SettledIsPrefix(read, end);
    if end.state.open && end.state.input == [] {
      DeliveredIsMeaning(read, end);
    }
  }

  // An honest peer ---------------------------------------------------------------------------

  /** A frame whose body the receiver's parser reads, nested no deeper than the scan allows. */
  predicate Readable(read: Reader, p: Payload) {
    Sendable(p) && Parsed(read, p.body).Some? && Accepted(Parsed(read, p.body).value, |p.fds|)
  }

  lemma ReadableIsAdmitted(read: Reader, p: Payload)
    requires Readable(read, p)
    ensures Admitted(read, p.body, map[Lower(DESCRIPTOR_COUNT) := Decimal(|p.fds|)], p.fds).Some?
  {
    hide Parsed, Accepted, Lower;
  }

  /** Every front part of a stream of readable frames is legal. */
  lemma {:induction false} HonestIsLegal(read: Reader, frames: seq<Payload>, cells: seq<Cell>)
    requires forall i :: 0 <= i < |frames| ==> Readable(read, frames[i])
    requires cells <= Stream(frames)
    ensures Parse(read, cells).legal
    decreases |frames|
  {
    hide OneShot, Admitted, Counted, Parsed, Accepted;
    if frames == [] {
      EmptyIsIncomplete();
    } else {
      var p := frames[0];
      var bytes := Counted(p.body, |p.fds|);
      var first := FrameCells(p);
      CellsBytes(bytes, p.fds);
      CountedFrame(MAX_CONTROL_BODY, p.body, |p.fds|, []);
      assert bytes + [] == bytes;
      if |cells| < |first| {
        assert cells == first[..|cells|];
        assert BytesOf(cells) == bytes[..|cells|];
        PrefixIsPending(CONTROL, bytes, |cells|);
      } else {
        var tail := cells[|first|..];
        assert cells == first + tail;
        assert tail <= Stream(frames[1..]);
        BytesOfParts(first, tail);
        VerdictIsStable(CONTROL, bytes, BytesOf(tail));
        assert cells[..|first|] == first;
        ReadableIsAdmitted(read, p);
        HonestIsLegal(read, frames[1..], tail);
      }
    }
  }

  /** A step in which nothing goes wrong at the receiver's end: what is queued is what the parser
      reads back, no deadline passes and no read fails. */
  predicate Smooth(read: Reader, a: Action) {
    match a
    case Send(value, body, _) => Parsed(read, body) == Some(value)
    case ReceiveSome(turns) => Calm(turns)
    case CloseReceiver => false
    case _ => true
  }

  predicate Accepting(read: Reader, t: Trip) {
    && Linked(read, t)
    && (forall i :: 0 <= i < |t.queued| ==> Readable(read, t.queued[i]))
    && (t.sender.open ==> !t.wire.ended && t.receiver.state.open)
  }

  lemma SmoothKeeps(read: Reader, t: Trip, a: Action)
    requires Accepting(read, t) && Smooth(read, a)
    ensures Accepting(read, Step(read, t, a))
  {
    hide Linked, Parse, Stream, Parsed, Accepted, Counted, Flush, Receive, Calm;
    match a {
      case Send(value, body, fds) => SendLinked(read, t, value, body, fds);
      case FlushSome(script) =>
        FlushLinked(read, t, script);
        FlushClosed(t.sender, script);
      case ReceiveSome(turns) =>
        ReceiveLinked(read, t, turns);
        if t.sender.open {
          LinkedFollows(read, t);
          RefusalMeansIllegal(read, t.receiver, t.wire, turns);
          ReceivedIsHonest(read, t, turns);
        }
      case CloseSender => CloseLinked(read, t);
      case CloseReceiver =>
    }
  }

  lemma FlushClosed(c: State, script: seq<ChannelSpec.Send>)
    ensures Flush(c, script).0.open ==> c.open
  {
    if !c.open {
      assert Flush(c, script).0 == Closed();
    }
  }

  lemma LinkedFollows(read: Reader, t: Trip)
    requires Linked(read, t)
    ensures Follows(read, t.receiver)
  {
  }

  lemma ReceivedIsHonest(read: Reader, t: Trip, turns: seq<Turn>)
    requires Accepting(read, t) && t.receiver.state.open
    ensures Parse(read, Received(read, t.receiver, t.wire, turns).read).legal
  {
    hide Receive, Parse, Follows, Budgeted, Fits, Waiting, Stream, Readable, Sendable;
    ReceiveLinked(read, t, turns);
    var after := Step(read, t, ReceiveSome(turns));
    assert after.receiver.read + after.wire.cells <= Stream(t.queued);
    HonestIsLegal(read, t.queued, after.receiver.read);
  }

  /** An honest peer is never refused: while the sender is open, if every frame queued is one the
      parser reads back within the nesting limit, and no deadline passes or read fails, the
      receiver stays open, whatever the pattern of short writes and reads. */
  lemma {:induction false} HonestIsAccepted(read: Reader, actions: seq<Action>)
    requires forall i :: 0 <= i < |actions| ==> Smooth(read, actions[i])
    ensures var t := Run(read, Start(), actions);
            t.sender.open ==> t.receiver.state.open
  {
    StartLinked(read);
    SmoothRun(read, Start(), actions);
  }

  lemma {:induction false} SmoothRun(read: Reader, t: Trip, actions: seq<Action>)
    requires Accepting(read, t) && forall i :: 0 <= i < |actions| ==> Smooth(read, actions[i])
    ensures Accepting(read, Run(read, t, actions))
    decreases |actions|
  {
    hide Accepting, Step, Smooth;
    if actions != [] {
      SmoothKeeps(read, t, actions[0]);
      SmoothRun(read, Step(read, t, actions[0]), actions[1..]);
    }
  }

  /** The nesting limit is needed: `queue` does not check it, and a deeper body is refused by
      every receiver, whatever its parser. */
  lemma DeepBodyIsIllegal(read: Reader, p: Payload)
    requires Sendable(p) && Nesting.Steps(Nesting.Scan(0, false, false), p.body).None?
    ensures !Parse(read, FrameCells(p)).legal
    ensures forall value: Json, c: State :: c.open && c.output == [] && Budgeted(c) && Bijection(Listed(value), |p.fds|) ==>
              Queue(c, value, p.body, p.fds).1 == Queued
  {
    hide OneShot, Counted, Queue, Budgeted, Nesting.Steps;
    var bytes := Counted(p.body, |p.fds|);
    CellsBytes(bytes, p.fds);
    CountedFrame(MAX_CONTROL_BODY, p.body, |p.fds|, []);
    assert bytes + [] == bytes;
    forall value: Json, c: State | c.open && c.output == [] && Budgeted(c) && Bijection(Listed(value), |p.fds|)
      ensures Queue(c, value, p.body, p.fds).1 == Queued
    {
      EmptyNeverBlocks(c, value, p.body, p.fds);
    }
  }

  /** Exactly: the frame of a payload is legal if and only if the receiver's parser reads its body
      within the nesting limit, with references that are a bijection onto its descriptors. */
  lemma LegalIffReadable(read: Reader, p: Payload)
    requires Sendable(p)
    ensures Parse(read, FrameCells(p)).legal <==> Readable(read, p)
  {
    hide OneShot, Counted, Parsed, Accepted;
    var bytes := Counted(p.body, |p.fds|);
    CellsBytes(bytes, p.fds);
    CountedFrame(MAX_CONTROL_BODY, p.body, |p.fds|, []);
    assert bytes + [] == bytes;
    if Readable(read, p) {
      assert Stream([p]) == FrameCells(p) + Stream([]) by { assert [p][1..] == []; }
      HonestIsLegal(read, [p], FrameCells(p));
    }
  }

  /** Arrays nested `n` deep, as the walk over references sees them. */
  function NestedArray(n: nat): Json {
    if n == 0 then Array([]) else Array([NestedArray(n - 1)])
  }

  lemma {:induction false} NestedHasNoReference(n: nat)
    ensures Listed(NestedArray(n)) == []
  {
    if n > 0 {
      NestedHasNoReference(n - 1);
      var items := [NestedArray(n - 1)];
      assert items[1..] == [];
      assert ListedItems(items) == Listed(items[0]) + ListedItems([]);
    }
  }

  /** 33 nested arrays: a fresh channel queues them, and whatever its parser, a receiver that has
      decoded all of their frame has closed. */
  lemma DeepArraysAreRefused(read: Reader, calls: seq<seq<Turn>>)
    ensures var p := Payload(Nesting.Text(Nesting.Nested(33)), []);
            && Queue(New(), NestedArray(32), p.body, []).1 == Queued
            && !Parse(read, FrameCells(p)).legal
            && (var end := ReceiveMany(read, Log(New(), [], 0, []), Wire(FrameCells(p), false), calls).0;
                end.read == FrameCells(p) && end.state.input == [] ==> !end.state.open)
  {
    hide OneShot, Counted, Parse, Queue, Nesting.Steps, Nesting.Text, Nesting.Nested, Listed, FrameCells, ReceiveMany, Nesting.Written, Nesting.Depth;
    var v := Nesting.Nested(33);
    var p := Payload(Nesting.Text(v), []);
    Nesting.NestedIsDeep(33);
    Nesting.ScanIsExact([], v, []);
    assert [] + p.body + [] == p.body;
    DeepBodyIsIllegal(read, p);
    NestedHasNoReference(32);
    assert Budgeted(New());
    EmptyNeverBlocks(New(), NestedArray(32), p.body, []);
    AnyPeer(read, Wire(FrameCells(p), false), calls);
  }

  /** The consecutive pieces of a stream its frames come from. */
  function Pieces(read: Reader, cells: seq<Cell>): seq<seq<Cell>>
    decreases |cells|
  {
    match OneShot(CONTROL, BytesOf(cells))
    case Frame(size, body, headers) =>
      if 0 < size <= |cells| && Tidy(cells[..size]) && Admitted(read, body, headers, cells[0].fds).Some?
      then [cells[..size]] + Pieces(read, cells[size..])
      else []
    case _ => []
  }

  /** A frame read from one piece: the piece decodes to its body, its descriptors are those
      of the piece's first byte and of no other, and its references are a bijection onto
      their indices. */
  ghost predicate FrameOf(read: Reader, piece: seq<Cell>, p: Payload) {
    && piece != [] && Tidy(piece) && p.fds == piece[0].fds
    && (exists headers :: OneShot(CONTROL, BytesOf(piece)) == Frame(|piece|, p.body, headers))
    && (exists value :: read(p.body) == Some(value) && Bijection(Listed(value), |p.fds|))
  }

  /** What the meaning of a stream says of each frame, for every stream. */
  lemma {:induction false} MeaningOfFrames(read: Reader, cells: seq<Cell>)
    ensures var m := Parse(read, cells);
            && |Pieces(read, cells)| == |m.frames|
            && Flatten(Pieces(read, cells)) + m.rest == cells
            && forall i :: 0 <= i < |m.frames| ==> FrameOf(read, Pieces(read, cells)[i], m.frames[i])
    decreases |cells|
  {
    hide OneShot, FrameOf, BytesOf, Tidy, Admitted;
    var v := OneShot(CONTROL, BytesOf(cells));
    if v.Frame? && 0 < v.size <= |cells| && Tidy(cells[..v.size]) && Admitted(read, v.body, v.headers, cells[0].fds).Some? {
      var piece := cells[..v.size];
      var tail := cells[v.size..];
      MeaningOfFrames(read, tail);
      PieceIsFrame(read, cells);
      assert cells == piece + tail;
      Assoc(piece, Flatten(Pieces(read, tail)), Parse(read, tail).rest);
      assert ([piece] + Pieces(read, tail))[1..] == Pieces(read, tail);
    } else {
      assert [] + cells == cells;
    }
  }

  lemma PieceIsFrame(read: Reader, cells: seq<Cell>)
    requires var v := OneShot(CONTROL, BytesOf(cells));
             v.Frame? && 0 < v.size <= |cells| && Tidy(cells[..v.size]) && Admitted(read, v.body, v.headers, cells[0].fds).Some?
    ensures var v := OneShot(CONTROL, BytesOf(cells));
            FrameOf(read, cells[..v.size], Payload(v.body, cells[0].fds))
  {
    var v := OneShot(CONTROL, BytesOf(cells));
    var piece := cells[..v.size];
    assert BytesOf(cells)[..v.size] == BytesOf(piece);
    FirstFrameAlone(CONTROL, BytesOf(cells));
    var value := Admitted(read, v.body, v.headers, cells[0].fds).value;
    AcceptedIsBijection(value, |cells[0].fds|);
  }

  /** Any number of `receive` calls, each with its own kernel answers. */
  function ReceiveMany(read: Reader, log: Log, wire: Wire, calls: seq<seq<Turn>>): (Log, Wire)
    decreases |calls|
  {
    if calls == [] || !log.state.open then (log, wire)
    else
      ReceiveMany(read, Received(read, log, wire, calls[0]), Receive(log.state, read, wire, calls[0]).1, calls[1..])
  }

  lemma {:induction false} ManyFollow(read: Reader, log: Log, wire: Wire, calls: seq<seq<Turn>>)
    requires Follows(read, log) && Settled(read, log) && (log.state.open || log.state == Closed())
    ensures var end := ReceiveMany(read, log, wire, calls).0;
            && Follows(read, end) && Settled(read, end) && (end.state.open || end.state == Closed())
            && (log.state.open && !wire.ended && (forall i :: 0 <= i < |calls| ==> Calm(calls[i])) ==>
                  end.state.open || !Parse(read, end.read).legal)
    decreases |calls|
  {
    hide Follows, Receive, Parse, Settled, Calm;
    if calls != [] && log.state.open {
      ReceiveFollows(read, log, wire, calls[0]);
      ReceiveSettles(read, log, wire, calls[0]);
      if !wire.ended && Calm(calls[0]) {
        RefusalMeansIllegal(read, log, wire, calls[0]);
      }
      ManyFollow(read, Received(read, log, wire, calls[0]), Receive(log.state, read, wire, calls[0]).1, calls[1..]);
    }
  }
}
