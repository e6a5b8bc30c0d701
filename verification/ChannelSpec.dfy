/** The framed descriptor channel as transitions on values: what one call does,
    for any behaviour of the kernel stream beneath it. */
module ChannelSpec {
  import opened Bytes
  import opened HeaderText
  import opened Framing
  import opened Codec
  import opened References
  import Nesting

  /** The identity of one open descriptor. */
  type Fd = nat

  /** The serde parser is foreign: some function from bytes to values. */
  type Reader = seq<byte> -> Option<Json>

  const MAX_FDS: nat := 240
  const MAX_CONTROL_BODY: nat := 8 * 1024 * 1024
  const MAX_QUEUED_BYTES: nat := 2 * MAX_CONTROL_BODY
  const MAX_QUEUED_FRAMES: nat := 64
  const MAX_QUEUED_FDS: nat := 2 * MAX_FDS
  const CHUNK: nat := 64 * 1024

  const CONTROL: Config := Config(MAX_CONTROL_BODY, [DESCRIPTOR_COUNT])

  /** One byte of the kernel stream with the descriptors attached to it. */
  datatype Cell = Cell(b: byte, fds: seq<Fd>)

  datatype Output = Output(bytes: seq<byte>, offset: nat, fds: seq<Fd>)

  datatype State = State(
    open: bool,
    decoder: Decoder,
    input: seq<byte>,
    partial: bool,
    received: seq<Fd>,
    output: seq<Output>,
    queuedBytes: int,
    queuedFds: int)

  function New(): State {
    State(true, Fresh(CONTROL), [], false, [], [], 0, 0)
  }

  /** `close`: every buffer and owned descriptor goes with the socket. */
  function Closed(): State {
    New().(open := false)
  }

  /** The descriptors a channel owns. */
  function Owned(c: State): seq<Fd> {
    c.received + OutputFds(c.output)
  }

  function OutputFds(output: seq<Output>): seq<Fd> {
    if output == [] then [] else output[0].fds + OutputFds(output[1..])
  }

  // Sending -------------------------------------------------------------------

  datatype QueueResult = Queued | BrokenPipe | Invalid | QueueFull

  /** `queue`, with the body serialization produced. */
  function Queue(c: State, value: Json, body: seq<byte>, fds: seq<Fd>): (State, QueueResult) {
    if !c.open then (c, BrokenPipe)
    else if |fds| > MAX_FDS then (c, Invalid)
    else if !Accepted(value, |fds|) then (c, Invalid)
    else if body == [] || |body| > MAX_CONTROL_BODY then (c, Invalid)
    else
      var bytes := Counted(body, |fds|);
      if |c.output| >= MAX_QUEUED_FRAMES || c.queuedBytes + |bytes| > MAX_QUEUED_BYTES
         || c.queuedFds + |fds| > MAX_QUEUED_FDS
      then (c, QueueFull)
      else
        (c.(queuedBytes := c.queuedBytes + |bytes|, queuedFds := c.queuedFds + |fds|,
            output := c.output + [Output(bytes, 0, fds)]), Queued)
  }

  /** What one `sendmsg` may answer; a count is cut to what was offered. */
  datatype Send = Sent(n: nat) | SendBlocked | SendInterrupted | SendFailed

  /** Bytes as the kernel stream carries them: descriptors travel with the first byte. */
  function Cells(bytes: seq<byte>, fds: seq<Fd>): (cells: seq<Cell>)
    ensures |cells| == |bytes|
    ensures forall i :: 0 <= i < |bytes| ==> cells[i] == Cell(bytes[i], if i == 0 then fds else [])
  {
    seq(|bytes|, i requires 0 <= i < |bytes| => Cell(bytes[i], if i == 0 then fds else []))
  }

  /** Hand `n` bytes of the front frame to the kernel, with its descriptors if still attached. */
  function Advance(c: State, n: nat): (State, seq<Cell>)
    requires c.output != [] && 0 < n <= |c.output[0].bytes| - c.output[0].offset
  {
    var front := c.output[0];
    var sent := Cells(front.bytes[front.offset..front.offset + n], front.fds);
    var rest := if front.offset + n == |front.bytes| then c.output[1..]
                else [Output(front.bytes, front.offset + n, [])] + c.output[1..];
    (c.(queuedFds := c.queuedFds - |front.fds|, queuedBytes := c.queuedBytes - n, output := rest), sent)
  }

  /** `flush`: the new state, what entered the stream, and whether it succeeded. */
  function Flush(c: State, script: seq<Send>): (State, seq<Cell>, bool)
    decreases |script|
  {
    if !c.open then (Closed(), [], false)
    else if script == [] || c.output == [] then (c, [], true)
    else
      match script[0]
      case SendBlocked => (c, [], true)
      case SendInterrupted => Flush(c, script[1..])
      case SendFailed => (Closed(), [], false)
      case Sent(k) =>
        var n := Min(k, |c.output[0].bytes| - c.output[0].offset);
        if n <= 0 then (Closed(), [], false)
        else
          var (d, sent) := Advance(c, n);
          var (e, more, ok) := Flush(d, script[1..]);
          (e, sent + more, ok)
  }

  // Receiving -------------------------------------------------------------------

  function BytesOf(cells: seq<Cell>): (bytes: seq<byte>)
    ensures |bytes| == |cells|
  {
    seq(|cells|, i requires 0 <= i < |cells| => cells[i].b)
  }

  function FdsOf(cells: seq<Cell>): seq<Fd> {
    if cells == [] then [] else cells[0].fds + FdsOf(cells[1..])
  }

  /** `parse_with_limit`: size, nesting, then the foreign parser. */
  function Parsed(read: Reader, body: seq<byte>): Option<Json> {
    if |body| > MAX_CONTROL_BODY then None
    else if Nesting.Steps(Nesting.Scan(0, false, false), body).None? then None
    else read(body)
  }

  /** The value of a completed frame, if its header and references agree with the
      descriptors received. */
  function Admitted(read: Reader, body: seq<byte>, headers: map<Text, Text>, fds: seq<Fd>): Option<Json> {
    var key := Lower(DESCRIPTOR_COUNT);
    if key !in headers then None
    else
      var text := headers[key];
      if text == [] || !AllDigits(text) || DecimalValue(text) >= USIZE_END then None
      else if DecimalValue(text) > MAX_FDS || DecimalValue(text) != |fds| then None
      else
        match Parsed(read, body)
        case None => None
        case Some(value) => if Accepted(value, |fds|) then Some(value) else None
  }

  /** What a call yields: no frame yet, one frame, or an error (which closes). */
  datatype Got = Nothing | Delivered(value: Json, body: seq<byte>, fds: seq<Fd>) | Refused

  /** `decode`; `late` is the clock's answer to whether a started frame is past its deadline. */
  function Decode(c: State, read: Reader, late: bool): (State, Got) {
    if c.input == [] then (c, Nothing)
    else if late && c.decoder.data != [] then (c, Refused)
    else
      match Push(c.decoder, c.input)
      case Failed(_) => (c, Refused)
      case Pending(d) => (c.(decoder := d, input := [], partial := true), Nothing)
      case Whole(d, consumed, body) =>
        match Admitted(read, body, d.headers, c.received)
        case None => (c, Refused)
        case Some(value) =>
          (c.(decoder := Fresh(CONTROL), input := if consumed <= |c.input| then c.input[consumed..] else [],
              partial := false, received := []),
           Delivered(value, body, c.received))
  }

  /** One iteration's kernel and clock answers. A read takes any nonempty part of what
      is there, at most what was asked for. */
  datatype Recv = Read(n: nat) | ReadInterrupted | ReadFailed

  datatype Turn = Turn(pushLate: bool, late: bool, recv: Recv)

  /** The stream before the reader: what is readable, and whether the peer has shut down. */
  datatype Wire = Wire(cells: seq<Cell>, ended: bool)

  datatype Pulled = Again(state: State) | Stop(state: State) | Fault

  /** How many cells a read takes. */
  function Taken(c: State, wire: Wire, n: nat): nat {
    var room := Min(CHUNK, c.decoder.Remaining());
    var most := Min(room, |wire.cells|);
    if most <= 0 then 0 else if n < 1 then 1 else Min(n, most)
  }

  /** The part of an iteration after `decode` found no frame. */
  function Pull(c: State, wire: Wire, turn: Turn): Pulled {
    if !c.open then Stop(c)
    else if turn.late && c.decoder.data != [] then Fault
    else
      match turn.recv
      case ReadInterrupted => Again(c)
      case ReadFailed => Fault
      case Read(n) =>
        if wire.cells == [] then
          if !wire.ended then Stop(c)
          else if c.partial || c.received != [] then Fault
          else Stop(Closed())
        else
          var took := wire.cells[..Taken(c, wire, n)];
          var fds := FdsOf(took);
          var first := !c.partial && c.input == [];
          if (!first && fds != []) || |c.received + fds| > MAX_FDS then Fault
          else Again(c.(received := c.received + fds, input := c.input + BytesOf(took)))
  }

  /** What remains readable after a pull. */
  function Drained(c: State, wire: Wire, turn: Turn): Wire {
    if c.open && !(turn.late && c.decoder.data != []) && turn.recv.Read?
    then wire.(cells := wire.cells[Taken(c, wire, turn.recv.n)..])
    else wire
  }

  /** `receive`: the new state, the rest of the stream, and the frame or error. */
  function Receive(c: State, read: Reader, wire: Wire, turns: seq<Turn>): (State, Wire, Got)
    decreases |turns|
  {
    if turns == [] then (c, wire, Nothing)
    else
      var (d, got) := Decode(c, read, turns[0].pushLate);
      match got
      case Refused => (Closed(), wire, Refused)
      case Delivered(_, _, _) => (d, wire, got)
      case Nothing =>
        match Pull(d, wire, turns[0])
        case Fault => (Closed(), Drained(d, wire, turns[0]), Refused)
        case Stop(e) => (e, wire, Nothing)
        case Again(e) => Receive(e, read, Drained(d, wire, turns[0]), turns[1..])
  }

  // Budgets -----------------------------------------------------------------------

  function UnsentBytes(output: seq<Output>): int {
    if output == [] then 0 else |output[0].bytes| - output[0].offset + UnsentBytes(output[1..])
  }

  /** A frame waiting behind the front one: untouched. */
  predicate Untouched(o: Output) {
    o.offset == 0 && o.bytes != [] && |o.fds| <= MAX_FDS
  }

  /** The budgets equal the sums over pending frames and respect all three caps; only the
      front frame may be partly sent, and then its descriptors are gone. */
  predicate Budgeted(c: State) {
    && c.queuedBytes == UnsentBytes(c.output) <= MAX_QUEUED_BYTES
    && c.queuedFds == |OutputFds(c.output)| <= MAX_QUEUED_FDS
    && |c.output| <= MAX_QUEUED_FRAMES
    && (forall i :: 0 < i < |c.output| ==> Untouched(c.output[i]))
    && (c.output != [] ==> Untouched(c.output[0]) || (0 < c.output[0].offset < |c.output[0].bytes| && c.output[0].fds == []))
    && (!c.open ==> c == Closed())
  }

  lemma {:induction false} SumsAppend(output: seq<Output>, o: Output)
    ensures UnsentBytes(output + [o]) == UnsentBytes(output) + |o.bytes| - o.offset
    ensures OutputFds(output + [o]) == OutputFds(output) + o.fds
  {
    if output == [] {
      assert output + [o] == [o] && [o][1..] == [];
    } else {
      assert (output + [o])[0] == output[0] && (output + [o])[1..] == output[1..] + [o];
      SumsAppend(output[1..], o);
    }
  }

  lemma QueueKeepsBudget(c: State, value: Json, body: seq<byte>, fds: seq<Fd>)
    requires Budgeted(c)
    ensures Budgeted(Queue(c, value, body, fds).0)
    ensures Queue(c, value, body, fds).1 != Queued ==> Queue(c, value, body, fds).0 == c
  {
    hide Accepted;
    SumsAppend(c.output, Output(Counted(body, |fds|), 0, fds));
  }

  /** An empty open channel takes every valid frame: the answer is never "would block". */
  lemma EmptyNeverBlocks(c: State, value: Json, body: seq<byte>, fds: seq<Fd>)
    requires Budgeted(c) && c.open && c.output == []
    ensures Queue(c, value, body, fds).1 != QueueFull
    ensures Queue(c, value, body, fds).1 == Queued <==>
              |fds| <= MAX_FDS && Bijection(Listed(value), |fds|) && 0 < |body| <= MAX_CONTROL_BODY
  {
    AcceptedIsBijection(value, |fds|);
    if 0 < |body| <= MAX_CONTROL_BODY && |fds| <= MAX_FDS {
      CountedFrame(MAX_CONTROL_BODY, body, |fds|, []);
    }
  }

  lemma AdvanceKeepsBudget(c: State, n: nat)
    requires Budgeted(c) && c.output != [] && 0 < n <= |c.output[0].bytes| - c.output[0].offset
    ensures Budgeted(Advance(c, n).0)
  {
    var front := c.output[0];
    var d := Advance(c, n).0;
    if front.offset + n != |front.bytes| {
      assert d.output[1..] == c.output[1..];
      assert [] + OutputFds(c.output[1..]) == OutputFds(c.output[1..]);
    }
  }

  /** Every flush, however short its writes, keeps the budgets exact. */
  lemma {:induction false} FlushKeepsBudget(c: State, script: seq<Send>)
    requires Budgeted(c)
    ensures Budgeted(Flush(c, script).0)
    ensures Flush(c, script).2 || Flush(c, script).0 == Closed()
    decreases |script|
  {
    if c.open && script != [] && c.output != [] {
      match script[0]
      case SendInterrupted => FlushKeepsBudget(c, script[1..]);
      case Sent(k) =>
        var n := Min(k, |c.output[0].bytes| - c.output[0].offset);
        if n > 0 {
          AdvanceKeepsBudget(c, n);
          FlushKeepsBudget(Advance(c, n).0, script[1..]);
        }
      case _ =>
    }
  }

  lemma {:induction false} ReceiveKeepsBudget(c: State, read: Reader, wire: Wire, turns: seq<Turn>)
    requires Budgeted(c)
    ensures Budgeted(Receive(c, read, wire, turns).0)
    decreases |turns|
  {
    assert Budgeted(Closed());
    hide Push, Admitted, UnsentBytes, OutputFds;
    if turns != [] {
      var (d, got) := Decode(c, read, turns[0].pushLate);
      assert c.open ==> d.open;
      if got.Nothing? {
        match Pull(d, wire, turns[0])
        case Again(e) => ReceiveKeepsBudget(e, read, Drained(d, wire, turns[0]), turns[1..]);
        case _ =>
      }
    }
  }
}
