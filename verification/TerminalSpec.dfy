/** The runtime's terminal: one PTY, one consumer at a time, bounded buffers both ways. */
module TerminalSpec {
  import opened Bytes

  const CAP: nat := 65536
  const CHUNK: nat := 8192

  /** What happened on one attachment: the handshake it was given, what it received, the part
      of the PTY output it got, what it sent before detaching, what of that reached the PTY,
      and whether a PTY write failed meanwhile. */
  datatype Attachment = Attachment(greeting: seq<byte>, received: seq<byte>, from: nat, to: nat, sent: seq<byte>, typed: seq<byte>, failed: bool)

  /** What a run has done: all output read from the PTY, the attachments so far, whether the
      terminal was marked detached before anyone attached (`early`), and whether it was just
      marked by a server start (`stale`). */
  datatype Log = Log(pty: seq<byte>, attachments: seq<Attachment>, early: bool, stale: bool)

  datatype Mode = Mode(listening: bool, refusing: bool, held: bool)

  /** The terminal's fields; `peer` says that a consumer's stream is held, and is then that of
      the last attachment. */
  datatype State = State(
    mode: Mode,
    peer: bool,
    master: bool,
    connected: bool,
    detached: bool,
    eof: bool,
    interrupted: bool,
    complete: bool,
    hello: seq<byte>,
    toPeer: seq<byte>,
    toPty: seq<byte>,
    log: Log)

  function New(listening: bool, detached: bool): State {
    State(Mode(listening, false, false), false, false, false, detached, false, false, false, [], [], [], Log([], [], detached, false))
  }

  datatype Read = Data(bytes: seq<byte>) | ReadBlocked | ReadEnded
  datatype PtyRead = PtyData(bytes: seq<byte>) | PtyBlocked | PtyGone | PtyFailed
  datatype Write = Wrote(n: nat) | WriteBlocked | WriteFailed

  /** The consumer's socket at a refresh. */
  datatype Peek = Peek(hangup: bool, read: Read)

  /** One accepted connection: whether its descriptor could be duplicated, the refresh before
      the attach, whether it could be made nonblocking, and the encoded handshake. */
  datatype Accept = Accepted(cloned: bool, peek: Peek, nonblocking: bool, greeting: Option<seq<byte>>) | NoneWaiting | AcceptFailed

  datatype TickEnv = TickEnv(peek: Peek, accepts: seq<Accept>, ptyRead: PtyRead, ptyWrite: Write, helloWrite: Write, outWrite: Write, shutdown: bool)

  /** How many of these bytes a write takes; none for an error. */
  function Taken(bytes: seq<byte>, w: Write): (n: Option<nat>)
    ensures n.Some? ==> n.value <= |bytes|
  {
    if bytes == [] then Some(0)
    else
      match w
      case Wrote(n) => if n == 0 then None else Some(Min(n, |bytes|))
      case WriteBlocked => Some(0)
      case WriteFailed => None
  }

  function Last(log: Log): Attachment {
    if log.attachments == [] then Attachment([], [], 0, 0, [], [], false) else log.attachments[|log.attachments| - 1]
  }

  /** Record something about the current attachment. */
  function Note(log: Log, a: Attachment): (r: Log)
    ensures r.pty == log.pty && r.early == log.early && r.stale == log.stale && |r.attachments| == |log.attachments|
  {
    if log.attachments == [] then log else log.(attachments := log.attachments[|log.attachments| - 1 := a])
  }

  /** The peer closed its end. */
  function Gone(t: State): State {
    t.(peer := false, hello := [], interrupted := t.interrupted || (!t.complete && !t.detached), toPty := [])
  }

  function Cleared(t: State): State {
    if t.detached then t.(toPty := []) else t
  }

  /** The bytes a nonfull buffer takes from a read. */
  function Room(buffer: seq<byte>, bytes: seq<byte>): seq<byte> {
    bytes[..Min(|bytes|, Min(CHUNK, if |buffer| < CAP then CAP - |buffer| else 0))]
  }

  /** `refresh_peer`. */
  function Refresh(t: State, k: Peek): State {
    if !t.peer then t
    else
      var c := Cleared(t).(log := t.log.(stale := false));
      if k.hangup then Gone(c)
      else if |c.toPty| >= CAP || k.read.ReadBlocked? then c
      else if k.read.ReadEnded? || Room(c.toPty, k.read.bytes) == [] then Gone(c)
      else if c.detached then c // what arrives after a detach is discarded
      else Received(c, Room(c.toPty, k.read.bytes))
  }

  function Received(t: State, chunk: seq<byte>): State {
    t.(toPty := t.toPty + chunk, log := Note(t.log, Last(t.log).(sent := Last(t.log).sent + chunk)))
  }

  /** Where in the PTY output the retained buffer starts. */
  function Start(t: State): nat {
    if |t.toPeer| <= |t.log.pty| then |t.log.pty| - |t.toPeer| else 0
  }

  /** `attach`, with the handshake it encodes. */
  function Attach(t: State, k: Peek, nonblocking: bool, greeting: Option<seq<byte>>): (State, bool) {
    var c := Refresh(t, k);
    if c.peer || c.complete || !nonblocking || greeting.None? then (c, false) else (Joined(c, greeting.value), true)
  }

  function Joined(t: State, greeting: seq<byte>): State {
    t.(hello := greeting, peer := true, connected := true, detached := false, interrupted := false,
       log := t.log.(stale := false, attachments := t.log.attachments + [Attachment(greeting, [], Start(t), Start(t), [], [], false)]))
  }

  /** `detach`. */
  function Detach(t: State, shutdown: bool): (State, bool) {
    if !t.peer || t.detached || t.complete || !shutdown then (t, false) else (t.(detached := true, toPty := []), true)
  }

  /** The accept loop: up to four waiting connections; false ends the tick early. */
  function AcceptAll(t: State, accepts: seq<Accept>, limit: nat): (State, bool)
    decreases limit
  {
    if limit == 0 || accepts == [] || !t.mode.listening || t.mode.held then (t, true)
    else
      match accepts[0]
      case NoneWaiting => (t, true)
      case AcceptFailed => (t, false)
      case Accepted(cloned, peek, nonblocking, greeting) =>
        if !cloned then (t, false)
        else if t.mode.refusing then (if nonblocking then AcceptAll(t, accepts[1..], limit - 1) else (t, false))
        else
          var (c, ok) := Attach(t, peek, nonblocking, greeting);
          if !nonblocking then (c, false) else AcceptAll(c, accepts[1..], limit - 1)
  }

  /** Keep only a bounded tail: the consumer has detached or gone. */
  predicate Tail(t: State) {
    t.detached || (t.connected && !t.peer)
  }

  /** The newest output, dropping the oldest bytes that do not fit. */
  function Retain(buffer: seq<byte>, newest: seq<byte>): seq<byte> {
    var overflow := if |buffer| + |newest| > CAP then |buffer| + |newest| - CAP else 0;
    if overflow <= |buffer| then buffer[overflow..] + newest else newest
  }

  function ReadPty(t: State, r: PtyRead): State {
    if !Tail(t) && |t.toPeer| >= CAP then t
    else
      match r
      case PtyBlocked => t
      case PtyGone => t.(eof := true)
      case PtyFailed => t.(eof := true, interrupted := true)
      case PtyData(bytes) =>
        var chunk := if Tail(t) then bytes[..Min(|bytes|, CHUNK)] else Room(t.toPeer, bytes);
        if chunk == [] then t.(eof := true) else t.(toPeer := Retain(t.toPeer, chunk), log := t.log.(pty := t.log.pty + chunk))
  }

  /** Input to the PTY; a failed write discards what was buffered. */
  function WritePty(t: State, w: Write): State {
    if t.eof then t
    else
      match Taken(t.toPty, w)
      case None => t.(toPty := [], log := if t.peer then Note(t.log, Last(t.log).(failed := true)) else t.log)
      case Some(n) =>
        t.(toPty := t.toPty[n..], log := if t.peer then Note(t.log, Last(t.log).(typed := Last(t.log).typed + t.toPty[..n])) else t.log)
  }

  /** The PTY's part of a tick. */
  function ServePty(t: State, env: TickEnv): State {
    if !t.master || t.eof then t else WritePty(ReadPty(t, env.ptyRead), env.ptyWrite)
  }

  /** A write to the consumer failed. */
  function Dropped(t: State): State {
    t.(interrupted := true, peer := false, hello := [], toPty := [])
  }

  /** `n` bytes of the handshake were written. */
  function Greeted(t: State, n: nat): State
    requires n <= |t.hello|
  {
    t.(hello := t.hello[n..], log := Note(t.log, Last(t.log).(received := Last(t.log).received + t.hello[..n])))
  }

  /** `n` bytes of output were written. */
  function Shown(t: State, n: nat): State
    requires n <= |t.toPeer|
  {
    var a := Last(t.log);
    t.(toPeer := t.toPeer[n..], log := Note(t.log, a.(received := a.received + t.toPeer[..n], to := a.to + n)))
  }

  /** The handshake, then output; false ends the tick early. */
  function Deliver(t: State, env: TickEnv): (State, bool) {
    if !t.peer || t.detached then (t, true)
    else
      match Taken(t.hello, env.helloWrite)
      case None => (Dropped(t), true)
      case Some(n) => if Greeted(t, n).hello != [] then (Greeted(t, n), true) else DeliverOutput(Greeted(t, n), env)
  }

  function DeliverOutput(t: State, env: TickEnv): (State, bool) {
    match Taken(t.toPeer, env.outWrite)
    case None => (Dropped(t), true)
    case Some(n) =>
      var o := Shown(t, n);
      if !(o.eof && o.toPeer == [] && !o.complete) then (o, true)
      else if !env.shutdown then (o, false)
      else (o.(complete := true), true)
  }

  /** `tick`. */
  function Tick(t: State, env: TickEnv): (State, bool) {
    var (a, ok) := AcceptAll(Refresh(t, env.peek), env.accepts, 4);
    if !ok then (a, false)
    else
      var (d, done) := Deliver(ServePty(a, env), env);
      if !done then (d, false) else (if d.eof then d.(master := false) else d, true)
  }

  datatype Action =
    | DoTick(env: TickEnv)
    | DoAttach(peek: Peek, nonblocking: bool, greeting: Option<seq<byte>>)
    | DoDetach(shutdown: bool)
    | SetMaster
    | ServerStarted // refuse attachments and mark the terminal detached
    | Hold
    | Release
    | RefuseAll
    | FailedStart
    | TickFailed // the owner notes that a tick returned an error

  /** `terminals.started` with a server: it sets `detached` itself. */
  function MarkDetached(t: State): State {
    t.(mode := t.mode.(refusing := true, held := false), detached := true,
       log := t.log.(stale := true, early := t.log.early || t.log.attachments == []))
  }

  function Step(t: State, a: Action): State {
    match a
    case DoTick(env) => Tick(t, env).0
    case DoAttach(peek, nonblocking, greeting) => Attach(t, peek, nonblocking, greeting).0
    case DoDetach(shutdown) => Detach(t, shutdown).0
    case SetMaster => t.(mode := t.mode.(held := false), master := true)
    case ServerStarted => MarkDetached(t)
    case Hold => t.(mode := t.mode.(held := true))
    case Release => t.(mode := t.mode.(held := false))
    case RefuseAll => t.(mode := t.mode.(refusing := true, held := false))
    case FailedStart => t.(mode := t.mode.(held := false), eof := true, interrupted := true)
    case TickFailed => t.(interrupted := true)
  }

  /** A terminal after any list of actions. */
  function Run(start: State, actions: seq<Action>): State {
    if actions == [] then start else Step(Run(start, actions[..|actions| - 1]), actions[|actions| - 1])
  }
}
