/** The sandbox relay: bounded connections whose calls are checked and forwarded as events. */
module RelaySpec {
  import opened Bytes
  import Framing
  import Codec

  const EVENTS: nat := 16
  const QUEUE: nat := 2 * 1024 * 1024
  const CONNECTIONS: nat := 8
  const INPUT: nat := 32768
  const CHUNK: nat := 16384
  const MAX_REQUEST: nat := 64 * 1024

  /** A JSON request identifier, as its text. */
  type Id = seq<byte>

  datatype Call = Call(id: Option<Id>, name: string, params: seq<byte>)

  datatype Event = SandboxOpened(connection: nat) | SandboxCall(connection: nat, call: Call) | SandboxClosed(connection: nat) | Elsewhere

  /** A message from the daemon: the members the relay looks at, and the serialized body. */
  datatype Message = Message(id: Option<Id>, result: bool, error: bool, body: seq<byte>)

  datatype Waiting = Waiting(id: Id, initialize: bool)

  /** `frames` and `written` record every frame queued and every byte written so far. */
  datatype Peer = Peer(id: nat, decoder: Framing.Decoder, input: seq<byte>, output: seq<seq<byte>>, offset: nat, queued: int,
                       initialized: bool, waiting: Option<Waiting>, close: bool, dead: bool, calls: nat,
                       frames: seq<seq<byte>>, written: seq<byte>)

  /** Foreign code: the JSON-RPC call parser, and the policy's own part of the gate. */
  datatype Foreign = Foreign(parse: seq<byte> -> Option<Call>, policy: Call -> bool)

  datatype Write = Wrote(n: nat) | WriteBlocked | WriteFailed
  datatype Read = Data(bytes: seq<byte>) | ReadBlocked | ReadEnded

  /** What the socket does while one peer is served, whether the decoder's deadline has
      passed, and the body of a refusal if one is sent. */
  datatype Env = Env(first: Write, read: Read, expired: bool, fault: seq<byte>, second: Write)

  function Decoder(): Framing.Decoder {
    Framing.Fresh(Framing.Config(MAX_REQUEST, []))
  }

  function NewPeer(id: nat): Peer {
    Peer(id, Decoder(), [], [], 0, 0, false, None, false, false, 0, [], [])
  }

  // The gate -------------------------------------------------------------------------------

  predicate Messaging(name: string) {
    name in {"messages.send", "messages.get", "messages.reply", "inbox.next", "inbox.status", "inbox.complete", "inbox.requeue"}
  }

  predicate Available(name: string) {
    name in {"permissions.request", "flake.run", "devshell.diff", "sessions.detach", "sessions.attach", "editor.open",
             "sessions.set-state", "sessions.set-variables", "sessions.status", "sessions.list", "sessions.get", "sessions.start",
             "sessions.stop", "devshell.lock", "raids.create", "raids.leave", "raids.members", "raids.set_role", "host.status",
             "host.list", "host.cancel"}
  }

  predicate OneShot(name: string) {
    name in {"permissions.request", "flake.run", "devshell.diff", "editor.open"}
  }

  function Limit(name: string): nat {
    if name == "sessions.set-variables" || name == "permissions.request" then 16384 else 4096
  }

  /** `check`. */
  predicate Check(f: Foreign, call: Call, size: nat, initialized: bool, stopping: bool, trailing: bool) {
    if !Messaging(call.name) && call.name != "communications.list" && size > Limit(call.name) then false
    else if call.name == "initialize" then true
    else if !initialized then false
    else if Messaging(call.name) then true
    else if stopping || !Available(call.name) || call.name == "sessions.attach" || (trailing && OneShot(call.name)) then false
    else f.policy(call)
  }

  // One peer -------------------------------------------------------------------------------

  /** Queue a message; one that does not fit ends the connection. */
  function Queue(p: Peer, body: seq<byte>): Peer {
    match Codec.Encode(body)
    case Some(data) =>
      if p.queued + |data| <= QUEUE
      then p.(queued := p.queued + |data|, output := p.output + [data], frames := p.frames + [data])
      else p.(dead := true)
    case None => p.(dead := true)
  }

  /** `k` more bytes of the front frame were written. */
  function Advance(p: Peer, k: nat): Peer
    requires p.output != [] && p.offset + k <= |p.output[0]|
  {
    var q := p.(queued := p.queued - k, written := p.written + p.output[0][p.offset..p.offset + k]);
    if p.offset + k == |p.output[0]| then q.(output := p.output[1..], offset := 0) else q.(offset := p.offset + k)
  }

  function Flush(p: Peer, w: Write): Peer {
    if p.dead then p
    else
      var q :=
        if p.output == [] || w.WriteBlocked? then p
        else if w.WriteFailed? || w.n == 0 || p.offset >= |p.output[0]| then p.(dead := true)
        else Advance(p, Min(w.n, |p.output[0]| - p.offset));
      if q.close && q.output == [] then q.(dead := true) else q
  }

  /** A refusal is queued and closes the connection once written. */
  function Refuse(p: Peer, fault: seq<byte>): Peer {
    Queue(p, fault).(close := true)
  }

  lemma {:induction false} ConsumedInRange(d: Framing.Decoder, bytes: seq<byte>)
    ensures Framing.Push(d, bytes).Whole? ==> Framing.Push(d, bytes).consumed <= |bytes|
    decreases |bytes|
  {
    if bytes != [] && Framing.Feed(d, bytes[0]).More? {
      ConsumedInRange(Framing.Feed(d, bytes[0]).decoder, bytes[1..]);
    }
  }

  /** Decode at most one frame of the buffered input, and pass a checked call on. */
  function Decode(p: Peer, f: Foreign, stopping: bool, env: Env): (Peer, Option<Call>) {
    if p.waiting.Some? then (p, None)
    else if env.expired then (Refuse(p, env.fault), None)
    else
      ConsumedInRange(p.decoder, p.input);
      match Framing.Push(p.decoder, p.input)
      case Failed(_) => (Refuse(p, env.fault), None)
      case Pending(d) => (p.(decoder := d, input := []), None)
      case Whole(d, n, body) =>
        var q := p.(input := p.input[n..], calls := p.calls + 1);
        if q.calls > 2 then (q.(decoder := d, dead := true), None)
        else Judge(q.(decoder := Decoder()), f, stopping, env, body)
  }

  /** A complete request body. */
  function Judge(q: Peer, f: Foreign, stopping: bool, env: Env, body: seq<byte>): (Peer, Option<Call>) {
    match f.parse(body)
    case None => (Refuse(q, env.fault), None)
    case Some(call) =>
      if call.id.None? then (q, None)
      else if Check(f, call, |body|, q.initialized, stopping, q.input != [])
      then (q.(waiting := Some(Waiting(call.id.value, call.name == "initialize"))), Some(call))
      else (Refuse(q, env.fault), None)
  }

  function ReadPeer(p: Peer, f: Foreign, stopping: bool, env: Env): (Peer, Option<Call>) {
    if p.close || p.dead then (p, None)
    else
      match env.read
      case ReadEnded => (p.(dead := true), None)
      case ReadBlocked => Decode(p, f, stopping, env)
      case Data(bytes) =>
        var chunk := bytes[..Min(|bytes|, CHUNK)];
        if chunk == [] || (p.waiting.Some? && !p.waiting.value.initialize) || |p.input| + |chunk| > INPUT then (p.(dead := true), None)
        else Decode(p.(input := p.input + chunk), f, stopping, env)
  }

  /** One peer's turn. */
  function Turn(p: Peer, f: Foreign, stopping: bool, env: Env): (Peer, Option<Call>) {
    var (q, call) := ReadPeer(Flush(p, env.first), f, stopping, env);
    (if q.close then Flush(q, env.second) else q, call)
  }

  /** Does a message complete the call a peer waits for? */
  predicate Completes(p: Peer, m: Message) {
    p.waiting.Some? && m.id == Some(p.waiting.value.id) && (m.result || m.error)
  }

  function SendPeer(p: Peer, m: Message): Peer {
    var q :=
      if !Completes(p, m) then p
      else if p.waiting.value.initialize && m.result then p.(initialized := true, decoder := Decoder(), waiting := None)
      else p.(close := true, waiting := None);
    Queue(q, m.body)
  }

  // The relay ------------------------------------------------------------------------------

  /** Everything emitted, and every call completed, in order. */
  datatype Mark = Emitted(event: Event) | Answered(connection: nat, success: bool)

  datatype World = World(next: nat, peers: seq<Peer>, closing: seq<nat>, events: seq<Event>, trace: seq<Mark>)

  function Initial(): World {
    World(0, [], [], [], [])
  }

  function Emit(w: World, e: Event): World {
    w.(events := w.events + [e], trace := w.trace + [Emitted(e)])
  }

  /** `open`; the caller has room for an event. */
  function Open(w: World, nonblocking: bool): World
    requires |w.events| < EVENTS
  {
    if |w.peers| >= CONNECTIONS || !nonblocking then w
    else Emit(w.(next := w.next + 1, peers := w.peers + [NewPeer(w.next + 1)]), SandboxOpened(w.next + 1))
  }

  function Send(w: World, connection: nat, m: Message): World {
    w.(peers := seq(|w.peers|, i requires 0 <= i < |w.peers| =>
                 if w.peers[i].id == connection then SendPeer(w.peers[i], m) else w.peers[i]),
       trace := if exists i :: 0 <= i < |w.peers| && w.peers[i].id == connection && Completes(w.peers[i], m)
                then w.trace + [Answered(connection, m.result)] else w.trace)
  }

  function Close(w: World, connection: nat): World {
    w.(peers := seq(|w.peers|, i requires 0 <= i < |w.peers| =>
                 if w.peers[i].id == connection then w.peers[i].(close := true) else w.peers[i]))
  }

  function ClosedEvents(w: World): World
    decreases |w.closing|
  {
    if |w.events| >= EVENTS || w.closing == [] then w
    else ClosedEvents(Emit(w.(closing := w.closing[1..]), SandboxClosed(w.closing[0])))
  }

  function Ids(peers: seq<Peer>): seq<nat> {
    seq(|peers|, i requires 0 <= i < |peers| => peers[i].id)
  }

  function End(w: World): World {
    ClosedEvents(w.(closing := w.closing + Ids(w.peers), peers := []))
  }

  predicate Drained(w: World) {
    w.peers == [] && w.closing == []
  }

  /** One peer of the retain loop; it needs room for a call and a closure. */
  function Visit(w: World, p: Peer, f: Foreign, stopping: bool, env: Env): World {
    if |w.events| + 2 > EVENTS then w.(peers := w.peers + [p])
    else
      var (q, call) := Turn(p, f, stopping, env);
      var called := if call.Some? then Emit(w, SandboxCall(p.id, call.value)) else w;
      if q.dead then Emit(called, SandboxClosed(p.id)) else called.(peers := called.peers + [q])
  }

  function VisitAll(w: World, rest: seq<Peer>, f: Foreign, stopping: bool, env: nat -> Env): World
    decreases |rest|
  {
    if rest == [] then w else VisitAll(Visit(w, rest[0], f, stopping, env(rest[0].id)), rest[1..], f, stopping, env)
  }

  function Tick(w: World, f: Foreign, stopping: bool, env: nat -> Env): World {
    var c := ClosedEvents(w);
    VisitAll(c.(peers := []), c.peers, f, stopping, env)
  }

  datatype Action =
    | DoOpen(nonblocking: bool)
    | DoSend(connection: nat, message: Message)
    | DoClose(connection: nat)
    | DoEnd
    | DoTick(stopping: bool, env: nat -> Env)
    | TakeEvent  // the engine hands an event out
    | OtherEvent // another producer fills a slot

  /** Any interleaving; `open` and the other producers are called with room for an event. */
  function Step(w: World, f: Foreign, a: Action): World {
    match a
    case DoOpen(nonblocking) => if |w.events| < EVENTS then Open(w, nonblocking) else w
    case DoSend(connection, m) => Send(w, connection, m)
    case DoClose(connection) => Close(w, connection)
    case DoEnd => End(w)
    case DoTick(stopping, env) => Tick(w, f, stopping, env)
    case TakeEvent => if w.events == [] then w else w.(events := w.events[1..])
    case OtherEvent => if |w.events| < EVENTS then w.(events := w.events + [Elsewhere]) else w
  }

  function Run(f: Foreign, actions: seq<Action>): World {
    if actions == [] then Initial() else Step(Run(f, actions[..|actions| - 1]), f, actions[|actions| - 1])
  }
}
