/** Scope members talking to the scope process over FIFO streams, with exchanges cancelled
    at any point: which reply is taken for which request, and what `Left` means. */
module ScopeSession {
  import opened Bytes
  import opened ScopeServer
  import ScopeDocker

  /** The client's `Reply`: what an exchange waits for. */
  datatype Expected = ExpectJoined | ExpectStorage | ExpectRegistered | ExpectPending | ExpectAttached | ExpectDetached

  /** `Reply::expected`; `Leave` is not an exchange. */
  function ExpectedReply(q: Request): Option<Expected> {
    match q
    case Join(_) => Some(ExpectJoined)
    case OpenStorage(_) => Some(ExpectStorage)
    case RegisterMember => Some(ExpectRegistered)
    case AttachDocker(_, _, more) => Some(if more then ExpectPending else ExpectAttached)
    case ExtendDocker(_, more) => Some(if more then ExpectPending else ExpectAttached)
    case DetachDocker => Some(ExpectDetached)
    case Leave => None
    case Other => None
  }

  /** `Reply::accepts`. */
  predicate Accepts(x: Expected, r: Reply) {
    match x
    case ExpectJoined => r.Joined?
    case ExpectStorage => r.Storage?
    case ExpectRegistered => r.Registered?
    case ExpectPending => r.DockerPending?
    case ExpectAttached => r.DockerAttached?
    case ExpectDetached => r.DockerDetached?
  }

  predicate Success(r: Reply) {
    !r.Left? && !r.Error?
  }

  /** A request with its number on this connection, and a reply with the number it answers.
      The numbers are not on the wire: they say what a reply really belongs to. */
  datatype Sent = Sent(serial: nat, request: Request)
  datatype Answer = Answer(tag: nat, reply: Reply)

  /** A reply that ended an exchange: the request asked, how often `begin_leave` had been called
      and whether the client was behind by one answer when it asked, what was expected, what came. */
  datatype Take = Take(asked: nat, begun: nat, slipped: bool, expected: Expected, answer: Answer)

  /** `waiting`: inside `exchange`. `leaves`: calls of `begin_leave`; `begun`: those before the last
      request. `slipped`: an exchange took `Left`, so the answer to request `owed` is still to come. */
  datatype Client = Client(pending: Option<Expected>, waiting: bool, asked: nat, begun: nat, next: nat, joined: bool, leaves: nat, left: bool,
                           slipped: bool, owed: nat, takes: seq<Take>)

  /** What was true when `Left` was queued: the member's payloads are gone, its Docker use is
      given back, another member is active, the scope state is dropped. */
  datatype Ack = Ack(cleaned: bool, detached: bool, others: bool, dropped: bool)

  /** One stream. `late`: the Join that failed after `Joined` was queued; `leave`: the Leave served. */
  datatype Link = Link(up: seq<Sent>, down: seq<Answer>, client: Client, ack: Option<Ack>, late: Option<nat>, leave: Option<nat>)

  datatype World = World(server: Server, links: seq<Link>)

  datatype Action =
    | AddMember
    | ServeOne(k: nat, env: Env)
    | Close(k: nat)
    | Lose(j: nat, keep: nat) // a closed channel loses what it had not written
    | SweepClosed
    | AcknowledgeSome(drained: set<nat>)
    | Idle
    | FinishStop(drained: set<nat>)
    | Fail
    | Act(j: nat, step: ClientStep)

  datatype ClientStep = Ask(request: Request) | Cancel | Hear | BeginLeave | FinishHear

  function NewClient(): Client {
    Client(None, false, 0, 0, 0, false, 0, false, false, 0, [])
  }

  function NewLink(): Link {
    Link([], [], NewClient(), None, None, None)
  }

  function Initially(): World {
    World(Initial(), [])
  }

  /** The pending exchange takes a frame as its answer. */
  function Taken(c: Client, a: Answer): Client
    requires c.pending.Some?
  {
    c.(pending := None, waiting := false, slipped := c.slipped || a.reply.Left?, owed := c.asked,
       takes := c.takes + [Take(c.asked, c.begun, c.slipped, c.pending.value, a)])
  }

  /** One step of a client: `exchange` begins, is cancelled or receives its frame;
      `begin_leave`; `finish_leave` receives one frame. */
  function ClientNext(l: Link, step: ClientStep): Link {
    var c := l.client;
    match step
    case Ask(q) =>
      // A connection starts with Join and joins once.
      if c.pending.Some? || ExpectedReply(q).None? || (q.Join? <==> c.next != 0) || (!q.Join? && !c.joined) then l
      else l.(up := l.up + [Sent(c.next, q)],
              client := c.(pending := ExpectedReply(q), waiting := true, asked := c.next, begun := c.leaves, next := c.next + 1))
    case Cancel =>
      l.(client := c.(waiting := false))
    case Hear =>
      if !c.waiting || c.pending.None? || l.down == [] then l
      else l.(down := l.down[1..], client := Taken(c, l.down[0]).(joined := c.joined || l.down[0].reply.Joined?))
    case BeginLeave =>
      if c.waiting || !c.joined then l
      else l.(up := l.up + [Sent(c.next, Leave)], client := c.(next := c.next + 1, leaves := c.leaves + 1))
    case FinishHear =>
      if c.waiting || !c.joined || l.down == [] then l
      else if c.pending.Some? then l.(down := l.down[1..], client := Taken(c, l.down[0]))
      else if l.down[0].reply.Left? then l.(down := l.down[1..], client := c.(left := true))
      else l.(down := l.down[1..], client := c.(slipped := false))
  }

  function Tagged(tag: nat, replies: seq<Reply>): seq<Answer> {
    seq(|replies|, i requires 0 <= i < |replies| => Answer(tag, replies[i]))
  }

  /** The stream after the server handled its first request. */
  function ServedLink(l: Link, o: Outcome): Link
    requires l.up != []
  {
    var q := l.up[0];
    l.(up := l.up[1..], down := l.down + Tagged(q.serial, o.replies),
       late := if q.request.Join? && !o.ok && Joined in o.replies then Some(q.serial) else l.late,
       leave := if q.request.Leave? && o.ok then Some(q.serial) else l.leave)
  }

  function Owed(members: seq<Member>): set<nat> {
    set k | 0 <= k < |members| && OwedLeft(members[k]) :: members[k].id
  }

  /** `Left` queued to everybody it is owed to, with the scope as it is then. */
  function AckLinks(links: seq<Link>, members: seq<Member>, scope: Option<Scope>): seq<Link> {
    seq(|links|, j requires 0 <= j < |links| => if j in Owed(members) then AckLink(links[j], Certificate(members, j, scope)) else links[j])
  }

  function AckLink(l: Link, ack: Ack): Link {
    l.(down := l.down + [Answer(if l.leave.Some? then l.leave.value else 0, Left)], ack := Some(ack))
  }

  function Certificate(members: seq<Member>, j: nat, scope: Option<Scope>): Ack {
    Ack(forall k :: 0 <= k < |members| && members[k].id == j ==> !members[k].registered,
        forall k :: 0 <= k < |members| && members[k].id == j ==> !members[k].docker,
        exists k :: 0 <= k < |members| && members[k].id != j && !members[k].leaving && !members[k].closed,
        scope.None?)
  }

  predicate Formed(w: World) {
    Valid(w.server) && |w.links| == w.server.added
  }

  /** The server's end of a stream is closed. */
  predicate Hung(s: Server, j: nat) {
    s.stopped || forall k :: 0 <= k < |s.members| && s.members[k].id == j ==> s.members[k].closed
  }

  function Step(w: World, a: Action): World
    requires Formed(w)
  {
    var s := w.server;
    if a.Act? then
      if a.j < |w.links| then w.(links := w.links[a.j := ClientNext(w.links[a.j], a.step)]) else w
    else if a.Lose? then
      if a.j < |w.links| && Hung(s, a.j)
      then w.(links := w.links[a.j := w.links[a.j].(down := w.links[a.j].down[..Min(a.keep, |w.links[a.j].down|)])])
      else w
    else if s.stopped then w
    else
      match a
      case AddMember => World(Next(s, Add), w.links + [NewLink()])
      case ServeOne(k, env) =>
        if k >= |s.members| || s.members[k].closed || w.links[s.members[k].id].up == [] then w
        else
          var l := w.links[s.members[k].id];
          // An open channel of such a client has room for an error report, in frames and in bytes
          // (`ReportFits`); one that closes meanwhile is a Close and a Lose after this step.
          var e := env.(reported := true);
          ValidIsCoherent(s, k);
          World(Next(s, Serve(k, l.up[0].request, e)),
                w.links[s.members[k].id := ServedLink(l, Respond(s.scope, s.members[k], l.up[0].request, e))])
      case Close(k) => w.(server := Next(s, Hangup(k)))
      case SweepClosed => w.(server := Next(s, Sweep))
      case AcknowledgeSome(drained) =>
        if SomeActive(s.members)
        then
          var after := Next(s, Acknowledge(drained));
          World(after, AckLinks(w.links, s.members, after.scope))
        else w
      case Idle => w.(server := Next(s, ReportIdle))
      case FinishStop(drained) =>
        var after := Next(s, Stop(drained));
        World(after, AckLinks(w.links, Cleaned(s.members), after.scope))
      case Fail => w.(server := Next(s, Exit))
  }

  // The invariant of one stream ------------------------------------------------------------

  /** The requests answered by the replies in a stream, apart from `Left`. */
  function Tags(down: seq<Answer>): seq<nat> {
    if down == [] then [] else (if down[0].reply.Left? then [] else [down[0].tag]) + Tags(down[1..])
  }

  /** The exchanges among requests not served yet. */
  function Serials(up: seq<Sent>): seq<nat> {
    if up == [] then [] else (if up[0].request.Leave? then [] else [up[0].serial]) + Serials(up[1..])
  }

  function Leaves(up: seq<Sent>): nat {
    if up == [] then 0 else (if up[0].request.Leave? then 1 else 0) + Leaves(up[1..])
  }

  /** The exchanges whose answers a client has still to hear. */
  function Debts(c: Client): seq<nat> {
    (if c.slipped then [c.owed] else []) + (if c.pending.Some? then [c.asked] else [])
  }

  predicate Numbered(l: Link) {
    var c := l.client;
    && (forall i :: 0 <= i < |l.up| ==> l.up[i].serial < c.next && (l.up[i].request.Join? ==> l.up[i].serial == 0))
    && (forall i :: 0 <= i < |l.up| && l.up[i].request.Leave? && c.pending.Some? ==> l.up[i].serial != c.asked)
    && (forall i :: 0 <= i < |Tags(l.down)| ==> Tags(l.down)[i] < c.next)
    && (c.pending.Some? ==> c.asked < c.next) && (c.slipped ==> c.owed < c.next)
    && (c.pending.Some? && c.slipped ==> c.owed != c.asked)
    && (l.leave.Some? ==> l.leave.value < c.next && (c.pending.Some? ==> l.leave.value != c.asked))
    && (c.takes != [] ==> c.next > 0 && (c.pending.Some? ==> c.asked > 0))
    && c.begun <= c.leaves && (c.leaves > 0 ==> c.joined) && (c.joined || l.late.Some? ==> c.next > 0)
  }

  /** A reply that reports success can only be the first in the stream, and is then the one
      the client's pending exchange waits for. */
  predicate Matched(l: Link) {
    && (forall i :: 0 < i < |l.down| ==> !Success(l.down[i].reply))
    && (l.down != [] && Success(l.down[0].reply) ==>
          l.client.pending.Some? && l.down[0].tag == l.client.asked && Accepts(l.client.pending.value, l.down[0].reply))
  }

  /** There is at most one `Left`, not before the client began to leave, and in front of an
      exchange's answer only if the exchange was begun after that. */
  predicate LeftPlaced(l: Link) {
    && |Tags(l.down)| <= |l.down| <= |Tags(l.down)| + 1
    && (l.ack.None? || l.client.slipped ==> |l.down| == |Tags(l.down)|)
    && (l.client.slipped || l.client.left ==> l.ack.Some?)
    && (l.ack.Some? ==> l.client.leaves > 0 && l.leave.Some?)
    && (forall i :: 0 <= i < |l.down| && l.down[i].reply.Left? ==> l.leave.Some? && l.down[i].tag == l.leave.value)
    && (l.client.pending.Some? && l.client.begun == 0 && |l.down| > |Tags(l.down)| ==> !l.down[0].reply.Left?)
  }

  /** The next answer heard is that of the pending exchange exactly if the client is not behind
      and had begun to leave at most once. */
  predicate InStep(l: Link) {
    var c := l.client;
    l.late.None? ==>
      && (c.pending.Some? && Tags(l.down) != [] ==> (Tags(l.down)[0] == c.asked <==> !c.slipped && c.begun <= 1))
      && (c.pending.None? && Tags(l.down) != [] ==> c.slipped || c.leaves >= 2)
      && (c.leaves <= 1 ==> |Tags(l.down)| <= |Debts(c)|)
  }

  /** After a late Join failure only its two replies are left, the error behind `Joined`. */
  predicate LateOk(l: Link) {
    l.late.Some? ==>
      && l.late.value == 0 && l.ack.None?
      && (forall i :: 0 <= i < |l.down| ==> l.down[i].tag == 0)
      && (l.down != [] && l.down[0].reply.Error? && l.client.pending.Some? ==> l.client.asked != 0)
  }

  /** What a taken answer is. A success answers the request asked. `Left` never does, and is taken
      only by an exchange begun after `begin_leave`. An error answers another request exactly if a
      Join has failed late, the client was behind by one answer, or it had begun to leave twice. */
  predicate RightTake(late: Option<nat>, t: Take) {
    && (Success(t.answer.reply) ==> t.answer.tag == t.asked && Accepts(t.expected, t.answer.reply))
    && (t.answer.reply.Left? ==> t.answer.tag != t.asked && t.begun >= 1)
    && (t.answer.reply.Error? ==> (t.answer.tag != t.asked <==> (late.Some? && t.asked != 0) || t.slipped || t.begun >= 2))
  }

  predicate Released(a: Ack) {
    a.cleaned && a.detached && (a.others || a.dropped)
  }

  predicate LinkOk(l: Link) {
    && Numbered(l) && Matched(l) && LeftPlaced(l) && InStep(l) && LateOk(l)
    && (forall i :: 0 <= i < |l.client.takes| ==> RightTake(l.late, l.client.takes[i]))
    && (l.ack.Some? ==> Released(l.ack.value))
  }

  /** While its member has not left, a stream carries at most one exchange: its request, or its reply. */
  predicate Outstanding(l: Link) {
    && (forall i :: 0 <= i < |l.up| && !l.up[i].request.Leave? ==>
          l.client.pending.Some? && l.up[i].serial == l.client.asked && ExpectedReply(l.up[i].request) == l.client.pending && l.down == [])
    && |l.down| <= 1
    && (l.down != [] ==> l.client.pending.Some? && l.down[0].tag == l.client.asked)
  }

  /** The stream of a member that is being served: exactly the client's debts are under way. */
  predicate OpenLink(m: Member, l: Link) {
    && l.late.None? && (m.leaving <==> l.leave.Some?)
    && (l.client.joined ==> m.joined)
    && (forall i :: 0 <= i < |l.down| && l.down[i].reply.Joined? ==> m.joined)
    && l.client.leaves == (if m.leaving then 1 else 0) + Leaves(l.up)
    && Tags(l.down) + Serials(l.up) == Debts(l.client)
    && (forall i :: 0 <= i < |l.up| && !l.up[i].request.Leave? && l.client.pending.Some? && l.up[i].serial == l.client.asked ==>
          l.client.begun == (if m.leaving then 1 else 0) + Leaves(l.up[..i]))
    && (!m.leaving ==> Outstanding(l))
  }

  predicate MemberLink(stopped: bool, m: Member, l: Link) {
    && (l.ack.Some? ==> m.leftSent)
    && (!stopped && !m.closed ==> OpenLink(m, l))
  }

  predicate Linked(s: Server, links: seq<Link>)
    requires |links| == s.added && Ordered(s.members, s.added)
  {
    forall k :: 0 <= k < |s.members| ==> MemberLink(s.stopped, s.members[k], links[s.members[k].id])
  }

  predicate Inv(w: World) {
    && Formed(w)
    && (forall j :: 0 <= j < |w.links| ==> LinkOk(w.links[j]))
    && Linked(w.server, w.links)
  }

  // Lists -----------------------------------------------------------------------------------

  lemma {:induction false} TagsAppend(a: seq<Answer>, b: seq<Answer>)
    ensures Tags(a + b) == Tags(a) + Tags(b)
  {
    if a == [] {
      assert a + b == b;
    } else {
      assert (a + b)[1..] == a[1..] + b;
      TagsAppend(a[1..], b);
    }
  }

  lemma TagsFront(down: seq<Answer>, n: nat)
    requires n <= |down|
    ensures Tags(down[..n]) <= Tags(down)
    ensures |down[..n]| - |Tags(down[..n])| <= |down| - |Tags(down)|
  {
    assert down == down[..n] + down[n..];
    TagsAppend(down[..n], down[n..]);
    TagsBound(down[n..]);
  }

  lemma {:induction false} TagsBound(down: seq<Answer>)
    ensures |Tags(down)| <= |down|
  {
    if down != [] {
      TagsBound(down[1..]);
    }
  }

  lemma {:induction false} SerialsAppend(a: seq<Sent>, x: Sent)
    ensures Serials(a + [x]) == Serials(a) + (if x.request.Leave? then [] else [x.serial])
    ensures Leaves(a + [x]) == Leaves(a) + (if x.request.Leave? then 1 else 0)
  {
    if a == [] {
      assert a + [x] == [x] && [x][1..] == [];
      assert Serials([]) == [];
    } else {
      assert (a + [x])[1..] == a[1..] + [x];
      SerialsAppend(a[1..], x);
    }
  }

  /** An exchange that is the only one listed stands somewhere in the stream. */
  lemma {:induction false} SerialStands(up: seq<Sent>) returns (i: nat)
    requires Serials(up) != []
    ensures i < |up| && !up[i].request.Leave? && up[i].serial == Serials(up)[0] && Leaves(up[..i]) == i
  {
    if !up[0].request.Leave? {
      i := 0;
    } else {
      i := SerialStands(up[1..]);
      assert up[..i + 1][1..] == up[1..][..i];
      i := i + 1;
    }
  }
}
