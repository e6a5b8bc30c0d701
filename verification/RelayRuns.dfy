/** What the relay guarantees in every run. */
module RelayRuns {
  import opened Bytes
  import opened RelaySpec
  import Framing
  import Codec

  // One peer ---------------------------------------------------------------------------

  predicate NoneEmpty(output: seq<seq<byte>>) {
    forall i :: 0 <= i < |output| ==> output[i] != []
  }

  /** The bytes queued and not written. */
  function Unsent(p: Peer): seq<byte>
    requires p.output == [] || p.offset <= |p.output[0]|
  {
    if p.output == [] then [] else p.output[0][p.offset..] + Flatten(p.output[1..])
  }

  predicate OutputOk(p: Peer) {
    && NoneEmpty(p.output)
    && (if p.output == [] then p.offset == 0 else p.offset < |p.output[0]|)
    && p.queued == |Unsent(p)| <= QUEUE
    && p.written + Unsent(p) == Flatten(p.frames)
  }

  predicate PeerOk(p: Peer) {
    && OutputOk(p)
    && |p.input| <= INPUT
    && (p.calls <= 2 || p.dead)
    && (p.waiting.Some? && !p.waiting.value.initialize ==> p.initialized)
  }

  lemma {:induction false} FlattenSnoc(a: seq<seq<byte>>, x: seq<byte>)
    ensures Flatten(a + [x]) == Flatten(a) + x
  {
    FlattenAppend(a, [x]);
    assert [x][1..] == [];
    assert Flatten([x]) == x + Flatten([]);
    assert x + [] == x;
  }

  /** A queued frame goes behind everything unsent, or ends the connection. */
  lemma QueueKeeps(p: Peer, body: seq<byte>)
    requires OutputOk(p)
    ensures OutputOk(Queue(p, body))
    ensures var q := Queue(p, body); q == p.(queued := q.queued, output := q.output, frames := q.frames, dead := q.dead) && (p.dead ==> q.dead)
  {
    hide Flatten;
    match Codec.Encode(body) {
      case None =>
      case Some(data) =>
        EncodedIsNotEmpty(body);
        if p.queued + |data| <= QUEUE {
          FlattenSnoc(p.frames, data);
          FlattenNone();
          if p.output == [] {
            assert (p.output + [data])[1..] == [];
            assert data[0..] == data;
          } else {
            assert (p.output + [data])[1..] == p.output[1..] + [data];
            FlattenSnoc(p.output[1..], data);
            Assoc(p.output[0][p.offset..], Flatten(p.output[1..]), data);
          }
          assert Unsent(Queue(p, body)) == Unsent(p) + data;
          Assoc(p.written, Unsent(p), data);
        }
    }
  }

  lemma FlattenNone()
    ensures Flatten<byte>([]) == []
  {
  }

  lemma EncodedIsNotEmpty(body: seq<byte>)
    ensures Codec.Encode(body).Some? ==> Codec.Encode(body).value != []
  {
  }

  lemma AdvanceKeeps(p: Peer, k: nat)
    requires OutputOk(p) && p.output != [] && 0 < k <= |p.output[0]| - p.offset
    ensures OutputOk(Advance(p, k))
  {
    hide Flatten, Unsent;
    var q := Advance(p, k);
    UnsentAfter(p, k);
    Assoc(p.written, p.output[0][p.offset..p.offset + k], Unsent(q));
  }

  lemma UnsentAfter(p: Peer, k: nat)
    requires NoneEmpty(p.output) && p.output != [] && 0 < k <= |p.output[0]| - p.offset
    ensures var q := Advance(p, k);
            && (if q.output == [] then q.offset == 0 else q.offset < |q.output[0]|)
            && Unsent(p) == p.output[0][p.offset..p.offset + k] + Unsent(q)
  {
    hide Flatten;
    var front, q := p.output[0], Advance(p, k);
    var part, left := front[p.offset..p.offset + k], front[p.offset + k..];
    assert front[p.offset..] == part + left;
    if p.offset + k == |front| {
      assert left == [];
      FlattenNone();
      if q.output != [] {
        FlattenFirst(q.output);
        assert q.output[0][0..] == q.output[0];
      }
    } else {
      Assoc(part, left, Flatten(p.output[1..]));
    }
  }

  lemma FlattenFirst(a: seq<seq<byte>>)
    requires a != []
    ensures Flatten(a) == a[0] + Flatten(a[1..])
  {
  }

  lemma FlushKeeps(p: Peer, w: Write)
    requires PeerOk(p)
    ensures PeerOk(Flush(p, w)) && (p.dead ==> Flush(p, w) == p)
    ensures var q := Flush(p, w); q == p.(output := q.output, offset := q.offset, queued := q.queued, written := q.written, dead := q.dead)
  {
    hide OutputOk, Flatten;
    if !p.dead {
      SameOutput(p, p.(dead := true));
      if p.output != [] && w.Wrote? && w.n > 0 && p.offset < |p.output[0]| {
        AdvanceKeeps(p, Min(w.n, |p.output[0]| - p.offset));
        var q := Advance(p, Min(w.n, |p.output[0]| - p.offset));
        SameOutput(q, q.(dead := true));
      }
    }
  }

  /** A peer's turn: what it may change, and when it may yield a call. */
  predicate TurnOk(p: Peer, q: Peer, call: Option<Call>) {
    && PeerOk(q) && q.id == p.id && q.initialized == p.initialized && q.calls >= p.calls
    && (call.None? ==> q.waiting == p.waiting)
    && (call.Some? ==> p.waiting.None? && !p.dead && q.calls == p.calls + 1 <= 2 && call.value.id.Some?
                       && q.waiting == Some(Waiting(call.value.id.value, call.value.name == "initialize"))
                       && (call.value.name == "initialize" || p.initialized))
  }

  lemma RefuseKeeps(p: Peer, fault: seq<byte>)
    requires PeerOk(p)
    ensures PeerOk(Refuse(p, fault)) && TurnOk(p, Refuse(p, fault), None) && Refuse(p, fault).calls == p.calls
  {
    hide OutputOk, Queue;
    QueueKeeps(p, fault);
    assert OutputOk(Refuse(p, fault)) by {
      var q := Queue(p, fault);
      SameOutput(q, q.(close := true));
    }
  }

  lemma SameOutput(p: Peer, q: Peer)
    requires OutputOk(p) && q.output == p.output && q.offset == p.offset && q.queued == p.queued && q.written == p.written && q.frames == p.frames
    ensures OutputOk(q)
  {
  }

  lemma JudgeKeeps(p: Peer, f: Foreign, stopping: bool, env: Env, body: seq<byte>)
    requires PeerOk(p) && p.waiting.None? && !p.dead
    ensures var (q, call) := Judge(p, f, stopping, env, body);
            && PeerOk(q) && q.id == p.id && q.initialized == p.initialized && q.calls == p.calls
            && (call.None? ==> q.waiting == p.waiting)
            && (call.Some? ==> call.value.id.Some? && q.waiting == Some(Waiting(call.value.id.value, call.value.name == "initialize"))
                               && (call.value.name == "initialize" || p.initialized))
  {
    hide OutputOk, Refuse, Messaging, Available, OneShot, Limit;
    RefuseKeeps(p, env.fault);
    var q := Judge(p, f, stopping, env, body).0;
    if q != Refuse(p, env.fault) {
      SameOutput(p, q);
    }
  }

  lemma DecodeKeeps(p: Peer, f: Foreign, stopping: bool, env: Env)
    requires PeerOk(p) && !p.dead
    ensures var (q, call) := Decode(p, f, stopping, env); TurnOk(p, q, call)
  {
    hide OutputOk, Refuse, Judge, Framing.Push;
    RefuseKeeps(p, env.fault);
    ConsumedInRange(p.decoder, p.input);
    if p.waiting.None? && !env.expired {
      match Framing.Push(p.decoder, p.input) {
        case Failed(_) =>
        case Pending(d) => SameOutput(p, p.(decoder := d, input := []));
        case Whole(d, n, body) =>
          var q := p.(input := p.input[n..], calls := p.calls + 1);
          if q.calls > 2 {
            SameOutput(p, q.(decoder := d, dead := true));
          } else {
            SameOutput(p, q.(decoder := Decoder()));
            JudgeKeeps(q.(decoder := Decoder()), f, stopping, env, body);
          }
      }
    }
  }

  lemma TurnKeeps(p: Peer, f: Foreign, stopping: bool, env: Env)
    requires PeerOk(p)
    ensures var (q, call) := Turn(p, f, stopping, env); TurnOk(p, q, call)
  {
    hide OutputOk, Decode, Flush;
    FlushKeeps(p, env.first);
    var a := Flush(p, env.first);
    if !a.close && !a.dead {
      match env.read {
        case ReadEnded => SameOutput(a, a.(dead := true));
        case ReadBlocked => DecodeKeeps(a, f, stopping, env);
        case Data(bytes) =>
          var chunk := bytes[..Min(|bytes|, CHUNK)];
          SameOutput(a, a.(dead := true));
          if |a.input| + |chunk| <= INPUT {
            SameOutput(a, a.(input := a.input + chunk));
            DecodeKeeps(a.(input := a.input + chunk), f, stopping, env);
          }
      }
    }
    var (q, call) := ReadPeer(a, f, stopping, env);
    FlushKeeps(q, env.second);
  }

  lemma SendPeerKeeps(p: Peer, m: Message)
    requires PeerOk(p)
    ensures var q := SendPeer(p, m);
            && PeerOk(q) && q.id == p.id && q.calls == p.calls
            && q.waiting == (if Completes(p, m) then None else p.waiting)
            && q.initialized == (p.initialized || (Completes(p, m) && p.waiting.value.initialize && m.result))
  {
    hide OutputOk, Queue;
    var q :=
      if !Completes(p, m) then p
      else if p.waiting.value.initialize && m.result then p.(initialized := true, decoder := Decoder(), waiting := None)
      else p.(close := true, waiting := None);
    SameOutput(p, q);
    QueueKeeps(q, m.body);
  }

  // The trace of one connection -----------------------------------------------------------

  /** Where a connection's trace stands: how many calls, the unanswered one (is it an
      `initialize`?), and whether an `initialize` succeeded. */
  datatype Phase = Absent | Live(calls: nat, unanswered: Option<bool>, ready: bool) | Ended | Wrong

  /** Opened; then at most two calls, one at a time, only `initialize` before one succeeded;
      then at most one closure; then nothing. */
  function After(c: nat, phase: Phase, mark: Mark): Phase {
    match mark
    case Emitted(SandboxOpened(d)) =>
      if d != c then phase else if phase.Absent? then Live(0, None, false) else Wrong
    case Emitted(SandboxCall(d, call)) =>
      if d != c then phase
      else if !phase.Live? || phase.unanswered.Some? || phase.calls >= 2 || (call.name != "initialize" && !phase.ready) then Wrong
      else phase.(calls := phase.calls + 1, unanswered := Some(call.name == "initialize"))
    case Answered(d, success) =>
      if d != c then phase
      else if !phase.Live? || phase.unanswered.None? then Wrong
      else phase.(unanswered := None, ready := phase.ready || (phase.unanswered.value && success))
    case Emitted(SandboxClosed(d)) =>
      if d != c then phase else if phase.Live? then Ended else Wrong
    case Emitted(Elsewhere) => phase
  }

  function Track(c: nat, trace: seq<Mark>): Phase {
    if trace == [] then Absent else After(c, Track(c, trace[..|trace| - 1]), trace[|trace| - 1])
  }

  lemma TrackAppend(c: nat, trace: seq<Mark>, mark: Mark)
    ensures Track(c, trace + [mark]) == After(c, Track(c, trace), mark)
  {
    assert (trace + [mark])[..|trace + [mark]| - 1] == trace;
  }

  function ConnectionOf(mark: Mark): nat {
    match mark
    case Emitted(SandboxOpened(d)) => d
    case Emitted(SandboxCall(d, _)) => d
    case Emitted(SandboxClosed(d)) => d
    case Emitted(Elsewhere) => 0
    case Answered(d, _) => d
  }

  // The invariant of the relay -------------------------------------------------------------

  /** A peer and its trace agree. */
  predicate InPhase(p: Peer, phase: Phase) {
    && phase.Live? && phase.calls <= p.calls && phase.calls <= 2
    && phase.ready == p.initialized
    && phase.unanswered == (if p.waiting.Some? then Some(p.waiting.value.initialize) else None)
  }

  /** Connections are numbered from 1 in the order they opened; `peers` here also has those
      a running tick has not visited yet. */
  predicate Known(w: World, peers: seq<Peer>, c: nat) {
    (exists i :: 0 <= i < |peers| && peers[i].id == c) || c in w.closing
  }

  predicate Identified(w: World, peers: seq<Peer>) {
    && (forall i :: 0 <= i < |peers| ==> 0 < peers[i].id <= w.next)
    && (forall i, j :: 0 <= i < j < |peers| ==> peers[i].id < peers[j].id)
    && (forall i :: 0 <= i < |w.closing| ==> 0 < w.closing[i] <= w.next)
    && (forall i, j :: 0 <= i < j < |w.closing| ==> w.closing[i] != w.closing[j])
    && (forall i :: 0 <= i < |peers| ==> peers[i].id !in w.closing)
  }

  ghost predicate Phased(w: World, peers: seq<Peer>) {
    && (forall i :: 0 <= i < |peers| ==> InPhase(peers[i], Track(peers[i].id, w.trace)))
    && (forall c :: c in w.closing ==> Track(c, w.trace).Live?)
    && (forall c: nat :: c == 0 || c > w.next ==> Track(c, w.trace).Absent?)
    && (forall c: nat :: 0 < c <= w.next && !Known(w, peers, c) ==> Track(c, w.trace).Ended?)
  }

  ghost predicate Inv(w: World, peers: seq<Peer>) {
    && |w.events| <= EVENTS && |peers| <= CONNECTIONS
    && (forall i :: 0 <= i < |peers| ==> PeerOk(peers[i]))
    && Identified(w, peers)
    && Phased(w, peers)
  }

  /** A mark of one connection leaves the others where they were. */
  lemma OthersStay(trace: seq<Mark>, mark: Mark)
    ensures forall c: nat :: c != ConnectionOf(mark) ==> Track(c, trace + [mark]) == Track(c, trace)
  {
    forall c: nat | c != ConnectionOf(mark) ensures Track(c, trace + [mark]) == Track(c, trace) {
      TrackAppend(c, trace, mark);
    }
  }

  lemma OpenKeeps(w: World, nonblocking: bool)
    requires Inv(w, w.peers) && |w.events| < EVENTS
    ensures Inv(Open(w, nonblocking), Open(w, nonblocking).peers)
  {
    hide Track, After, PeerOk;
    if |w.peers| < CONNECTIONS && nonblocking {
      var id := w.next + 1;
      var after := Open(w, nonblocking);
      var mark := Emitted(SandboxOpened(id));
      OthersStay(w.trace, mark);
      TrackAppend(id, w.trace, mark);
      assert Track(id, after.trace) == Live(0, None, false) by { assert After(id, Absent, mark) == Live(0, None, false) by { AfterOpened(id); } }
      NewPeerOk(id);
      forall c: nat | 0 < c <= after.next && !Known(after, after.peers, c) ensures Track(c, after.trace).Ended? {
        assert after.peers[|w.peers|].id == id;
        forall i | 0 <= i < |w.peers| ensures w.peers[i].id != c {
          assert after.peers[i].id == w.peers[i].id;
        }
      }
    }
  }

  lemma AfterOpened(c: nat)
    ensures After(c, Absent, Emitted(SandboxOpened(c))) == Live(0, None, false)
  {
  }

  lemma NewPeerOk(id: nat)
    ensures PeerOk(NewPeer(id))
  {
  }

  /** Nothing was emitted, no peer came or went: only peers changed, each within its phase. */
  lemma PeersChange(w: World, peers: seq<Peer>, after: World, changed: seq<Peer>)
    requires Inv(w, peers) && |changed| == |peers|
    requires after.next == w.next && after.closing == w.closing && |after.events| <= EVENTS
    requires forall i :: 0 <= i < |peers| ==> changed[i].id == peers[i].id && PeerOk(changed[i]) && InPhase(changed[i], Track(peers[i].id, after.trace))
    requires forall c: nat :: (c > w.next || c == 0 || (forall i :: 0 <= i < |peers| ==> peers[i].id != c)) ==> Track(c, after.trace) == Track(c, w.trace)
    ensures Inv(after, changed)
  {
    hide Track, PeerOk, InPhase;
    forall c: nat | 0 < c <= after.next && !Known(after, changed, c) ensures Track(c, after.trace).Ended? {
      forall i | 0 <= i < |peers| ensures peers[i].id != c {
        assert changed[i].id == peers[i].id;
      }
    }
  }

  lemma CloseKeeps(w: World, connection: nat)
    requires Inv(w, w.peers)
    ensures Inv(Close(w, connection), Close(w, connection).peers)
  {
    hide Track, OutputOk;
    var after := Close(w, connection);
    forall i | 0 <= i < |w.peers| ensures PeerOk(after.peers[i]) {
      SameOutput(w.peers[i], after.peers[i]);
    }
    PeersChange(w, w.peers, after, after.peers);
  }

  lemma SendKeeps(w: World, connection: nat, m: Message)
    requires Inv(w, w.peers)
    ensures Inv(Send(w, connection, m), Send(w, connection, m).peers)
  {
    hide Track, PeerOk, SendPeer, After;
    var after := Send(w, connection, m);
    var mark := Answered(connection, m.result);
    OthersStay(w.trace, mark);
    forall i | 0 <= i < |w.peers|
      ensures after.peers[i].id == w.peers[i].id && PeerOk(after.peers[i]) && InPhase(after.peers[i], Track(w.peers[i].id, after.trace))
    {
      SendPeerKeeps(w.peers[i], m);
      if w.peers[i].id == connection {
        TrackAppend(connection, w.trace, mark);
        if Completes(w.peers[i], m) {
          AfterAnswered(connection, Track(connection, w.trace), m.result);
        }
        if after.trace != w.trace {
          var k :| 0 <= k < |w.peers| && w.peers[k].id == connection && Completes(w.peers[k], m);
          assert k == i;
        }
      }
    }
    PeersChange(w, w.peers, after, after.peers);
  }

  lemma AfterAnswered(c: nat, phase: Phase, success: bool)
    requires phase.Live? && phase.unanswered.Some?
    ensures After(c, phase, Answered(c, success)) == phase.(unanswered := None, ready := phase.ready || (phase.unanswered.value && success))
  {
  }

  // Closing --------------------------------------------------------------------------------

  lemma AfterClosed(c: nat, phase: Phase)
    requires phase.Live?
    ensures After(c, phase, Emitted(SandboxClosed(c))) == Ended
  {
  }

  lemma ClosedOne(w: World, peers: seq<Peer>)
    requires Inv(w, peers) && |w.events| < EVENTS && w.closing != []
    ensures Inv(Emit(w.(closing := w.closing[1..]), SandboxClosed(w.closing[0])), peers)
  {
    hide Track, After, PeerOk, InPhase;
    var c0 := w.closing[0];
    var mark := Emitted(SandboxClosed(c0));
    var after := Emit(w.(closing := w.closing[1..]), SandboxClosed(c0));
    OthersStay(w.trace, mark);
    TrackAppend(c0, w.trace, mark);
    assert c0 in w.closing;
    AfterClosed(c0, Track(c0, w.trace));
    assert c0 !in after.closing;
    assert w.closing == [c0] + after.closing;
    forall c: nat | 0 < c <= after.next && !Known(after, peers, c) ensures Track(c, after.trace).Ended? {
      if c != c0 {
        assert !Known(w, peers, c);
      }
    }
  }

  /** Emitting closures keeps everything and never passes the capacity. */
  lemma {:induction false} ClosedEventsKeeps(w: World, peers: seq<Peer>)
    requires Inv(w, peers)
    ensures Inv(ClosedEvents(w), peers) && ClosedEvents(w).peers == w.peers
    decreases |w.closing|
  {
    hide Inv;
    if |w.events| < EVENTS && w.closing != [] {
      ClosedOne(w, peers);
      ClosedEventsKeeps(Emit(w.(closing := w.closing[1..]), SandboxClosed(w.closing[0])), peers);
    }
  }

  lemma EndKeeps(w: World)
    requires Inv(w, w.peers)
    ensures Inv(End(w), []) && End(w).peers == []
  {
    hide Track, PeerOk;
    var ids := Ids(w.peers);
    var after := w.(closing := w.closing + ids, peers := []);
    forall c | c in after.closing ensures Track(c, after.trace).Live? {
      if c !in w.closing {
        var i :| 0 <= i < |ids| && ids[i] == c;
        assert InPhase(w.peers[i], Track(w.peers[i].id, w.trace));
      }
    }
    forall c: nat | 0 < c <= after.next && !Known(after, [], c) ensures Track(c, after.trace).Ended? {
      forall i | 0 <= i < |w.peers| ensures w.peers[i].id != c {
        assert ids[i] in after.closing;
      }
    }
    forall i, j | 0 <= i < j < |after.closing| ensures after.closing[i] != after.closing[j] {
      if i < |w.closing| <= j {
        assert w.peers[j - |w.closing|].id !in w.closing;
      }
    }
    ClosedEventsKeeps(after, []);
  }

  // A tick -----------------------------------------------------------------------------------

  lemma AfterCall(c: nat, phase: Phase, call: Call)
    requires phase.Live? && phase.unanswered.None? && phase.calls < 2 && (call.name == "initialize" || phase.ready)
    ensures After(c, phase, Emitted(SandboxCall(c, call))) == phase.(calls := phase.calls + 1, unanswered := Some(call.name == "initialize"))
  {
  }

  /** One peer's turn as the relay sees it: its call is emitted and its phase follows. */
  lemma CallKeeps(w: World, before: seq<Peer>, p: Peer, after: seq<Peer>, q: Peer, call: Option<Call>)
    requires Inv(w, before + [p] + after) && |w.events| < EVENTS
    requires TurnOk(p, q, call)
    ensures Inv(if call.Some? then Emit(w, SandboxCall(p.id, call.value)) else w, before + [q] + after)
  {
    hide Track, After, PeerOk;
    var peers := before + [p] + after;
    var changed := before + [q] + after;
    var k := |before|;
    assert peers[k] == p && changed[k] == q;
    assert InPhase(p, Track(p.id, w.trace));
    var next := if call.Some? then Emit(w, SandboxCall(p.id, call.value)) else w;
    if call.Some? {
      var mark := Emitted(SandboxCall(p.id, call.value));
      OthersStay(w.trace, mark);
      TrackAppend(p.id, w.trace, mark);
      AfterCall(p.id, Track(p.id, w.trace), call.value);
    }
    forall i | 0 <= i < |peers|
      ensures changed[i].id == peers[i].id && PeerOk(changed[i]) && InPhase(changed[i], Track(peers[i].id, next.trace))
    {
      if i != k {
        assert changed[i] == peers[i];
        assert peers[i].id != p.id by { if i < k { assert peers[i].id < peers[k].id; } else { assert peers[k].id < peers[i].id; } }
      }
    }
    forall c: nat | c > w.next || c == 0 || (forall i :: 0 <= i < |peers| ==> peers[i].id != c)
      ensures Track(c, next.trace) == Track(c, w.trace)
    {
      assert c != p.id by { assert 0 < peers[k].id <= w.next; }
    }
    PeersChange(w, peers, next, changed);
  }

  /** A dead peer goes, with its one closure. */
  lemma DeadKeeps(w: World, before: seq<Peer>, q: Peer, after: seq<Peer>)
    requires Inv(w, before + [q] + after) && |w.events| < EVENTS
    ensures Inv(Emit(w, SandboxClosed(q.id)), before + after)
  {
    hide Track, After, PeerOk, InPhase;
    var peers := before + [q] + after;
    var left := before + after;
    var k := |before|;
    assert peers[k] == q;
    var mark := Emitted(SandboxClosed(q.id));
    var next := Emit(w, SandboxClosed(q.id));
    OthersStay(w.trace, mark);
    TrackAppend(q.id, w.trace, mark);
    assert InPhase(q, Track(q.id, w.trace));
    assert Track(q.id, w.trace).Live? by { LiveInPhase(q, Track(q.id, w.trace)); }
    AfterClosed(q.id, Track(q.id, w.trace));
    assert forall i :: 0 <= i < |left| ==> left[i] == (if i < k then peers[i] else peers[i + 1]);
    forall i | 0 <= i < |left| ensures left[i].id != q.id {
      if i < k { assert peers[i].id < peers[k].id; } else { assert peers[k].id < peers[i + 1].id; }
    }
    assert q.id !in w.closing && 0 < q.id <= w.next by { assert peers[k].id !in w.closing && 0 < peers[k].id <= w.next; }
    RemovedIdentified(w, before, q, after);
    forall i | 0 <= i < |left| ensures PeerOk(left[i]) && InPhase(left[i], Track(left[i].id, next.trace)) {
      if i < k { assert InPhase(peers[i], Track(peers[i].id, w.trace)); } else { assert InPhase(peers[i + 1], Track(peers[i + 1].id, w.trace)); }
    }
    forall c: nat | 0 < c <= next.next && !Known(next, left, c) ensures Track(c, next.trace).Ended? {
      if c != q.id {
        forall i | 0 <= i < |peers| ensures peers[i].id != c {
          if i < k { assert left[i].id != c; } else if i > k { assert left[i - 1].id != c; }
        }
      }
    }
  }

  lemma RemovedIdentified(w: World, before: seq<Peer>, q: Peer, after: seq<Peer>)
    requires Identified(w, before + [q] + after)
    ensures Identified(w, before + after)
  {
    var peers, left, k := before + [q] + after, before + after, |before|;
    forall i | 0 <= i < |left| ensures 0 < left[i].id <= w.next && left[i].id !in w.closing {
      assert left[i] == peers[if i < k then i else i + 1];
    }
    forall i, j | 0 <= i < j < |left| ensures left[i].id < left[j].id {
      assert left[i] == peers[if i < k then i else i + 1];
      assert left[j] == peers[if j < k then j else j + 1];
    }
  }

  lemma LiveInPhase(p: Peer, phase: Phase)
    requires InPhase(p, phase)
    ensures phase.Live?
  {
  }

  lemma VisitKeeps(w: World, p: Peer, rest: seq<Peer>, f: Foreign, stopping: bool, env: Env)
    requires Inv(w, w.peers + [p] + rest)
    ensures var after := Visit(w, p, f, stopping, env); Inv(after, after.peers + rest)
  {
    hide Turn, TurnOk;
    if |w.events| + 2 <= EVENTS {
      PeerIsOk(w, w.peers, p, rest);
      TurnKeeps(p, f, stopping, env);
      var (q, call) := Turn(p, f, stopping, env);
      CallKeeps(w, w.peers, p, rest, q, call);
      assert q.id == p.id by { TurnSame(p, q, call); }
      var called := if call.Some? then Emit(w, SandboxCall(p.id, call.value)) else w;
      if q.dead {
        DeadKeeps(called, w.peers, q, rest);
      } else {
        OtherPeers(called, called.(peers := called.peers + [q]), w.peers + [q] + rest);
      }
    } else {
      OtherPeers(w, w.(peers := w.peers + [p]), w.peers + [p] + rest);
    }
  }

  lemma TurnSame(p: Peer, q: Peer, call: Option<Call>)
    requires TurnOk(p, q, call)
    ensures q.id == p.id
  {
  }

  lemma PeerIsOk(w: World, before: seq<Peer>, p: Peer, rest: seq<Peer>)
    requires Inv(w, before + [p] + rest)
    ensures PeerOk(p)
  {
    assert (before + [p] + rest)[|before|] == p;
  }

  /** The invariant does not look at the world's own list of peers. */
  lemma OtherPeers(w: World, v: World, peers: seq<Peer>)
    requires Inv(w, peers) && v == w.(peers := v.peers)
    ensures Inv(v, peers)
  {
    hide Track, PeerOk, InPhase;
    assert forall c :: Known(v, peers, c) == Known(w, peers, c);
  }

  lemma {:induction false} VisitAllKeeps(w: World, rest: seq<Peer>, f: Foreign, stopping: bool, env: nat -> Env)
    requires Inv(w, w.peers + rest)
    ensures var after := VisitAll(w, rest, f, stopping, env); Inv(after, after.peers)
    decreases |rest|
  {
    hide Inv, Visit;
    if rest == [] {
      assert w.peers + rest == w.peers;
    } else {
      assert w.peers + rest == w.peers + [rest[0]] + rest[1..];
      VisitKeeps(w, rest[0], rest[1..], f, stopping, env(rest[0].id));
      VisitAllKeeps(Visit(w, rest[0], f, stopping, env(rest[0].id)), rest[1..], f, stopping, env);
    }
  }

  lemma TickKeeps(w: World, f: Foreign, stopping: bool, env: nat -> Env)
    requires Inv(w, w.peers)
    ensures var after := Tick(w, f, stopping, env); Inv(after, after.peers)
  {
    hide Inv, VisitAll, ClosedEvents;
    ClosedEventsKeeps(w, w.peers);
    var c := ClosedEvents(w);
    OtherPeers(c, c.(peers := []), c.peers);
    assert [] + c.peers == c.peers;
    VisitAllKeeps(c.(peers := []), c.peers, f, stopping, env);
  }

  lemma StepKeeps(w: World, f: Foreign, a: Action)
    requires Inv(w, w.peers)
    ensures Inv(Step(w, f, a), Step(w, f, a).peers)
  {
    hide Track, PeerOk, InPhase, Tick, End, Open, Send, Close;
    match a {
      case DoOpen(nonblocking) => if |w.events| < EVENTS { OpenKeeps(w, nonblocking); }
      case DoSend(connection, m) => SendKeeps(w, connection, m);
      case DoClose(connection) => CloseKeeps(w, connection);
      case DoEnd => EndKeeps(w);
      case DoTick(stopping, env) => TickKeeps(w, f, stopping, env);
      case TakeEvent => EventsChange(w, Step(w, f, a));
      case OtherEvent => EventsChange(w, Step(w, f, a));
    }
  }

  lemma EventsChange(w: World, v: World)
    requires Inv(w, w.peers) && v == w.(events := v.events) && |v.events| <= EVENTS
    ensures Inv(v, v.peers)
  {
    hide Track, PeerOk, InPhase;
    assert forall c :: Known(v, v.peers, c) == Known(w, w.peers, c);
  }

  lemma {:induction false} RunKeeps(f: Foreign, actions: seq<Action>)
    ensures Inv(Run(f, actions), Run(f, actions).peers)
  {
    hide Inv, Step;
    if actions == [] {
      InitialOk();
    } else {
      RunKeeps(f, actions[..|actions| - 1]);
      StepKeeps(Run(f, actions[..|actions| - 1]), f, actions[|actions| - 1]);
    }
  }

  lemma InitialOk()
    ensures Inv(Initial(), Initial().peers)
  {
  }

  // The results ------------------------------------------------------------------------------

  /** In every run, every connection's trace is: opened once, at most two calls with at most
      one unanswered, only `initialize` before one succeeded, closed at most once, then
      nothing; and the event queue stays within its capacity. */
  lemma TracesAreWellFormed(f: Foreign, actions: seq<Action>, c: nat)
    ensures var w := Run(f, actions);
            && |w.events| <= EVENTS
            && Track(c, w.trace) != Wrong
            && (Track(c, w.trace).Live? ==> Track(c, w.trace).calls <= 2)
            && (Track(c, w.trace).Absent? <==> c == 0 || c > w.next)
  {
    hide Run, Track, PeerOk;
    RunKeeps(f, actions);
    var w := Run(f, actions);
    if 0 < c <= w.next && Known(w, w.peers, c) {
      if c in w.closing {
        LiveCallsBound(c, w.trace);
      } else {
        var i :| 0 <= i < |w.peers| && w.peers[i].id == c;
        assert InPhase(w.peers[i], Track(w.peers[i].id, w.trace));
      }
    }
  }

  lemma {:induction false} LiveCallsBound(c: nat, trace: seq<Mark>)
    ensures Track(c, trace).Live? ==> Track(c, trace).calls <= 2
  {
    if trace != [] {
      LiveCallsBound(c, trace[..|trace| - 1]);
    }
  }

  /** When the relay is drained, every connection it opened has had its closure. */
  lemma DrainedHasClosedAll(f: Foreign, actions: seq<Action>, c: nat)
    requires Drained(Run(f, actions)) && 0 < c <= Run(f, actions).next
    ensures Track(c, Run(f, actions).trace).Ended?
  {
    hide Run, Track, PeerOk, InPhase;
    RunKeeps(f, actions);
    assert !Known(Run(f, actions), [], c);
  }

  /** In every run, a peer's `queued` is the number of its unsent bytes, within the budget,
      and what was written is the front part of what was queued. */
  lemma QueuedIsUnsent(f: Foreign, actions: seq<Action>, i: nat)
    requires i < |Run(f, actions).peers|
    ensures var p := Run(f, actions).peers[i];
            && 0 <= p.queued <= QUEUE
            && p.written <= Flatten(p.frames)
            && p.queued == |Flatten(p.frames)| - |p.written|
            && |p.input| <= INPUT
            && |Run(f, actions).peers| <= CONNECTIONS
  {
    hide Run, Track, InPhase, Flatten;
    RunKeeps(f, actions);
    assert PeerOk(Run(f, actions).peers[i]);
  }

  // Composition: how an operation extends the event queue it is lent -----------------------

  function EmittedOf(trace: seq<Mark>): seq<Event> {
    if trace == [] then []
    else
      var last := trace[|trace| - 1];
      EmittedOf(trace[..|trace| - 1]) + (if last.Emitted? then [last.event] else [])
  }

  /** Events are only added, and what is added is what the trace records as emitted. */
  predicate Grows(w: World, after: World) {
    && |w.events| <= |after.events| && after.events[..|w.events|] == w.events
    && EmittedOf(after.trace) == EmittedOf(w.trace) + after.events[|w.events|..]
  }

  lemma GrowsNot(w: World, after: World)
    requires after.events == w.events && after.trace == w.trace
    ensures Grows(w, after)
  {
    assert EmittedOf(w.trace) + [] == EmittedOf(w.trace);
  }

  lemma GrowsOn(a: World, b: World, c: World)
    requires Grows(a, b) && Grows(b, c)
    ensures Grows(a, c)
  {
    var x, y := b.events[|a.events|..], c.events[|b.events|..];
    assert c.events[|a.events|..|b.events|] == x by {
      assert c.events[|a.events|..|b.events|] == c.events[..|b.events|][|a.events|..];
    }
    assert c.events[|a.events|..] == x + y;
    Assoc(EmittedOf(a.trace), x, y);
  }

  lemma EmitGrows(w: World, e: Event)
    ensures Grows(w, Emit(w, e))
  {
    var after := Emit(w, e);
    assert after.trace[..|after.trace| - 1] == w.trace;
    assert after.events[|w.events|..] == [e];
  }

  lemma OpenGrows(w: World, nonblocking: bool)
    requires |w.events| < EVENTS
    ensures Grows(w, Open(w, nonblocking))
  {
    hide EmittedOf;
    GrowsNot(w, w);
    if |w.peers| < CONNECTIONS && nonblocking {
      var v := w.(next := w.next + 1, peers := w.peers + [NewPeer(w.next + 1)]);
      GrowsNot(w, v);
      EmitGrows(v, SandboxOpened(w.next + 1));
      GrowsOn(w, v, Emit(v, SandboxOpened(w.next + 1)));
    }
  }

  lemma {:induction false} ClosedEventsGrows(w: World)
    ensures Grows(w, ClosedEvents(w)) && (w.closing == [] ==> ClosedEvents(w) == w)
    decreases |w.closing|
  {
    hide EmittedOf, Grows;
    GrowsNot(w, w);
    if |w.events| < EVENTS && w.closing != [] {
      var v := w.(closing := w.closing[1..]);
      GrowsNot(w, v);
      EmitGrows(v, SandboxClosed(w.closing[0]));
      GrowsOn(w, v, Emit(v, SandboxClosed(w.closing[0])));
      ClosedEventsGrows(Emit(v, SandboxClosed(w.closing[0])));
      GrowsOn(w, Emit(v, SandboxClosed(w.closing[0])), ClosedEvents(w));
    }
  }

  lemma EndGrows(w: World)
    ensures Grows(w, End(w)) && End(w).peers == [] && (Drained(w) ==> End(w) == w)
  {
    hide EmittedOf, Grows, ClosedEvents;
    var v := w.(closing := w.closing + Ids(w.peers), peers := []);
    GrowsNot(w, v);
    ClosedEventsGrows(v);
    GrowsOn(w, v, ClosedEvents(v));
    ClosedEventsPeers(v);
    if Drained(w) {
      assert v == w;
    }
  }

  lemma {:induction false} ClosedEventsPeers(w: World)
    ensures ClosedEvents(w).peers == w.peers
    decreases |w.closing|
  {
    if |w.events| < EVENTS && w.closing != [] {
      ClosedEventsPeers(Emit(w.(closing := w.closing[1..]), SandboxClosed(w.closing[0])));
    }
  }

  lemma VisitGrows(w: World, p: Peer, f: Foreign, stopping: bool, env: Env)
    ensures Grows(w, Visit(w, p, f, stopping, env))
  {
    hide EmittedOf, Grows, Turn;
    GrowsNot(w, w);
    GrowsNot(w, w.(peers := w.peers + [p]));
    if |w.events| + 2 <= EVENTS {
      var (q, call) := Turn(p, f, stopping, env);
      var called := if call.Some? then Emit(w, SandboxCall(p.id, call.value)) else w;
      if call.Some? {
        EmitGrows(w, SandboxCall(p.id, call.value));
      }
      if q.dead {
        EmitGrows(called, SandboxClosed(p.id));
        GrowsOn(w, called, Emit(called, SandboxClosed(p.id)));
      } else {
        GrowsNot(called, called.(peers := called.peers + [q]));
        GrowsOn(w, called, called.(peers := called.peers + [q]));
      }
    }
  }

  lemma {:induction false} VisitAllGrows(w: World, rest: seq<Peer>, f: Foreign, stopping: bool, env: nat -> Env)
    ensures Grows(w, VisitAll(w, rest, f, stopping, env))
    decreases |rest|
  {
    hide EmittedOf, Grows, Visit;
    if rest == [] {
      GrowsNot(w, w);
    } else {
      var v := Visit(w, rest[0], f, stopping, env(rest[0].id));
      VisitGrows(w, rest[0], f, stopping, env(rest[0].id));
      VisitAllGrows(v, rest[1..], f, stopping, env);
      GrowsOn(w, v, VisitAll(v, rest[1..], f, stopping, env));
    }
  }

  lemma TickGrows(w: World, f: Foreign, stopping: bool, env: nat -> Env)
    ensures Grows(w, Tick(w, f, stopping, env))
    ensures w.peers == [] ==> Tick(w, f, stopping, env).peers == []
    ensures Drained(w) ==> Tick(w, f, stopping, env) == w
  {
    hide EmittedOf, Grows, Visit, ClosedEvents;
    var c := ClosedEvents(w);
    ClosedEventsGrows(w);
    ClosedEventsPeers(w);
    GrowsNot(c, c.(peers := []));
    VisitAllGrows(c.(peers := []), c.peers, f, stopping, env);
    GrowsOn(w, c, c.(peers := []));
    GrowsOn(w, c.(peers := []), Tick(w, f, stopping, env));
  }

  lemma SendGrows(w: World, connection: nat, m: Message)
    ensures EmittedOf(Send(w, connection, m).trace) == EmittedOf(w.trace)
  {
    var after := Send(w, connection, m);
    if after.trace != w.trace {
      assert after.trace[..|after.trace| - 1] == w.trace;
      assert EmittedOf(w.trace) + [] == EmittedOf(w.trace);
    }
  }

  lemma {:induction false} EndedIsClosed(c: nat, trace: seq<Mark>)
    requires Track(c, trace).Ended?
    ensures SandboxClosed(c) in EmittedOf(trace)
  {
    var init, last := trace[..|trace| - 1], trace[|trace| - 1];
    if Track(c, init).Ended? {
      EndedIsClosed(c, init);
    } else {
      assert last == Emitted(SandboxClosed(c));
    }
  }

  lemma {:induction false} OpenedIsTracked(c: nat, trace: seq<Mark>)
    requires SandboxOpened(c) in EmittedOf(trace)
    ensures !Track(c, trace).Absent?
  {
    var init, last := trace[..|trace| - 1], trace[|trace| - 1];
    if SandboxOpened(c) in EmittedOf(init) {
      OpenedIsTracked(c, init);
    }
  }

  /** In a drained relay, every connection whose opening was emitted has had its closure emitted. */
  lemma DrainedEmittedClosures(w: World, c: nat)
    requires Inv(w, w.peers) && Drained(w) && SandboxOpened(c) in EmittedOf(w.trace)
    ensures SandboxClosed(c) in EmittedOf(w.trace)
  {
    hide Track, EmittedOf, PeerOk, InPhase;
    OpenedIsTracked(c, w.trace);
    assert !Known(w, w.peers, c);
    EndedIsClosed(c, w.trace);
  }
}
