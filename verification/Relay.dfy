/** The relay object and its peers, updated in place. */
module Relay {
  import opened Bytes
  import Framing
  import Codec
  import Spec = RelaySpec

  class Peer {
    const id: nat
    var decoder: Framing.Decoder
    var input: seq<byte>
    var output: seq<seq<byte>>
    var offset: nat
    var queued: int
    var initialized: bool
    var waiting: Option<Spec.Waiting>
    var close: bool
    var dead: bool
    var calls: nat
    ghost var frames: seq<seq<byte>>
    ghost var written: seq<byte>

    ghost function View(): Spec.Peer
      reads this
    {
      Spec.Peer(id, decoder, input, output, offset, queued, initialized, waiting, close, dead, calls, frames, written)
    }

    constructor (id: nat)
      ensures View() == Spec.NewPeer(id)
    {
      this.id := id;
      decoder := Spec.Decoder();
      input, output, offset, queued := [], [], 0, 0;
      initialized, waiting, close, dead, calls := false, None, false, false, 0;
      frames, written := [], [];
    }

    /** Queue a message within the byte budget. */
    method QueueMessage(body: seq<byte>)
      modifies this
      ensures View() == Spec.Queue(old(View()), body)
    {
      var data := Codec.Encode(body);
      if data.Some? && queued + |data.value| <= Spec.QUEUE {
        queued := queued + |data.value|;
        output := output + [data.value];
        frames := frames + [data.value];
      } else {
        dead := true;
      }
    }

    /** One write of the front message. */
    method FlushOnce(w: Spec.Write)
      modifies this
      ensures View() == Spec.Flush(old(View()), w)
    {
      if dead {
        return;
      }
      if output != [] {
        var front := output[0];
        match w {
          case WriteBlocked =>
          case WriteFailed => dead := true;
          case Wrote(n) =>
            if n == 0 || offset >= |front| {
              dead := true;
            } else {
              var k := Min(n, |front| - offset);
              written := written + front[offset..offset + k];
              offset := offset + k;
              queued := queued - k;
              if offset == |front| {
                output := output[1..];
                offset := 0;
              }
            }
        }
      }
      if close && output == [] {
        dead := true;
      }
    }

    /** Read once, and pass on at most one checked call. */
    method ReadOnce(f: Spec.Foreign, stopping: bool, env: Spec.Env) returns (call: Option<Spec.Call>)
      modifies this
      ensures (View(), call) == Spec.ReadPeer(old(View()), f, stopping, env)
    {
      if close || dead {
        return None;
      }
      match env.read {
        case ReadEnded =>
          dead := true;
          return None;
        case ReadBlocked =>
        case Data(bytes) =>
          var chunk := bytes[..Min(|bytes|, Spec.CHUNK)];
          if chunk == [] || (waiting.Some? && !waiting.value.initialize) || |input| + |chunk| > Spec.INPUT {
            dead := true;
            return None;
          }
          input := input + chunk;
      }
      call := DecodeOne(f, stopping, env);
    }

    method DecodeOne(f: Spec.Foreign, stopping: bool, env: Spec.Env) returns (call: Option<Spec.Call>)
      modifies this
      ensures (View(), call) == Spec.Decode(old(View()), f, stopping, env)
    {
      hide Framing.Push, Spec.Check;
      call := None;
      if waiting.Some? {
        return;
      }
      if env.expired {
        QueueMessage(env.fault);
        close := true;
        return;
      }
      Spec.ConsumedInRange(decoder, input);
      match Framing.Push(decoder, input) {
        case Failed(_) =>
          QueueMessage(env.fault);
          close := true;
        case Pending(d) =>
          decoder, input := d, [];
        case Whole(d, n, body) =>
          input := input[n..];
          calls := calls + 1;
          if calls > 2 {
            decoder, dead := d, true;
            return;
          }
          decoder := Spec.Decoder();
          match f.parse(body) {
            case None =>
              QueueMessage(env.fault);
              close := true;
            case Some(found) =>
              if found.id.None? {
                return;
              }
              if Spec.Check(f, found, |body|, initialized, stopping, input != []) {
                waiting := Some(Spec.Waiting(found.id.value, found.name == "initialize"));
                call := Some(found);
              } else {
                QueueMessage(env.fault);
                close := true;
              }
          }
      }
    }

    /** A message from the daemon; a reply to the waiting call completes it. */
    method Deliver(m: Spec.Message)
      modifies this
      ensures View() == Spec.SendPeer(old(View()), m)
    {
      if waiting.Some? && m.id == Some(waiting.value.id) && (m.result || m.error) {
        if waiting.value.initialize && m.result {
          initialized := true;
          decoder := Spec.Decoder();
        } else {
          close := true;
        }
        waiting := None;
      }
      QueueMessage(m.body);
    }
  }

  lemma VisitAllStep(w: Spec.World, all: seq<Spec.Peer>, i: nat, f: Spec.Foreign, stopping: bool, env: nat -> Spec.Env)
    requires i < |all|
    ensures Spec.VisitAll(w, all[i..], f, stopping, env) ==
            Spec.VisitAll(Spec.Visit(w, all[i], f, stopping, env(all[i].id)), all[i + 1..], f, stopping, env)
  {
    assert all[i..][0] == all[i] && all[i..][1..] == all[i + 1..];
  }

  lemma VisitAllEnd(w: Spec.World, all: seq<Spec.Peer>, f: Spec.Foreign, stopping: bool, env: nat -> Spec.Env)
    ensures Spec.VisitAll(w, all[|all|..], f, stopping, env) == w
  {
  }

  class Relay {
    var next: nat
    var peers: seq<Peer>
    var closing: seq<nat>
    ghost var trace: seq<Spec.Mark>

    ghost predicate Distinct()
      reads this
    {
      forall i, j :: 0 <= i < j < |peers| ==> peers[i] != peers[j]
    }

    ghost function Views(): seq<Spec.Peer>
      reads this, peers
    {
      seq(|peers|, i requires 0 <= i < |peers| reads this, peers => peers[i].View())
    }

    ghost function View(events: seq<Spec.Event>): Spec.World
      reads this, peers
    {
      Spec.World(next, Views(), closing, events, trace)
    }

    constructor ()
      ensures Distinct() && View([]) == Spec.Initial()
    {
      next, peers, closing, trace := 0, [], [], [];
    }

    method Open(events: seq<Spec.Event>, nonblocking: bool) returns (out: seq<Spec.Event>)
      requires Distinct() && |events| < Spec.EVENTS
      modifies this
      ensures Distinct() && View(out) == Spec.Open(old(View(events)), nonblocking)
    {
      if |peers| >= Spec.CONNECTIONS || !nonblocking {
        return events;
      }
      next := next + 1;
      var p := new Peer(next);
      peers := peers + [p];
      trace := trace + [Spec.Emitted(Spec.SandboxOpened(next))];
      out := events + [Spec.SandboxOpened(next)];
    }

    /** Pop closures while there is room. */
    method ClosedEvents(events: seq<Spec.Event>) returns (out: seq<Spec.Event>)
      requires Distinct()
      modifies this`closing, this`trace
      ensures View(out) == Spec.ClosedEvents(old(View(events)))
    {
      out := events;
      while |out| < Spec.EVENTS && closing != []
        invariant Spec.ClosedEvents(View(out)) == Spec.ClosedEvents(old(View(events)))
        decreases |closing|
      {
        ghost var was := View(out);
        var connection := closing[0];
        closing := closing[1..];
        trace := trace + [Spec.Emitted(Spec.SandboxClosed(connection))];
        out := out + [Spec.SandboxClosed(connection)];
        assert Views() == was.peers;
        assert View(out) == Spec.Emit(was.(closing := was.closing[1..]), Spec.SandboxClosed(was.closing[0]));
      }
    }

    /** Close every transport at once; the closures follow as there is room. */
    method End(events: seq<Spec.Event>) returns (out: seq<Spec.Event>)
      requires Distinct()
      modifies this
      ensures Distinct() && View(out) == Spec.End(old(View(events)))
    {
      ghost var before := View(events);
      for i := 0 to |peers|
        invariant peers == old(peers) && next == old(next) && trace == old(trace)
        invariant closing == old(closing) + Spec.Ids(before.peers)[..i]
      {
        closing := closing + [peers[i].id];
      }
      peers := [];
      assert View(events) == before.(closing := before.closing + Spec.Ids(before.peers), peers := []);
      out := ClosedEvents(events);
    }

    method Send(connection: nat, m: Spec.Message, ghost events: seq<Spec.Event>)
      requires Distinct()
      requires forall i, j :: 0 <= i < j < |peers| ==> peers[i].id < peers[j].id
      modifies this`trace, peers
      ensures View(events) == Spec.Send(old(View(events)), connection, m)
    {
      hide Spec.SendPeer;
      var i := Find(connection);
      ghost var before := View(events);
      assert forall k :: 0 <= k < |peers| && peers[k].id == connection ==> k == i;
      if i < |peers| {
        ghost var completes := Spec.Completes(peers[i].View(), m);
        assert completes <==> Spec.Completes(before.peers[i], m);
        peers[i].Deliver(m);
        trace := if completes then trace + [Spec.Answered(connection, m.result)] else trace;
        assert forall k :: 0 <= k < |peers| && k != i ==> peers[k].View() == before.peers[k];
      }
      assert Views() == Spec.Send(before, connection, m).peers;
    }

    method Close(connection: nat, ghost events: seq<Spec.Event>)
      requires Distinct()
      requires forall i, j :: 0 <= i < j < |peers| ==> peers[i].id < peers[j].id
      modifies peers
      ensures View(events) == Spec.Close(old(View(events)), connection)
    {
      var i := Find(connection);
      if i < |peers| {
        peers[i].close := true;
      }
    }

    method Find(connection: nat) returns (i: nat)
      ensures i <= |peers|
      ensures i < |peers| ==> peers[i].id == connection
      ensures i == |peers| ==> forall k :: 0 <= k < |peers| ==> peers[k].id != connection
    {
      for k := 0 to |peers|
        invariant forall j :: 0 <= j < k ==> peers[j].id != connection
      {
        if peers[k].id == connection {
          return k;
        }
      }
      i := |peers|;
    }

    /** Serve every peer once, as far as the event queue has room. */
    method Tick(events: seq<Spec.Event>, f: Spec.Foreign, stopping: bool, env: nat -> Spec.Env) returns (out: seq<Spec.Event>)
      requires Distinct()
      modifies this, peers
      ensures Distinct() && View(out) == Spec.Tick(old(View(events)), f, stopping, env)
    {
      hide Spec.Visit, Spec.ClosedEvents, Spec.VisitAll;
      out := ClosedEvents(events);
      ghost var start := View(out);
      ghost var all := start.peers;
      var visit := peers;
      peers := [];
      assert View(out) == start.(peers := []);
      assert all[0..] == all;
      for i := 0 to |visit|
        invariant forall k, j :: 0 <= k < j < |visit| ==> visit[k] != visit[j]
        invariant forall k :: i <= k < |visit| ==> visit[k] !in peers && visit[k].View() == all[k]
        invariant Distinct() && forall q :: q in peers ==> q in visit
        invariant Spec.VisitAll(start.(peers := []), all, f, stopping, env) == Spec.VisitAll(View(out), all[i..], f, stopping, env)
      {
        VisitAllStep(View(out), all, i, f, stopping, env);
        out := Visit(visit[i], out, f, stopping, env(visit[i].id));
      }
      VisitAllEnd(View(out), all, f, stopping, env);
    }

    /** One peer of the round. */
    method Visit(p: Peer, events: seq<Spec.Event>, f: Spec.Foreign, stopping: bool, env: Spec.Env) returns (out: seq<Spec.Event>)
      requires Distinct() && p !in peers
      modifies this`peers, this`trace, p
      ensures Distinct() && (peers == old(peers) || peers == old(peers) + [p])
      ensures View(out) == Spec.Visit(old(View(events)), old(p.View()), f, stopping, env)
    {
      hide Spec.Turn;
      ghost var was := View(events);
      if |events| + 2 > Spec.EVENTS {
        peers := peers + [p];
        assert View(events) == was.(peers := was.peers + [p.View()]);
        return events;
      }
      out := events;
      var call := Turn(p, f, stopping, env);
      if call.Some? {
        trace := trace + [Spec.Emitted(Spec.SandboxCall(p.id, call.value))];
        out := out + [Spec.SandboxCall(p.id, call.value)];
      }
      assert Views() == was.peers;
      if p.dead {
        trace := trace + [Spec.Emitted(Spec.SandboxClosed(p.id))];
        out := out + [Spec.SandboxClosed(p.id)];
        assert Views() == was.peers;
      } else {
        peers := peers + [p];
        assert Views() == was.peers + [p.View()];
      }
    }

    method Turn(p: Peer, f: Spec.Foreign, stopping: bool, env: Spec.Env) returns (call: Option<Spec.Call>)
      modifies p
      ensures (p.View(), call) == Spec.Turn(old(p.View()), f, stopping, env)
    {
      hide Spec.Flush, Spec.ReadPeer;
      p.FlushOnce(env.first);
      call := p.ReadOnce(f, stopping, env);
      if p.close {
        p.FlushOnce(env.second);
      }
    }

    method Drained() returns (drained: bool)
      ensures drained <==> Spec.Drained(View([]))
    {
      drained := peers == [] && closing == [];
    }
  }
}
