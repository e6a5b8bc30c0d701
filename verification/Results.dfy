/** The worker's bounded output: backpressure while it runs, and events the worker keeps
    itself while it is being cancelled. */
module Results {
  import opened Bytes

  /** One turn of the retry loop: how many events the receiver takes before the next try,
      whether it goes away, and whether cancellation is seen after a failed try. */
  datatype Turn = Turn(taken: nat, leaves: bool, cancelled: bool)

  /** The receiver does not go away meanwhile. */
  predicate Stays(turns: seq<Turn>) {
    forall k :: 0 <= k < |turns| ==> !turns[k].leaves
  }

  /** No cancellation is seen meanwhile. */
  predicate Calm(turns: seq<Turn>) {
    forall k :: 0 <= k < |turns| ==> !turns[k].cancelled
  }

  datatype Outcome = Sent | Held | Lost

  class Results<Event> {
    const capacity: nat
    var channel: seq<Event>
    var held: seq<Event>
    /** What the receiver has taken, and whether it is still there. */
    var received: seq<Event>
    var connected: bool

    /** Everything sent so far, in order: received, in the channel, then held. */
    ghost function History(): seq<Event>
      reads this
    {
      received + channel + held
    }

    ghost predicate Valid()
      reads this
    {
      0 < capacity && |channel| <= capacity && |held| <= 2
    }

    constructor (capacity: nat)
      requires capacity > 0
      ensures Valid() && History() == [] && this.capacity == capacity && held == [] && connected
    {
      this.capacity := capacity;
      channel, held, received, connected := [], [], [], true;
    }

    /** The receiver takes some events, and may go away then: what is left is never taken. */
    method Receive(n: nat, leaves: bool)
      requires Valid()
      modifies this`channel, this`received, this`connected
      ensures Valid() && History() == old(History()) && old(received) <= received
      ensures connected == (old(connected) && !leaves)
      ensures old(connected) ==> |channel| == |old(channel)| - Min(n, |old(channel)|)
      ensures !old(connected) ==> received == old(received)
    {
      if !connected {
        return;
      }
      var out := channel[..Min(n, |channel|)];
      channel := channel[|out|..];
      received := received + out;
      connected := !leaves;
      assert out + channel == old(channel);
      Assoc(old(received), out, channel);
    }

    method Hold(event: Event)
      requires Valid() && |held| < 2
      modifies this`held
      ensures Valid() && held == old(held) + [event]
    {
      held := held + [event];
    }

    /** Wait for room, or keep the event once cancellation is seen; while one event is kept,
        later ones are kept behind it. Only a receiver that is gone loses the event; one that
        stays goes on taking, which ends every wait. */
    method Send(event: Event, turns: seq<Turn>) returns (outcome: Outcome)
      requires Valid() && |held| < 2
      modifies this`channel, this`held, this`received, this`connected
      ensures Valid() && old(received) <= received && (connected ==> old(connected))
      ensures History() == if outcome == Lost then old(History()) else old(History()) + [event]
      ensures outcome == Lost ==> !connected && held == old(held) == []
      ensures old(held) != [] ==> outcome == Held
      ensures outcome == Sent ==> held == []
      ensures outcome == Held ==> held == old(held) + [event]
      ensures old(held) == [] && Calm(turns) ==> outcome != Held
      ensures !old(connected) && old(held) == [] ==> outcome == Lost
      ensures old(connected) && Stays(turns) ==> connected
    {
      ghost var before := History();
      if held != [] {
        Hold(event);
        Assoc(received + channel, old(held), [event]);
        return Held;
      }
      var i := 0;
      while i < |turns|
        invariant 0 <= i <= |turns| && Valid() && held == [] && History() == before
        invariant old(received) <= received && (connected ==> old(connected))
        invariant old(connected) && Stays(turns) ==> connected
      {
        Receive(turns[i].taken, turns[i].leaves);
        if !connected {
          return Lost;
        }
        if |channel| < capacity {
          Push(event);
          return Sent;
        }
        if turns[i].cancelled {
          Hold(event);
          assert held == [event];
          Assoc(received + channel, [], [event]);
          return Held;
        }
        i := i + 1;
      }
      outcome := Block(event);
    }

    method Push(event: Event)
      requires Valid() && held == [] && |channel| < capacity
      modifies this`channel
      ensures Valid() && History() == old(History()) + [event]
    {
      channel := channel + [event];
      Assoc(received, old(channel), [event]);
    }

    /** A blocking send: it fails only without a receiver. */
    method Block(event: Event) returns (outcome: Outcome)
      requires Valid() && held == []
      modifies this`channel, this`received
      ensures Valid() && old(received) <= received && outcome == (if connected then Sent else Lost)
      ensures History() == if connected then old(History()) + [event] else old(History())
    {
      if !connected {
        return Lost;
      }
      if |channel| == capacity {
        var out := channel[..1];
        assert channel == out + channel[1..];
        Assoc(received, out, channel[1..]);
        received, channel := received + out, channel[1..];
      }
      Push(event);
      outcome := Sent;
    }

    /** Send what was held, in order, after teardown; without a receiver it is given up. */
    method FinishHeld() returns (ok: bool)
      requires Valid()
      modifies this`channel, this`held, this`received
      ensures Valid() && old(received) <= received && (connected ==> ok)
      ensures ok ==> held == [] && History() == old(History())
      ensures !ok ==> received + channel <= old(History())
    {
      while held != []
        invariant Valid() && old(received) <= received && History() == old(History())
        decreases |held|
      {
        var event := held[0];
        ghost var rest := held[1..];
        assert held == [event] + rest;
        Assoc(received + channel, [event], rest);
        if !connected {
          held := held[1..];
          return false;
        }
        if |channel| == capacity {
          var out := channel[..1];
          assert channel == out + channel[1..];
          Assoc(received, out, channel[1..]);
          received, channel := received + out, channel[1..];
        }
        Assoc(received, channel, [event]);
        channel := channel + [event];
        held := held[1..];
      }
      ok := true;
    }
  }

  /** A worker's life: it sends its events until two are held or the receiver is gone, tears
      down, sends the held ones and then its final event. Whatever the receiver's pace and
      whenever cancellation is seen, what the receiver gets is a front part of the events sent
      and the final one, in order; all of it if it stays. */
  method WorkerLife<Event>(events: seq<Event>, last: Event, capacity: nat, turns: nat -> seq<Turn>)
    returns (received: seq<Event>, sent: nat, stayed: bool)
    requires capacity > 0
    ensures sent <= |events| && received <= events[..sent] + [last]
    ensures stayed ==> received == events[..sent] + [last]
    ensures (forall i :: Stays(turns(i))) ==> stayed
    ensures stayed && (forall i :: Calm(turns(i))) ==> sent == |events|
  {
    var results := new Results<Event>(capacity);
    sent := 0;
    while sent < |events| && |results.held| < 2
      invariant 0 <= sent <= |events| && fresh(results) && results.Valid()
      invariant results.History() == events[..sent]
      invariant (forall i :: Calm(turns(i))) ==> results.held == []
      invariant (forall i :: Stays(turns(i))) ==> results.connected
    {
      var outcome := results.Send(events[sent], turns(sent));
      if outcome == Lost {
        return results.received, sent, false;
      }
      assert events[..sent + 1] == events[..sent] + [events[sent]];
      sent := sent + 1;
    }
    var finished := results.FinishHeld();
    if !finished {
      return results.received, sent, false;
    }
    var outcome := results.Block(last);
    results.Receive(|results.channel|, false);
    assert results.connected ==> results.History() == results.received + [] + [];
    return results.received, sent, results.connected;
  }
}
