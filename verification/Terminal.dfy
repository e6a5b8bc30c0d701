/** The terminal object, updated in place by its owner's ticks. */
module Terminal {
  import opened Bytes
  import Spec = TerminalSpec

  class Terminal {
    var mode: Spec.Mode
    var peer: bool
    var master: bool
    var connected: bool
    var detached: bool
    var eof: bool
    var interrupted: bool
    var complete: bool
    var hello: seq<byte>
    var toPeer: seq<byte>
    var toPty: seq<byte>
    ghost var log: Spec.Log

    ghost function View(): Spec.State
      reads this
    {
      Spec.State(mode, peer, master, connected, detached, eof, interrupted, complete, hello, toPeer, toPty, log)
    }

    constructor (listening: bool, startDetached: bool)
      ensures View() == Spec.New(listening, startDetached)
    {
      mode := Spec.Mode(listening, false, false);
      peer, master, connected, detached, eof, interrupted, complete := false, false, false, startDetached, false, false, false;
      hello, toPeer, toPty := [], [], [];
      log := Spec.Log([], [], startDetached, false);
    }

    /** Read from the consumer; one that closed its end is let go. */
    method RefreshPeer(k: Spec.Peek)
      modifies this
      ensures View() == Spec.Refresh(old(View()), k)
    {
      hide Spec.Room, Spec.Note, Spec.Last;
      if !peer {
        return;
      }
      log := log.(stale := false);
      if detached {
        toPty := [];
      }
      var gone := k.hangup;
      if !gone && |toPty| < Spec.CAP {
        match k.read {
          case ReadBlocked =>
          case ReadEnded => gone := true;
          case Data(bytes) =>
            var chunk := Spec.Room(toPty, bytes);
            if chunk == [] {
              gone := true;
            } else if !detached {
              toPty := toPty + chunk;
              log := Spec.Note(log, Spec.Last(log).(sent := Spec.Last(log).sent + chunk));
            }
        }
      }
      if gone {
        peer, hello, toPty := false, [], [];
        if !complete && !detached {
          interrupted := true;
        }
      }
    }

    method AttachPeer(k: Spec.Peek, nonblocking: bool, greeting: Option<seq<byte>>) returns (ok: bool)
      modifies this
      ensures (View(), ok) == Spec.Attach(old(View()), k, nonblocking, greeting)
    {
      hide Spec.Refresh, Spec.Start;
      RefreshPeer(k);
      if peer || complete || !nonblocking || greeting.None? {
        return false;
      }
      log := Spec.Joined(View(), greeting.value).log;
      hello := greeting.value;
      peer, connected, detached, interrupted := true, true, false, false;
      ok := true;
    }

    /** Half-close towards the consumer; what it sends from now on is discarded. */
    method DetachPeer(shutdown: bool) returns (ok: bool)
      modifies this
      ensures (View(), ok) == Spec.Detach(old(View()), shutdown)
    {
      if !peer || detached || complete || !shutdown {
        return false;
      }
      detached, toPty := true, [];
      ok := true;
    }

    /** Answer up to four waiting connections. */
    method AcceptWaiting(accepts: seq<Spec.Accept>) returns (ok: bool)
      modifies this
      ensures (View(), ok) == Spec.AcceptAll(old(View()), accepts, 4)
    {
      hide Spec.Attach;
      var i := 0;
      assert accepts[0..] == accepts;
      while i < 4
        invariant 0 <= i <= 4 && i <= |accepts|
        invariant Spec.AcceptAll(old(View()), accepts, 4) == Spec.AcceptAll(View(), accepts[i..], 4 - i)
      {
        if i == |accepts| || !mode.listening || mode.held {
          return true;
        }
        assert accepts[i..][0] == accepts[i] && accepts[i..][1..] == accepts[i + 1..];
        match accepts[i] {
          case NoneWaiting =>
            return true;
          case AcceptFailed =>
            return false;
          case Accepted(cloned, peek, nonblocking, greeting) =>
            if !cloned {
              return false;
            }
            if !mode.refusing {
              var attached := AttachPeer(peek, nonblocking, greeting);
            }
            if !nonblocking {
              return false;
            }
        }
        i := i + 1;
      }
      ok := true;
    }

    /** Read output, keeping only a bounded tail once the consumer is gone. */
    method ReadMaster(r: Spec.PtyRead)
      modifies this
      ensures View() == Spec.ReadPty(old(View()), r)
    {
      hide Spec.Room, Spec.Retain;
      var tail := detached || (connected && !peer);
      if !tail && |toPeer| >= Spec.CAP {
        return;
      }
      match r {
        case PtyBlocked =>
        case PtyGone => eof := true;
        case PtyFailed => eof, interrupted := true, true;
        case PtyData(bytes) =>
          var newest := if tail then bytes[..Min(|bytes|, Spec.CHUNK)] else Spec.Room(toPeer, bytes);
          if newest == [] {
            eof := true;
          } else {
            Retain(newest);
            log := log.(pty := log.pty + newest);
          }
      }
    }

    /** Append output, dropping the oldest bytes that do not fit. */
    method Retain(newest: seq<byte>)
      modifies this`toPeer
      ensures toPeer == Spec.Retain(old(toPeer), newest)
    {
      var overflow := if |toPeer| + |newest| > Spec.CAP then |toPeer| + |newest| - Spec.CAP else 0;
      toPeer := (if overflow <= |toPeer| then toPeer[overflow..] else []) + newest;
    }

    method WriteMaster(w: Spec.Write)
      modifies this
      ensures View() == Spec.WritePty(old(View()), w)
    {
      hide Spec.Note, Spec.Last;
      if eof {
        return;
      }
      var n := Spec.Taken(toPty, w);
      ghost var a := Spec.Last(log);
      if n.None? {
        toPty := [];
        log := if peer then Spec.Note(log, a.(failed := true)) else log;
      } else {
        log := if peer then Spec.Note(log, a.(typed := a.typed + toPty[..n.value])) else log;
        toPty := toPty[n.value..];
      }
    }

    /** Write the handshake and, only when all of it is out, output. */
    method DeliverPending(env: Spec.TickEnv) returns (ok: bool)
      modifies this
      ensures (View(), ok) == Spec.Deliver(old(View()), env)
    {
      hide Spec.Note, Spec.Last, Spec.Taken;
      if !peer || detached {
        return true;
      }
      var n := Spec.Taken(hello, env.helloWrite);
      if n.None? {
        interrupted, peer, hello, toPty := true, false, [], [];
        return true;
      }
      ghost var a := Spec.Last(log);
      log := Spec.Note(log, a.(received := a.received + hello[..n.value]));
      hello := hello[n.value..];
      if hello != [] {
        return true;
      }
      ok := DeliverRest(env);
    }

    method DeliverRest(env: Spec.TickEnv) returns (ok: bool)
      modifies this
      ensures (View(), ok) == Spec.DeliverOutput(old(View()), env)
    {
      hide Spec.Note, Spec.Last, Spec.Taken;
      var n := Spec.Taken(toPeer, env.outWrite);
      if n.None? {
        interrupted, peer, hello, toPty := true, false, [], [];
        return true;
      }
      ghost var a := Spec.Last(log);
      log := Spec.Note(log, a.(received := a.received + toPeer[..n.value], to := a.to + n.value));
      toPeer := toPeer[n.value..];
      if eof && toPeer == [] && !complete {
        if !env.shutdown {
          return false;
        }
        complete := true;
      }
      ok := true;
    }

    method Tick(env: Spec.TickEnv) returns (ok: bool)
      modifies this
      ensures (View(), ok) == Spec.Tick(old(View()), env)
    {
      hide Spec.Refresh, Spec.AcceptAll, Spec.ReadPty, Spec.WritePty, Spec.Deliver;
      RefreshPeer(env.peek);
      ok := AcceptWaiting(env.accepts);
      if !ok {
        return;
      }
      if master && !eof {
        ReadMaster(env.ptyRead);
        WriteMaster(env.ptyWrite);
      }
      ok := DeliverPending(env);
      if !ok {
        return;
      }
      if eof {
        master := false;
      }
    }

    /** The owner's start of a server: refuse everybody and count as detached. */
    method MarkDetached()
      modifies this
      ensures View() == Spec.MarkDetached(old(View()))
    {
      mode := mode.(refusing := true, held := false);
      detached := true;
      log := log.(stale := true, early := log.early || log.attachments == []);
    }

    /** Nothing more is owed to a consumer. */
    predicate CanEvict()
      reads this
    {
      complete || interrupted || (detached && !peer)
    }
  }
}
