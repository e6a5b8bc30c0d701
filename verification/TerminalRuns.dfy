/** What a terminal guarantees in every run: to its consumers and to its payload. */
module TerminalRuns {
  import opened Bytes
  import opened TerminalSpec

  // Subsequences ------------------------------------------------------------------------

  /** `a` is `b` with some bytes left out. */
  predicate Sub(a: seq<byte>, b: seq<byte>)
    decreases |b|
  {
    a == [] || (b != [] && (Sub(a, b[..|b| - 1]) || (a[|a| - 1] == b[|b| - 1] && Sub(a[..|a| - 1], b[..|b| - 1]))))
  }

  lemma {:induction false} SubAppend(a: seq<byte>, b: seq<byte>, x: seq<byte>)
    requires Sub(a, b)
    ensures Sub(a + x, b + x)
    decreases |x|
  {
    if x == [] {
      assert a + x == a && b + x == b;
    } else {
      var y := x[..|x| - 1];
      SubAppend(a, b, y);
      assert (a + x)[..|a + x| - 1] == a + y && (b + x)[..|b + x| - 1] == b + y;
    }
  }

  lemma {:induction false} SubPrefix(a: seq<byte>, x: seq<byte>, b: seq<byte>)
    requires Sub(a + x, b)
    ensures Sub(a, b)
    decreases |b|
  {
    if a != [] {
      var c := b[..|b| - 1];
      if Sub(a + x, c) {
        SubPrefix(a, x, c);
      } else if x == [] {
        assert a + x == a;
      } else {
        assert (a + x)[..|a + x| - 1] == a + x[..|x| - 1];
        SubPrefix(a, x[..|x| - 1], c);
      }
    }
  }

  lemma {:induction false} SubSelf(a: seq<byte>)
    ensures Sub(a, a)
    decreases |a|
  {
    if a != [] {
      SubSelf(a[..|a| - 1]);
    }
  }

  // The invariant -------------------------------------------------------------------------

  /** The retained buffer is bounded and is the newest part of the PTY's output. */
  predicate Buffered(t: State) {
    && |t.toPeer| <= CAP && |t.toPty| <= CAP
    && |t.toPeer| <= |t.log.pty| && t.toPeer == t.log.pty[Start(t)..]
  }

  /** A consumer got part of its handshake, or all of it and then one piece of the output. */
  predicate Segment(a: Attachment, pty: seq<byte>) {
    && a.from <= a.to <= |pty|
    && ((a.to == a.from && a.received <= a.greeting) || a.received == a.greeting + pty[a.from..a.to])
  }

  predicate Segments(t: State) {
    && (forall i :: 0 <= i < |t.log.attachments| ==> Segment(t.log.attachments[i], t.log.pty) && t.log.attachments[i].to <= Start(t))
    && (forall i, j :: 0 <= i < j < |t.log.attachments| ==> t.log.attachments[i].to <= t.log.attachments[j].from)
  }

  /** The consumer being served has all output up to the buffer. */
  predicate Current(t: State) {
    && (t.peer ==> t.log.attachments != [])
    && (t.connected <==> t.log.attachments != [])
    && (!t.peer ==> t.hello == [])
    && (t.peer && !t.detached ==>
          var a := Last(t.log);
          && a.from <= a.to == Start(t) <= |t.log.pty|
          && (if t.hello != [] then a.to == a.from && a.received + t.hello == a.greeting else a.received == a.greeting + t.log.pty[a.from..a.to]))
  }

  predicate Completed(t: State) {
    t.complete ==>
      t.eof && t.log.attachments != [] && Last(t.log).from <= |t.log.pty| && Last(t.log).received == Last(t.log).greeting + t.log.pty[Last(t.log).from..]
  }

  predicate FirstFromStart(t: State) {
    !t.log.early ==> if t.log.attachments == [] then Start(t) == 0 && !t.detached else t.log.attachments[0].from == 0
  }

  predicate Typed(a: Attachment) {
    Sub(a.typed, a.sent) && (!a.failed ==> a.typed <= a.sent)
  }

  predicate Typing(a: Attachment, buffer: seq<byte>) {
    Sub(a.typed + buffer, a.sent) && (!a.failed ==> a.typed + buffer == a.sent)
  }

  predicate Input(t: State) {
    && (!t.peer ==> t.toPty == [])
    && (t.detached && !t.log.stale ==> t.toPty == [])
    && (forall i :: 0 <= i < |t.log.attachments| ==> Typed(t.log.attachments[i]))
    && (t.peer && !t.detached ==> Typing(Last(t.log), t.toPty))
  }

  predicate Inv(t: State) {
    Buffered(t) && Segments(t) && Current(t) && Completed(t) && FirstFromStart(t) && Input(t)
  }

  // Steps -------------------------------------------------------------------------------

  lemma TypingIsTyped(a: Attachment, buffer: seq<byte>)
    requires Typing(a, buffer)
    ensures Typed(a)
  {
    SubPrefix(a.typed, buffer, a.sent);
  }

  /** Clearing the input buffer of a consumer that is gone or detached. */
  lemma GoneKeeps(t: State)
    requires Inv(t)
    ensures Inv(Gone(t)) && Inv(Dropped(t))
  {
    hide Sub;
  }

  lemma ClearedKeeps(t: State)
    requires Inv(t)
    ensures Inv(Cleared(t).(log := t.log.(stale := false)))
  {
    hide Sub, Segment, Typed, Typing;
    var c := Cleared(t).(log := t.log.(stale := false));
    assert Start(c) == Start(t) && Last(c.log) == Last(t.log);
    assert Segments(c);
  }

  lemma ReceivedKeeps(t: State, chunk: seq<byte>)
    requires Inv(t) && t.peer && !t.detached && |t.toPty| + |chunk| <= CAP
    ensures Inv(Received(t, chunk))
  {
    hide Sub;
    var a := Last(t.log);
    var b := a.(sent := a.sent + chunk);
    SubAppend(a.typed + t.toPty, a.sent, chunk);
    Assoc(a.typed, t.toPty, chunk);
    assert Typing(b, t.toPty + chunk);
    TypingIsTyped(b, t.toPty + chunk);
  }

  lemma RefreshKeeps(t: State, k: Peek)
    requires Inv(t)
    ensures Inv(Refresh(t, k)) && (Refresh(t, k).peer ==> !Refresh(t, k).log.stale)
  {
    hide Inv;
    if t.peer {
      ClearedKeeps(t);
      var c := Cleared(t).(log := t.log.(stale := false));
      GoneKeeps(c);
      if |c.toPty| < CAP && k.read.Data? && !c.detached {
        ReceivedKeeps(c, Room(c.toPty, k.read.bytes));
      }
    }
  }

  lemma JoinedKeeps(t: State, greeting: seq<byte>)
    requires Inv(t) && !t.peer && !t.complete
    ensures Inv(Joined(t, greeting))
  {
    var after := Joined(t, greeting);
    var a := Last(after.log);
    SubSelf([]);
    assert a.typed + after.toPty == [];
    assert Segment(a, t.log.pty);
    assert a.greeting + t.log.pty[a.from..a.to] == a.greeting;
  }

  lemma AttachKeeps(t: State, k: Peek, nonblocking: bool, greeting: Option<seq<byte>>)
    requires Inv(t)
    ensures var c := Attach(t, k, nonblocking, greeting).0; Inv(c) && (c.peer ==> !c.log.stale)
  {
    hide Inv, Refresh;
    RefreshKeeps(t, k);
    var c := Refresh(t, k);
    if !c.peer && !c.complete && greeting.Some? {
      JoinedKeeps(c, greeting.value);
    }
  }

  lemma {:induction false} AcceptAllKeeps(t: State, accepts: seq<Accept>, limit: nat)
    requires Inv(t) && (t.peer ==> !t.log.stale)
    ensures var c := AcceptAll(t, accepts, limit).0; Inv(c) && (c.peer ==> !c.log.stale)
    decreases limit
  {
    hide Inv, Attach;
    if limit > 0 && accepts != [] && accepts[0].Accepted? {
      var Accepted(cloned, peek, nonblocking, greeting) := accepts[0];
      AcceptAllKeeps(t, accepts[1..], limit - 1);
      AttachKeeps(t, peek, nonblocking, greeting);
      AcceptAllKeeps(Attach(t, peek, nonblocking, greeting).0, accepts[1..], limit - 1);
    }
  }

  /** The retained buffer after new output is still the newest part of all output. */
  lemma RetainIsSuffix(pty: seq<byte>, buffer: seq<byte>, chunk: seq<byte>)
    requires |buffer| <= CAP && |chunk| <= CHUNK && |buffer| <= |pty| && buffer == pty[|pty| - |buffer|..]
    ensures var r := Retain(buffer, chunk);
            && |r| <= CAP && |r| <= |pty + chunk| && r == (pty + chunk)[|pty + chunk| - |r|..]
            && |pty| - |buffer| <= |pty + chunk| - |r|
            && (|buffer| + |chunk| <= CAP ==> |pty| - |buffer| == |pty + chunk| - |r|)
  {
  }

  lemma SegmentGrows(a: Attachment, pty: seq<byte>, chunk: seq<byte>)
    requires Segment(a, pty)
    ensures Segment(a, pty + chunk)
  {
    assert (pty + chunk)[a.from..a.to] == pty[a.from..a.to];
  }

  lemma PtyDataKeeps(t: State, chunk: seq<byte>)
    requires Inv(t) && !t.eof && |chunk| <= CHUNK
    requires Tail(t) || |t.toPeer| + |chunk| <= CAP
    ensures Inv(t.(toPeer := Retain(t.toPeer, chunk), log := t.log.(pty := t.log.pty + chunk)))
  {
    hide Sub, Segment, Typed, Typing;
    var after := t.(toPeer := Retain(t.toPeer, chunk), log := t.log.(pty := t.log.pty + chunk));
    RetainIsSuffix(t.log.pty, t.toPeer, chunk);
    assert Start(t) <= Start(after);
    forall i | 0 <= i < |t.log.attachments|
      ensures Segment(after.log.attachments[i], after.log.pty) && after.log.attachments[i].to <= Start(after)
    {
      SegmentGrows(t.log.attachments[i], t.log.pty, chunk);
    }
    if t.peer && !t.detached {
      var a := Last(t.log);
      assert after.log.pty[a.from..a.to] == t.log.pty[a.from..a.to];
    }
  }

  lemma ReadPtyKeeps(t: State, r: PtyRead)
    requires Inv(t) && !t.eof
    ensures var c := ReadPty(t, r); Inv(c) && c.detached == t.detached && c.toPty == t.toPty && c.peer == t.peer
  {
    hide Segments, Input, Buffered, Current, FirstFromStart;
    if r.PtyData? && (Tail(t) || |t.toPeer| < CAP) {
      var chunk := if Tail(t) then r.bytes[..Min(|r.bytes|, CHUNK)] else Room(t.toPeer, r.bytes);
      PtyDataKeeps(t, chunk);
    }
    if ReadPty(t, r).eof {
      EndKeeps(t, ReadPty(t, r));
    }
  }

  lemma EndKeeps(t: State, c: State)
    requires Inv(t) && c == t.(eof := true, interrupted := c.interrupted)
    ensures Inv(c)
  {
    hide Sub;
  }

  /** Input bookkeeping of the current attachment does not touch output. */
  lemma NoteKeeps(t: State, b: Attachment, buffer: seq<byte>)
    requires Inv(t) && t.peer && |buffer| <= CAP
    requires b == Last(t.log).(sent := b.sent, typed := b.typed, failed := b.failed) && Typed(b)
    requires if t.detached then buffer == [] else Typing(b, buffer)
    ensures Inv(t.(toPty := buffer, log := Note(t.log, b)))
  {
    hide Sub, Segment, Typed, Typing;
    var c := t.(toPty := buffer, log := Note(t.log, b));
    var a := Last(t.log);
    assert Segment(a, t.log.pty);
    SegmentSame(a, b, t.log.pty);
    assert Last(c.log) == b;
    assert Segments(c);
  }

  lemma WritePtyKeeps(t: State, w: Write)
    requires Inv(t) && (t.detached ==> t.toPty == [])
    ensures Inv(WritePty(t, w))
  {
    hide Sub, Segments, Buffered, Current, FirstFromStart, Completed, Note;
    if !t.eof && t.peer {
      var a := Last(t.log);
      assert Typed(a) by { LastTyped(t); }
      var b, buffer := a.(failed := true), [];
      match Taken(t.toPty, w) {
        case None =>
          assert a.typed + [] == a.typed;
        case Some(n) =>
          b, buffer := a.(typed := a.typed + t.toPty[..n]), t.toPty[n..];
          assert t.toPty == t.toPty[..n] + t.toPty[n..];
          Assoc(a.typed, t.toPty[..n], t.toPty[n..]);
          assert a.typed + [] == a.typed;
          if !t.detached {
            TypingIsTyped(b, buffer);
          }
      }
      BufferBound(t);
      NoteKeeps(t, b, buffer);
    } else if !t.eof {
      assert t.toPty == [];
      assert WritePty(t, w) == t;
    }
  }

  lemma LastTyped(t: State)
    requires Inv(t) && t.peer
    ensures Typed(Last(t.log))
  {
  }

  lemma BufferBound(t: State)
    requires Inv(t)
    ensures |t.toPty| <= CAP
  {
  }

  lemma SegmentSame(a: Attachment, b: Attachment, pty: seq<byte>)
    requires Segment(a, pty) && b == a.(sent := b.sent, typed := b.typed, failed := b.failed)
    ensures Segment(b, pty)
  {
  }

  lemma ServePtyKeeps(t: State, env: TickEnv)
    requires Inv(t) && (t.peer ==> !t.log.stale)
    ensures Inv(ServePty(t, env))
  {
    hide Sub, Segments, Buffered, Current, FirstFromStart, Completed, ReadPty, WritePty;
    if t.master && !t.eof {
      ReadPtyKeeps(t, env.ptyRead);
      WritePtyKeeps(ReadPty(t, env.ptyRead), env.ptyWrite);
    }
  }

  lemma GreetedKeeps(t: State, n: nat)
    requires Inv(t) && t.peer && !t.detached && n <= |t.hello|
    ensures Inv(Greeted(t, n))
  {
    hide Sub;
    var a := Last(t.log);
    var after := Greeted(t, n);
    var b := Last(after.log);
    assert t.hello == t.hello[..n] + t.hello[n..];
    Assoc(a.received, t.hello[..n], t.hello[n..]);
    assert t.log.pty[a.from..a.from] == [];
    if t.hello == [] {
      assert a.received + [] == a.received;
    } else {
      assert b.received + after.hello == a.greeting;
      assert b.received <= b.greeting;
      if after.hello == [] {
        assert b.received + [] == b.received;
        assert b.greeting + [] == b.greeting;
      }
    }
    assert Segment(b, t.log.pty);
  }

  lemma ShownKeeps(t: State, n: nat)
    requires Inv(t) && t.peer && !t.detached && t.hello == [] && n <= |t.toPeer|
    ensures Inv(Shown(t, n)) && Last(Shown(t, n).log).to == Start(t) + n
  {
    hide Sub;
    var a := Last(t.log);
    var after := Shown(t, n);
    var b := Last(after.log);
    assert t.toPeer[..n] == t.log.pty[a.to..a.to + n];
    assert t.log.pty[a.from..a.to + n] == t.log.pty[a.from..a.to] + t.log.pty[a.to..a.to + n];
    Assoc(a.greeting, t.log.pty[a.from..a.to], t.log.pty[a.to..a.to + n]);
    assert Start(after) == Start(t) + n;
    assert after.toPeer == t.log.pty[Start(after)..];
    assert b.received == b.greeting + t.log.pty[b.from..b.to];
    if t.complete {
      assert t.log.pty[a.from..] == t.log.pty[a.from..|t.log.pty|];
    }
  }

  lemma DeliverKeeps(t: State, env: TickEnv)
    requires Inv(t)
    ensures Inv(Deliver(t, env).0)
  {
    hide Inv, Greeted, Shown, Dropped, DeliverOutput;
    if t.peer && !t.detached {
      GoneKeeps(t);
      var taken := Taken(t.hello, env.helloWrite);
      if taken.Some? {
        GreetedKeeps(t, taken.value);
        GreetedStays(t, taken.value);
        var g := Greeted(t, taken.value);
        if g.hello == [] {
          OutputKeeps(g, env);
        }
      }
    }
  }

  lemma GreetedStays(t: State, n: nat)
    requires n <= |t.hello|
    ensures Greeted(t, n).peer == t.peer && Greeted(t, n).detached == t.detached
  {
  }

  lemma OutputKeeps(t: State, env: TickEnv)
    requires Inv(t) && t.peer && !t.detached && t.hello == []
    ensures Inv(DeliverOutput(t, env).0)
  {
    hide Sub, Segments, Buffered, Input, FirstFromStart, Shown, Dropped;
    GoneKeeps(t);
    var taken := Taken(t.toPeer, env.outWrite);
    if taken.Some? {
      ShownKeeps(t, taken.value);
      ShownStays(t, taken.value);
      var o := Shown(t, taken.value);
      if o.eof && o.toPeer == [] && !o.complete {
        FinishKeeps(o);
      }
    }
  }

  lemma ShownStays(t: State, n: nat)
    requires n <= |t.toPeer|
    ensures var o := Shown(t, n); o.peer == t.peer && o.detached == t.detached && o.hello == t.hello
  {
  }

  /** The end of output is announced only when the consumer has everything. */
  lemma FinishKeeps(t: State)
    requires Inv(t) && t.peer && !t.detached && t.hello == [] && t.eof && t.toPeer == []
    ensures Inv(t.(complete := true))
  {
    hide Sub;
    var a := Last(t.log);
    assert t.log.pty[a.from..a.to] == t.log.pty[a.from..];
  }

  lemma TickKeeps(t: State, env: TickEnv)
    requires Inv(t)
    ensures Inv(Tick(t, env).0)
  {
    hide Inv, Refresh, AcceptAll, ServePty, Deliver;
    RefreshKeeps(t, env.peek);
    AcceptAllKeeps(Refresh(t, env.peek), env.accepts, 4);
    var (a, ok) := AcceptAll(Refresh(t, env.peek), env.accepts, 4);
    if ok {
      ServePtyKeeps(a, env);
      DeliverKeeps(ServePty(a, env), env);
      var d := Deliver(ServePty(a, env), env).0;
      FlagsKeep(d, d.(master := false));
    }
  }

  /** The invariant does not depend on the mode, the master or `interrupted`, nor on `eof` being set. */
  lemma FlagsKeep(t: State, c: State)
    requires Inv(t) && c == t.(mode := c.mode, master := c.master, interrupted := c.interrupted, eof := c.eof) && (t.eof ==> c.eof)
    ensures Inv(c)
  {
    hide Sub;
  }

  lemma MarkKeeps(t: State)
    requires Inv(t)
    ensures Inv(MarkDetached(t))
  {
    hide Sub;
  }

  lemma DetachKeeps(t: State, shutdown: bool)
    requires Inv(t)
    ensures Inv(Detach(t, shutdown).0)
  {
    hide Sub;
  }

  lemma StepKeeps(t: State, a: Action)
    requires Inv(t)
    ensures Inv(Step(t, a))
  {
    hide Inv, Tick, Attach, Detach, MarkDetached;
    match a {
      case DoTick(env) => TickKeeps(t, env);
      case DoAttach(peek, nonblocking, greeting) => AttachKeeps(t, peek, nonblocking, greeting);
      case DoDetach(shutdown) => DetachKeeps(t, shutdown);
      case ServerStarted => MarkKeeps(t);
      case _ => FlagsKeep(t, Step(t, a));
    }
  }

  lemma NewOk(listening: bool, detached: bool)
    ensures Inv(New(listening, detached))
  {
  }

  lemma {:induction false} RunKeeps(listening: bool, detached: bool, actions: seq<Action>)
    ensures Inv(Run(New(listening, detached), actions))
  {
    hide Inv, Step, New;
    if actions == [] {
      NewOk(listening, detached);
    } else {
      RunKeeps(listening, detached, actions[..|actions| - 1]);
      StepKeeps(Run(New(listening, detached), actions[..|actions| - 1]), actions[|actions| - 1]);
    }
  }

  // The results -------------------------------------------------------------------------

  /** In every run: the retained output is at most `CAP` bytes and is the newest part of what
      the PTY wrote; every consumer gets part of its handshake, or all of it and then one
      contiguous piece of the output; and pieces never overlap or go back. */
  lemma OutputIsContiguous(listening: bool, detached: bool, actions: seq<Action>)
    ensures var t := Run(New(listening, detached), actions);
            var as_ := t.log.attachments;
            && |t.toPeer| <= CAP && |t.toPeer| <= |t.log.pty| && t.toPeer == t.log.pty[|t.log.pty| - |t.toPeer|..]
            && (forall i :: 0 <= i < |as_| ==> as_[i].from <= as_[i].to <= |t.log.pty| - |t.toPeer|)
            && (forall i :: 0 <= i < |as_| ==>
                  as_[i].received == as_[i].greeting + t.log.pty[as_[i].from..as_[i].to] || (as_[i].from == as_[i].to && as_[i].received <= as_[i].greeting))
            && (forall i, j :: 0 <= i < j < |as_| ==> as_[i].to <= as_[j].from)
  {
    hide Run, New, Sub;
    RunKeeps(listening, detached, actions);
    var t := Run(New(listening, detached), actions);
    assert forall i :: 0 <= i < |t.log.attachments| ==> Segment(t.log.attachments[i], t.log.pty);
  }

  lemma EarlySources(t: State, a: Action)
    requires a == ServerStarted ==> t.log.attachments != []
    ensures Step(t, a).log.early == t.log.early
  {
    hide Tick, Attach;
    match a {
      case DoTick(env) => TickMarks(t, env);
      case DoAttach(peek, nonblocking, greeting) => AttachMarks(t, peek, nonblocking, greeting);
      case _ =>
    }
  }

  /** An attach clears the mark of a server start, and does not set `early`. */
  lemma AttachMarks(t: State, k: Peek, nonblocking: bool, greeting: Option<seq<byte>>)
    ensures var c := Attach(t, k, nonblocking, greeting).0; c.log.early == t.log.early && (c.peer ==> !c.log.stale)
  {
    hide Refresh, Start;
    RefreshMarks(t, k);
  }

  predicate SameMarks(t: State, c: State) {
    c.log.early == t.log.early && c.log.stale == t.log.stale && c.peer == t.peer
  }

  lemma NotesKeepMarks(t: State, chunk: seq<byte>, n: nat)
    ensures SameMarks(t, Received(t, chunk))
    ensures n <= |t.hello| ==> SameMarks(t, Greeted(t, n))
    ensures n <= |t.toPeer| ==> SameMarks(t, Shown(t, n))
  {
    hide Note, Last;
  }

  lemma GoneMarks(t: State)
    ensures Gone(t).log == t.log && Dropped(t).log == t.log && !Gone(t).peer && !Dropped(t).peer
  {
  }

  lemma RefreshMarks(t: State, k: Peek)
    ensures Refresh(t, k).log.early == t.log.early && (Refresh(t, k).peer ==> !Refresh(t, k).log.stale)
  {
    hide Received, Gone, Room;
    var c := Cleared(t).(log := t.log.(stale := false));
    GoneMarks(c);
    if k.read.Data? {
      NotesKeepMarks(c, Room(c.toPty, k.read.bytes), 0);
    }
  }

  lemma ReadMarks(t: State, r: PtyRead)
    ensures SameMarks(t, ReadPty(t, r))
  {
    hide Room, Retain;
  }

  lemma WriteMarks(t: State, w: Write)
    ensures SameMarks(t, WritePty(t, w))
  {
    hide Note, Last, Taken;
  }

  /** The rest of a tick changes neither mark. */
  lemma ServeMarks(t: State, env: TickEnv)
    ensures SameMarks(t, ServePty(t, env))
  {
    hide ReadPty, WritePty;
    ReadMarks(t, env.ptyRead);
    WriteMarks(ReadPty(t, env.ptyRead), env.ptyWrite);
  }

  lemma DeliverMarks(t: State, env: TickEnv)
    ensures var c := Deliver(t, env).0; c.log.early == t.log.early && c.log.stale == t.log.stale && (c.peer ==> t.peer)
  {
    hide Greeted, Taken, DeliverOutput, Dropped;
    GoneMarks(t);
    if Taken(t.hello, env.helloWrite).Some? {
      var n := Taken(t.hello, env.helloWrite).value;
      NotesKeepMarks(t, [], n);
      OutputMarks(Greeted(t, n), env);
    }
  }

  lemma OutputMarks(t: State, env: TickEnv)
    ensures var c := DeliverOutput(t, env).0; c.log.early == t.log.early && c.log.stale == t.log.stale && (c.peer ==> t.peer)
  {
    hide Shown, Taken, Dropped;
    GoneMarks(t);
    if Taken(t.toPeer, env.outWrite).Some? {
      NotesKeepMarks(t, [], Taken(t.toPeer, env.outWrite).value);
    }
  }

  lemma {:induction false} AcceptMarks(t: State, accepts: seq<Accept>, limit: nat)
    ensures var c := AcceptAll(t, accepts, limit).0; c.log.early == t.log.early && ((t.peer ==> !t.log.stale) ==> c.peer ==> !c.log.stale)
    decreases limit
  {
    hide Attach;
    if limit > 0 && accepts != [] && accepts[0].Accepted? {
      var Accepted(cloned, peek, nonblocking, greeting) := accepts[0];
      AcceptMarks(t, accepts[1..], limit - 1);
      AttachMarks(t, peek, nonblocking, greeting);
      AcceptMarks(Attach(t, peek, nonblocking, greeting).0, accepts[1..], limit - 1);
    }
  }

  lemma TickMarks(t: State, env: TickEnv)
    ensures var c := Tick(t, env).0; c.log.early == t.log.early && (c.peer ==> !c.log.stale)
  {
    hide Refresh, AcceptAll, ServePty, Deliver;
    RefreshMarks(t, env.peek);
    AcceptMarks(Refresh(t, env.peek), env.accepts, 4);
    var a := AcceptAll(Refresh(t, env.peek), env.accepts, 4).0;
    ServeMarks(a, env);
    DeliverMarks(ServePty(a, env), env);
  }

  /** No server started before somebody had attached. */
  predicate AttachedFirst(start: State, actions: seq<Action>) {
    forall i :: 0 <= i < |actions| && actions[i] == ServerStarted ==> Run(start, actions[..i]).log.attachments != []
  }

  lemma {:induction false} NeverMarked(listening: bool, actions: seq<Action>)
    requires AttachedFirst(New(listening, false), actions)
    ensures !Run(New(listening, false), actions).log.early
  {
    hide Step;
    if actions != [] {
      var init := actions[..|actions| - 1];
      forall i | 0 <= i < |init| && init[i] == ServerStarted ensures Run(New(listening, false), init[..i]).log.attachments != [] {
        assert init[..i] == actions[..i];
      }
      NeverMarked(listening, init);
      EarlySources(Run(New(listening, false), init), actions[|actions| - 1]);
    }
  }

  /** A terminal that was not launched detached, nor marked by a server start before its first
      consumer, loses nothing to that consumer if it stays: when the output is complete, it has
      the handshake and every PTY byte. */
  lemma FirstConsumerGetsEverything(listening: bool, actions: seq<Action>)
    requires AttachedFirst(New(listening, false), actions)
    requires Run(New(listening, false), actions).complete && |Run(New(listening, false), actions).log.attachments| == 1
    ensures var t := Run(New(listening, false), actions);
            t.log.attachments[0].received == t.log.attachments[0].greeting + t.log.pty
  {
    hide Run, New, Sub, AttachedFirst;
    RunKeeps(listening, false, actions);
    NeverMarked(listening, actions);
    var t := Run(New(listening, false), actions);
    assert t.log.pty[0..] == t.log.pty;
  }

  /** Any consumer that sees the end has had all output since it attached. */
  lemma CompleteMeansDelivered(listening: bool, detached: bool, actions: seq<Action>)
    requires Run(New(listening, detached), actions).complete
    ensures var t := Run(New(listening, detached), actions);
            && t.log.attachments != [] && Last(t.log).from <= |t.log.pty|
            && Last(t.log).received == Last(t.log).greeting + t.log.pty[Last(t.log).from..]
  {
    hide Run, New, Sub;
    RunKeeps(listening, detached, actions);
  }

  /** A server start that no tick or attach has followed yet. */
  predicate JustMarked(actions: seq<Action>) {
    actions != [] &&
    var a := actions[|actions| - 1];
    a == ServerStarted || (!a.DoTick? && !a.DoAttach? && JustMarked(actions[..|actions| - 1]))
  }

  lemma StepSettles(t: State, a: Action)
    requires a != ServerStarted && (a.DoTick? || a.DoAttach? || (t.peer ==> !t.log.stale))
    ensures Step(t, a).peer ==> !Step(t, a).log.stale
  {
    hide Tick, Attach;
    match a {
      case DoTick(env) => TickMarks(t, env);
      case DoAttach(peek, nonblocking, greeting) => AttachMarks(t, peek, nonblocking, greeting);
      case _ =>
    }
  }

  lemma {:induction false} StaleIsJustMarked(start: State, actions: seq<Action>)
    requires !start.peer && !JustMarked(actions)
    ensures Run(start, actions).peer ==> !Run(start, actions).log.stale
  {
    hide Step;
    if actions != [] {
      var a := actions[|actions| - 1];
      if !a.DoTick? && !a.DoAttach? {
        StaleIsJustMarked(start, actions[..|actions| - 1]);
      }
      StepSettles(Run(start, actions[..|actions| - 1]), a);
    }
  }

  /** What came before that server start. */
  function BeforeMark(actions: seq<Action>): seq<Action>
    requires JustMarked(actions)
  {
    var init := actions[..|actions| - 1];
    if actions[|actions| - 1] == ServerStarted then init else BeforeMark(init)
  }

  /** Marking clears nothing, and until the next tick or attach nothing else does. */
  lemma {:induction false} MarkKeepsBuffer(start: State, actions: seq<Action>)
    requires JustMarked(actions)
    ensures Run(start, actions).detached && Run(start, actions).toPty == Run(start, BeforeMark(actions)).toPty
  {
    hide Tick, Attach;
    var init := actions[..|actions| - 1];
    if actions[|actions| - 1] != ServerStarted {
      MarkKeepsBuffer(start, init);
    }
  }

  /** In every run: without a consumer no input is buffered for the PTY, and with a detached one
      some is exactly when a server start that no tick or attach has followed yet found some;
      and what was written to the PTY during an attachment is what that attachment sent before
      it detached, in order: a front part of it when no PTY write failed. */
  lemma InputIsFromTheConsumer(listening: bool, detached: bool, actions: seq<Action>)
    ensures var t := Run(New(listening, detached), actions);
            && (!t.peer ==> t.toPty == [])
            && (t.detached && t.toPty != [] <==> JustMarked(actions) && Run(New(listening, detached), BeforeMark(actions)).toPty != [])
            && |t.toPty| <= CAP
            && (forall i :: 0 <= i < |t.log.attachments| ==>
                  && Sub(t.log.attachments[i].typed, t.log.attachments[i].sent)
                  && (!t.log.attachments[i].failed ==> t.log.attachments[i].typed <= t.log.attachments[i].sent))
  {
    hide Run, Sub, BeforeMark;
    RunKeeps(listening, detached, actions);
    var t := Run(New(listening, detached), actions);
    if JustMarked(actions) {
      MarkKeepsBuffer(New(listening, detached), actions);
    } else {
      StaleIsJustMarked(New(listening, detached), actions);
    }
    assert forall i :: 0 <= i < |t.log.attachments| ==> Typed(t.log.attachments[i]);
  }

  /** The exception is real: a server start marks the terminal without clearing its input. */
  lemma MarkingKeepsInput()
    ensures exists actions :: JustMarked(actions) && Run(New(false, false), actions).detached && Run(New(false, false), actions).toPty != []
  {
    hide Tick, Attach, JustMarked;
    var attach := DoAttach(Peek(false, ReadBlocked), true, Some([1]));
    var env := TickEnv(Peek(false, Data([7])), [], PtyBlocked, WriteBlocked, WriteBlocked, WriteBlocked, true);
    var t0 := New(false, false);
    var a1, a2, a3 := [attach], [attach, DoTick(env)], [attach, DoTick(env), ServerStarted];
    assert a1[..0] == [] && a2[..1] == a1 && a3[..2] == a2;
    var t1 := Step(t0, attach);
    assert Run(t0, a1) == Step(Run(t0, []), attach) == t1;
    FirstAttach(t0, [1]);
    TickReads(t1, env);
    assert Run(t0, a2) == Tick(t1, env).0;
    assert Run(t0, a3) == MarkDetached(Tick(t1, env).0);
    assert JustMarked(a3) by { LastMarks(a3); }
  }

  lemma LastMarks(actions: seq<Action>)
    requires actions != [] && actions[|actions| - 1] == ServerStarted
    ensures JustMarked(actions)
  {
  }

  lemma FirstAttach(t: State, greeting: seq<byte>)
    requires !t.peer && !t.complete
    ensures Attach(t, Peek(false, ReadBlocked), true, Some(greeting)).0 == Joined(t, greeting)
  {
  }

  lemma TickReads(t: State, env: TickEnv)
    requires t.peer && !t.detached && t.toPty == [] && !t.master && t.hello != [] && t.log.attachments != []
    requires env.peek == Peek(false, Data([7])) && env.accepts == [] && env.helloWrite.WriteBlocked?
    ensures Tick(t, env).0.toPty == [7]
  {
    hide Note, Last;
    assert Room([], [7]) == [7];
    var r := Refresh(t, env.peek);
    assert r.toPty == [7] && r.hello != [];
  }
}
