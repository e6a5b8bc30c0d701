/** The engine: eight producers, one bounded event queue, and a stop that comes last. */
module Engine {
  import opened Bytes
  import opened EngineModel
  import RelaySpec
  import RelayRuns
  import Terminals
  import TerminalSpec

  datatype Job = Job(request: nat, lifetime: bool)

  /** What the policy, system calls and channels answer to a command. `accepted` is: the
      worker or its membership slot took it, the launch took its handoff, the directory was
      resolved, the job or process was started, the terminal was resized. */
  datatype Env = Env(allowed: Command -> bool, accepted: Command -> bool, pty: bool,
                     peek: TerminalSpec.Peek, nonblocking: bool, greeting: Option<seq<byte>>, shutdown: bool, fits: bool, merged: bool)

  datatype InitMessage = Garbled | Report(message: nat) | SpawnError(id: nat) | ProcessExit(id: nat, message: nat) | Lost

  /** What the producers find in one round. */
  datatype Round = Round(
    env: Env,
    finished: bool,               // the worker thread has ended
    endpoints: bool,              // `Started` came with its endpoints
    master: bool,                 // the terminal took its PTY
    inits: seq<InitMessage>,
    accepts: seq<bool>,           // waiting connections, and whether each can be nonblocking
    foreign: RelaySpec.Foreign,
    peers: nat -> RelaySpec.Env,
    done: nat -> bool,            // which jobs' supervisors have exited
    payload: bool,                // the payload has exited
    ticks: Terminals.Id -> TerminalSpec.TickEnv)

  function One(b: bool): nat {
    if b then 1 else 0
  }

  function Hand(e: Option<WorkerEvent>): seq<WorkerEvent> {
    if e.Some? && !e.value.WorkerStopped? then [e.value] else []
  }

  /** The worker's last word. */
  predicate StopSent(sent: seq<WorkerEvent>) {
    sent != [] && sent[|sent| - 1].WorkerStopped?
  }

  predicate StopOnlyLast(sent: seq<WorkerEvent>) {
    forall i :: 0 <= i < |sent| - 1 ==> !sent[i].WorkerStopped?
  }

  /** The next result received: it follows what is out, and a stop is the last. */
  lemma ReceiveConserves(out: seq<WorkerEvent>, inbox: seq<WorkerEvent>, sent: seq<WorkerEvent>)
    requires out + Results(inbox) == Results(sent) && |inbox| <= |sent| && inbox == sent[|sent| - |inbox|..]
    requires inbox != [] && StopOnlyLast(sent)
    ensures out + Hand(Some(inbox[0])) + Results(inbox[1..]) == Results(sent)
    ensures inbox[1..] == sent[|sent| - |inbox[1..]|..]
    ensures inbox[0].WorkerStopped? ==> inbox[1..] == [] && StopSent(sent)
    ensures StopSent(sent) && inbox[1..] == [] ==> inbox[0].WorkerStopped?
  {
    hide Results;
    var rest := inbox[1..];
    assert inbox == [inbox[0]] + rest;
    ResultsFirst(inbox[0], rest);
    Assoc(out, Hand(Some(inbox[0])), Results(rest));
    assert inbox[0] == sent[|sent| - |inbox|];
  }

  predicate IsSuffix<T(==)>(a: seq<T>, b: seq<T>) {
    |a| <= |b| && a == b[|b| - |a|..]
  }

  lemma SuffixSelf<T>(a: seq<T>)
    ensures IsSuffix(a, a)
  {
  }

  lemma SuffixTail<T>(a: seq<T>, b: seq<T>)
    requires IsSuffix(a, b) && a != []
    ensures IsSuffix(a[1..], b)
  {
  }

  function InitReport(m: InitMessage): (r: seq<Event>)
    ensures |r| <= 1
  {
    match m
    case Garbled => []
    case Report(message) => [FromInit(message)]
    case SpawnError(id) => [SpawnFailed(id)]
    case ProcessExit(_, message) => [FromInit(message)]
    case Lost => [InitLost]
  }

  /** What init's messages report, while there is room, up to a limit of messages; nothing
      after the channel is lost. */
  function InitReports(inits: seq<InitMessage>, room: nat, limit: nat): seq<Event> {
    if inits == [] || room == 0 || limit == 0 then []
    else if inits[0].Lost? then InitReport(inits[0])
    else InitReport(inits[0]) + InitReports(inits[1..], room - |InitReport(inits[0])|, limit - 1)
  }

  lemma InitReportsStep(inits: seq<InitMessage>, n: nat, room: nat, limit: nat)
    requires n < |inits| && room > 0 && limit > 0
    ensures InitReports(inits[n..], room, limit) ==
            if inits[n].Lost? then InitReport(inits[n])
            else InitReport(inits[n]) + InitReports(inits[n + 1..], room - |InitReport(inits[n])|, limit - 1)
  {
    assert inits[n..][0] == inits[n] && inits[n..][1..] == inits[n + 1..];
  }

  lemma InitReportsEnd(inits: seq<InitMessage>, room: nat, limit: nat)
    requires inits == [] || room == 0 || limit == 0
    ensures InitReports(inits, room, limit) == []
  {
  }

  /** The producer at an offset of a round. */
  function Turn(cursor: nat, offset: nat): nat {
    (cursor + offset) % 8
  }

  lemma WorkerHasTurn(cursor: nat)
    ensures exists o :: 0 <= o < 8 && Turn(cursor, o) == 1
  {
    var o := (9 - cursor % 8) % 8;
    assert Turn(cursor, o) == 1;
  }

  /** One more result sent, one more to receive. */
  lemma SendConserves(out: seq<WorkerEvent>, inbox: seq<WorkerEvent>, sent: seq<WorkerEvent>, e: WorkerEvent)
    requires out + Results(inbox) == Results(sent) && |inbox| <= |sent| && inbox == sent[|sent| - |inbox|..]
    ensures out + Results(inbox + [e]) == Results(sent + [e])
    ensures inbox + [e] == (sent + [e])[|sent| - |inbox|..]
  {
    hide Results;
    ResultsAppend(sent, e);
    ResultsAppend(inbox, e);
    Assoc(out, Results(inbox), Hand(Some(e)));
  }

  /** An event queue of the same length, to lend to a producer. */
  function Blank(n: nat): seq<RelaySpec.Event> {
    seq(n, i => RelaySpec.Elsewhere)
  }

  function BlankReports(n: nat): seq<Terminals.Event> {
    seq(n, i => Terminals.Elsewhere)
  }

  /** The main terminal, held until the launch knows whether the payload has it. */
  function MainTerminal(detached: bool): Terminals.World {
    Terminals.Step(Terminals.Step(Terminals.Run([]), Terminals.Add(0, true, detached, true)), Terminals.Do(0, TerminalSpec.Hold))
  }

  lemma MainTerminalOk(detached: bool)
    ensures Terminals.Inv(MainTerminal(detached)) && MainTerminal(detached).events == []
  {
    hide Terminals.Inv, Terminals.Step;
    var w := Terminals.Run([]);
    Terminals.RunKeeps([]);
    assert w.events == [];
    var a := Terminals.Add(0, true, detached, true);
    Terminals.StepKeeps(w, a);
    Terminals.StepGrows(w, a);
    Terminals.StepKeeps(Terminals.Step(w, a), Terminals.Do(0, TerminalSpec.Hold));
    Terminals.StepGrows(Terminals.Step(w, a), Terminals.Do(0, TerminalSpec.Hold));
  }

  lemma FreshRelay()
    ensures RelayRuns.Inv(RelaySpec.Initial(), []) && RelayRuns.EmittedOf(RelaySpec.Initial().trace) == []
  {
    RelayRuns.InitialOk();
  }

  class Engine {
    // The worker's channels.
    var inbox: seq<WorkerEvent>
    var disconnected: bool
    /** The worker has said its last word. */
    var workerDone: bool
    var scopes: seq<nat>
    var published: bool

    var cancels: set<nat>
    var init: bool
    var listener: bool
    var relay: RelaySpec.World
    var exitWatch: bool
    var terminals: Terminals.World
    var capabilities: bool
    var prepared: set<nat>
    var jobs: seq<Job>
    var stopping: bool
    var events: seq<Event>
    var deferred: Deferred
    var cachedExports: map<nat, bool>
    var workerEvent: Option<WorkerEvent>
    var scopeFailure: Option<nat>
    var collectCursor: nat
    var round: nat
    var polling: bool
    var ended: bool
    var settled: bool
    var sandboxStopped: bool
    var released: bool
    var pendingStop: Option<Option<int>>

    /** Everything the worker sent, everything queued, everything handed out; whether the
        worker's stop was received, or the engine made up for its absence. */
    ghost var sent: seq<WorkerEvent>
    ghost var trace: seq<Event>
    ghost var polled: seq<Event>
    ghost var stopSeen: bool
    ghost var selfStopped: bool

    // The invariant ----------------------------------------------------------------------

    ghost predicate Queued()
      reads this`events, this`trace, this`polled
    {
      |events| <= EVENTS && trace == polled + events && StopIsLast(trace) && JobsBeforeStop(events)
    }

    /** Every result of the worker is queued or handed out, or kept, or still to be received:
        once, and in order. `hand` is one being handled. */
    ghost predicate Conserved(hand: Option<WorkerEvent>)
      reads this`trace, this`workerEvent, this`inbox, this`sent, this`stopSeen, this`workerDone
    {
      && WorkerPart(trace) + Hand(hand) + Hand(workerEvent) + Results(inbox) == Results(sent)
      && (workerEvent.Some? ==> hand.None? && workerEvent.value.Started?)
      && |inbox| <= |sent| && inbox == sent[|sent| - |inbox|..]
      && StopOnlyLast(sent) && (workerDone <==> StopSent(sent))
      && (StopSent(sent) ==> stopSeen || inbox != [] || (hand.Some? && hand.value.WorkerStopped?))
    }

    ghost predicate RelayOk()
      reads this`relay, this`trace
    {
      relay.events == [] && RelayRuns.Inv(relay, relay.peers) && RelayPart(trace) == RelayRuns.EmittedOf(relay.trace)
    }

    ghost predicate TerminalsOk()
      reads this`terminals
    {
      terminals.events == [] && Terminals.Inv(terminals)
    }

    /** A cached export belongs to an export still waiting, or to the command being dispatched;
        what a cancellation left behind is an outcome of the engine's own. */
    ghost predicate DeferredOk(current: Option<Command>)
      reads this`deferred, this`cachedExports
    {
      && (forall m :: m in cachedExports ==> Export(m) in deferred.ordered || current == Some(Export(m)))
      && (forall k :: 0 <= k < |deferred.cancelled| ==> Late(deferred.cancelled[k]))
    }

    /** The worker is done and its sandbox closed. */
    ghost predicate Quiet()
      reads this`listener, this`relay, this`inbox, this`workerEvent, this`sent, this`disconnected
    {
      !listener && relay.peers == [] && inbox == [] && workerEvent.None? && (StopSent(sent) || disconnected)
    }

    ghost predicate Winding()
      reads this`pendingStop, this`sandboxStopped, this`ended, this`stopSeen, this`selfStopped
    {
      pendingStop.Some? || sandboxStopped || ended || stopSeen || selfStopped
    }

    /** No resource of the sandbox is left. */
    ghost predicate Bare()
      reads this`relay, this`jobs, this`prepared, this`published
    {
      RelaySpec.Drained(relay) && jobs == [] && prepared == {} && !published
    }

    /** What keeps a pending stop from being sent. */
    ghost predicate Blocked()
      reads this`events, this`deferred, this`cachedExports, this`relay, this`jobs
    {
      || |events| == EVENTS || !WorkIsEmpty(deferred) || cachedExports != map[] || !RelaySpec.Drained(relay) || jobs != []
      || JobResultQueued(events)
    }

    ghost predicate StopOk()
      reads this`trace, this`pendingStop, this`stopSeen, this`selfStopped, this`settled, this`sent, this`disconnected, this`sandboxStopped, this`ended,
            this`listener, this`relay, this`inbox, this`workerEvent, this`released, this`jobs, this`prepared, this`published, this`workerDone
    {
      && Stops(trace) + One(pendingStop.Some?) == One(stopSeen) + One(selfStopped)
      && !(stopSeen && selfStopped)
      && (stopSeen || selfStopped ==> settled)
      && (stopSeen ==> StopSent(sent))
      && (selfStopped ==> disconnected && !StopSent(sent))
      && (Winding() ==> Quiet())
      && (Stops(trace) > 0 || released ==> sandboxStopped && Bare())
    }

    ghost predicate Core()
      reads this`trace, this`pendingStop, this`stopSeen, this`selfStopped, this`settled, this`sent, this`disconnected, this`sandboxStopped, this`ended,
            this`listener, this`relay, this`inbox, this`workerEvent, this`released, this`jobs, this`prepared, this`published, this`workerDone, this`events, this`polled, this`terminals
    {
      Queued() && Conserved(None) && RelayOk() && TerminalsOk() && StopOk()
    }

    ghost predicate Valid()
      reads this`trace, this`pendingStop, this`stopSeen, this`selfStopped, this`settled, this`sent, this`disconnected, this`sandboxStopped, this`ended,
            this`listener, this`relay, this`inbox, this`workerEvent, this`released, this`jobs, this`prepared, this`published, this`workerDone, this`events, this`polled, this`terminals,
            this`deferred, this`cachedExports
    {
      Core() && DeferredOk(None) && deferred.cancellations == []
    }

    constructor (detached: bool)
      ensures Valid() && events == [] && polled == [] && trace == [] && sent == [] && !disconnected && !polling
      ensures Look() == Snapshot(0, false, [], {}, false, false)
    {
      hide RelayRuns.Inv, Terminals.Inv, RelayRuns.EmittedOf, MainTerminal;
      inbox, disconnected, workerDone, scopes, published := [], false, false, [], false;
      cancels, init, listener, exitWatch, capabilities := {}, false, false, false, false;
      relay := RelaySpec.Initial();
      terminals := MainTerminal(detached);
      prepared, jobs, stopping, events := {}, [], false, [];
      deferred := Deferred([], [], [], 0, false);
      cachedExports, workerEvent, scopeFailure := map[], None, None;
      collectCursor, round, polling := 0, 0, false;
      ended, settled, sandboxStopped, released, pendingStop := false, false, false, false, None;
      sent, trace, polled, stopSeen, selfStopped := [], [], [], false, false;
      new;
      FreshRelay();
      MainTerminalOk(detached);
    }

    // Reporting --------------------------------------------------------------------------

    /** Queue an event of the engine's own; the producer has made sure there is room. */
    method Report(e: Event, ghost hand: Option<WorkerEvent> := None)
      requires |events| < EVENTS && Late(e) && Queued() && Conserved(hand) && RelayOk() && StopOk()
      modifies this`events, this`trace
      ensures Queued() && Conserved(hand) && RelayOk() && StopOk()
      ensures events == old(events) + [e] && trace == old(trace) + [e] && Stops(trace) == Stops(old(trace))
    {
      hide RelayRuns.Inv, Terminals.Inv, WorkerPart, RelayPart, Stops, Results, RelayRuns.EmittedOf, StopIsLast;
      TraceAppend(trace, e);
      StopIsLastAppend(trace, e);
      Assoc(polled, events, [e]);
      events := events + [e];
      trace := trace + [e];
      assert RelayPart(trace) == RelayPart(old(trace)) && WorkerPart(trace) == WorkerPart(old(trace));
    }

    // Tearing down ------------------------------------------------------------------------

    predicate Capability()
      reads this
    {
      !(ended || sandboxStopped || pendingStop.Some?) && published
    }

    /** Drop what must not outlive the sandbox; the publication stays while a job or its
        result still needs it. */
    method ReleaseResources()
      requires StopOk()
      modifies this`deferred, this`prepared, this`published
      ensures StopOk() && prepared == {}
      ensures deferred == old(deferred).(records := 0, closed := true)
      ensures jobs == [] && !JobResultQueued(events) ==> !published
      ensures published ==> old(published)
    {
      hide Quiet, Winding, Stops;
      deferred := deferred.(records := 0, closed := true);
      prepared := {};
      if jobs == [] && !JobResultQueued(events) {
        published := false;
      }
    }

    method CollectScopeFailure()
      requires Core()
      modifies this`events, this`trace, this`scopes, this`scopeFailure
      ensures Core() && (events == old(events) || exists n :: events == old(events) + [ScopeFailed(n)])
      ensures Stops(trace) == Stops(old(trace)) && old(trace) <= trace && |old(events)| <= |events|
    {
      hide Queued, Conserved, RelayOk, TerminalsOk, StopOk;
      if scopeFailure.None? && scopes != [] {
        scopeFailure := Some(scopes[0]);
        scopes := scopes[1..];
      }
      if |events| < EVENTS && scopeFailure.Some? {
        var name := scopeFailure.value;
        scopeFailure := None;
        Report(ScopeFailed(name));
      }
    }

    /** Send `Stopped`, when nothing of the sandbox is left and nothing is owed before it. */
    method FinishStop()
      requires Core()
      modifies this`events, this`trace, this`scopes, this`scopeFailure, this`deferred, this`prepared, this`published, this`sandboxStopped, this`pendingStop
      ensures Core() && deferred == old(deferred).(records := deferred.records, closed := deferred.closed) && (old(sandboxStopped) ==> sandboxStopped)
      ensures |old(events)| <= |events|
      ensures Stops(trace) > Stops(old(trace)) ==>
                jobs == [] && !JobResultQueued(old(events)) && RelaySpec.Drained(relay) && WorkIsEmpty(deferred) && cachedExports == map[] && sandboxStopped
      ensures pendingStop.Some? ==> Blocked()
      ensures old(pendingStop).Some? && pendingStop.None? ==> events != [] && events[|events| - 1] == Stopped(old(pendingStop).value)
    {
      hide Queued, Conserved, RelayOk, TerminalsOk, StopOk, Stops;
      CollectScopeFailure();
      assert forall i :: 0 <= i < |old(events)| ==> events[i] == old(events)[i];
      if |events| < EVENTS && WorkIsEmpty(deferred) && cachedExports == map[] && RelaySpec.Drained(relay) && pendingStop.Some? && jobs == []
         && !JobResultQueued(events) {
        ReleaseResources();
        StopNow();
      }
      CoreBound();
    }

    method StopNow()
      requires Core() && |events| < EVENTS && pendingStop.Some? && Bare() && !JobResultQueued(events)
      modifies this`events, this`trace, this`sandboxStopped, this`pendingStop
      ensures Core() && sandboxStopped && pendingStop.None? && events == old(events) + [Stopped(old(pendingStop).value)]
    {
      hide RelayRuns.Inv, Terminals.Inv, WorkerPart, RelayPart, Stops, Results, RelayRuns.EmittedOf, StopIsLast, Queued, Conserved, RelayOk, TerminalsOk, Quiet;
      var code := pendingStop.value;
      assert Stops(trace) == 0 && StopOk();
      ReportStop(code);
      sandboxStopped := true;
      pendingStop := None;
    }

    /** The last lifecycle event. */
    method ReportStop(code: Option<int>)
      requires |events| < EVENTS && Stops(trace) == 0 && !JobResultQueued(events)
      requires Queued() && Conserved(None) && RelayOk()
      modifies this`events, this`trace
      ensures Queued() && Conserved(None) && RelayOk() && Stops(trace) == 1 && events == old(events) + [Stopped(code)]
    {
      hide RelayRuns.Inv, Terminals.Inv, WorkerPart, RelayPart, Stops, Results, RelayRuns.EmittedOf, StopIsLast;
      var e := Stopped(code);
      TraceAppend(trace, e);
      StopIsLastAppend(trace, e);
      Assoc(polled, events, [e]);
      events := events + [e];
      trace := trace + [e];
      assert RelayPart(trace) == RelayPart(old(trace)) && WorkerPart(trace) == WorkerPart(old(trace));
    }

    // The relay and the terminals -----------------------------------------------------------

    /** Take over what the relay did with the queue it was lent. */
    method Absorb(after: RelaySpec.World)
      requires Queued() && RelayOk()
      requires RelayRuns.Inv(after, after.peers) && RelayRuns.Grows(relay.(events := Blank(|events|)), after)
      requires Stops(trace) > 0 ==> |after.events| == |events|
      modifies this`relay, this`events, this`trace
      ensures Queued() && RelayOk() && relay == after.(events := [])
      ensures WorkerPart(trace) == WorkerPart(old(trace)) && Stops(trace) == Stops(old(trace)) && old(events) <= events
    {
      hide RelayRuns.Inv, Terminals.Inv, WorkerPart, RelayPart, Stops, Results, RelayRuns.EmittedOf, StopIsLast;
      var added := after.events[|events|..];
      WrapParts(trace, added);
      RelayRuns.EventsChange(after, after.(events := []));
      Assoc(polled, events, Wrap(added));
      assert |after.events| <= EVENTS by { RelayBound(after); }
      events := events + Wrap(added);
      trace := trace + Wrap(added);
      relay := after.(events := []);
    }

    lemma RelayBound(after: RelaySpec.World)
      requires RelayRuns.Inv(after, after.peers)
      ensures |after.events| <= EVENTS
    {
    }

    /** The relay with a queue as full as the engine's. */
    method Lend() returns (lent: RelaySpec.World)
      requires Queued() && RelayOk()
      ensures lent == relay.(events := Blank(|events|)) && RelayRuns.Inv(lent, lent.peers)
    {
      lent := relay.(events := Blank(|events|));
      RelayRuns.EventsChange(relay, lent);
    }

    /** Close every connection. */
    method EndRelay()
      requires Queued() && RelayOk() && (Stops(trace) > 0 ==> RelaySpec.Drained(relay))
      modifies this`relay, this`events, this`trace
      ensures Queued() && RelayOk() && relay.peers == [] && (RelaySpec.Drained(old(relay)) ==> relay == old(relay))
      ensures relay == RelaySpec.End(old(relay).(events := Blank(|old(events)|))).(events := []) && old(events) <= events
      ensures WorkerPart(trace) == WorkerPart(old(trace)) && Stops(trace) == Stops(old(trace))
    {
      hide RelayRuns.Inv, Terminals.Inv, WorkerPart, RelayPart, Stops, Results, RelayRuns.EmittedOf, StopIsLast, Queued;
      var lent := Lend();
      RelayRuns.EndKeeps(lent);
      RelayRuns.EndGrows(lent);
      Absorb(RelaySpec.End(lent));
    }

    /** Let the terminals act; attach and detach are called with room for an event. */
    method UseTerminals(a: Terminals.Action)
      requires Core() && !a.TakeEvent? && !a.OtherEvent?
      requires a.Attach? || a.Detach? ==> |events| < EVENTS
      modifies this`terminals, this`events, this`trace
      ensures Core() && |old(events)| <= |events|
      ensures a.Attach? || a.Detach? ==> |events| <= |old(events)| + 1
      ensures a.Add? || a.Drop? || a.Exit? || a.Do? ==> events == old(events) && trace == old(trace)
      ensures terminals == Terminals.Step(old(terminals).(events := BlankReports(|old(events)|)), a).(events := [])
    {
      hide Terminals.Inv, Terminals.Step, Queued, Conserved, RelayOk, StopOk;
      CoreBound();
      var lent := terminals.(events := BlankReports(|events|));
      TerminalsEvents(terminals, lent);
      Terminals.StepKeeps(lent, a);
      Terminals.StepGrows(lent, a);
      var after := Terminals.Step(lent, a);
      TerminalsEvents(after, after.(events := []));
      AppendReports(after.events[|events|..]);
      terminals := after.(events := []);
    }

    method AppendReports(added: seq<Terminals.Event>)
      requires |events| + |added| <= EVENTS && Queued() && Conserved(None) && RelayOk() && StopOk()
      modifies this`events, this`trace
      ensures Queued() && Conserved(None) && RelayOk() && StopOk()
      ensures events == old(events) + WrapReports(added) && trace == old(trace) + WrapReports(added)
      ensures |added| == 0 ==> events == old(events) && trace == old(trace)
    {
      hide RelayRuns.Inv, Terminals.Inv, WorkerPart, RelayPart, Stops, Results, RelayRuns.EmittedOf, StopIsLast;
      WrapReportsParts(trace, added);
      Assoc(polled, events, WrapReports(added));
      assert |added| == 0 ==> events + WrapReports(added) == events && trace + WrapReports(added) == trace;
      events := events + WrapReports(added);
      trace := trace + WrapReports(added);
    }

    lemma TerminalsEvents(w: Terminals.World, v: Terminals.World)
      requires Terminals.Inv(w) && v == w.(events := v.events) && |v.events| <= EVENTS
      ensures Terminals.Inv(v) && |w.events| <= EVENTS
    {
    }

    // Commands -----------------------------------------------------------------------------

    /** Materialize the exports accepted so far, before teardown takes the capability. */
    method PreserveExports()
      modifies this`cachedExports
      ensures forall m :: m in cachedExports ==> m in old(cachedExports) || Export(m) in deferred.ordered
      ensures forall m :: Export(m) in deferred.ordered ==> m in cachedExports
      ensures forall m :: m in old(cachedExports) ==> m in cachedExports && cachedExports[m] == old(cachedExports)[m]
      ensures forall m :: m in cachedExports && m !in old(cachedExports) ==> cachedExports[m] == Capability()
    {
      var ordered := deferred.ordered;
      for i := 0 to |ordered|
        invariant forall m :: m in cachedExports ==> m in old(cachedExports) || Export(m) in ordered
        invariant forall k :: 0 <= k < i && ordered[k].Export? ==> ordered[k].member in cachedExports
        invariant forall m :: m in old(cachedExports) ==> m in cachedExports && cachedExports[m] == old(cachedExports)[m]
        invariant forall m :: m in cachedExports && m !in old(cachedExports) ==> cachedExports[m] == Capability()
      {
        if ordered[i].Export? && ordered[i].member !in cachedExports {
          cachedExports := cachedExports[ordered[i].member := Capability()];
        }
      }
    }

    /** Stop: cancel the worker's tokens, forget prepared directories, let jobs go. */
    method SendStop()
      requires StopOk()
      modifies this`deferred, this`cachedExports, this`cancels, this`stopping, this`prepared, this`jobs
      ensures StopOk() && deferred == old(deferred).(records := 0, closed := true) && prepared == {} && stopping
      ensures forall m :: m in cachedExports ==> m in old(cachedExports) || Export(m) in deferred.ordered
      ensures forall m :: Export(m) in deferred.ordered ==> m in cachedExports
      ensures |jobs| == |old(jobs)| && forall i :: 0 <= i < |jobs| ==> jobs[i] == Job(old(jobs)[i].request, false)
    {
      hide Queued, Conserved, RelayOk, TerminalsOk, StopOk;
      deferred := deferred.(records := 0, closed := true);
      PreserveExports();
      StopWork();
    }

    method StopWork()
      requires StopOk()
      modifies this`cancels, this`stopping, this`prepared, this`jobs
      ensures StopOk() && prepared == {} && stopping && cancels == {}
      ensures |jobs| == |old(jobs)| && forall i :: 0 <= i < |jobs| ==> jobs[i] == Job(old(jobs)[i].request, false)
    {
      hide Queued, Conserved, RelayOk, TerminalsOk, Quiet, Winding, Stops;
      cancels, stopping, prepared := {}, true, {};
      var all := jobs;
      jobs := seq(|all|, i requires 0 <= i < |all| => Job(all[i].request, false));
    }

    /** A command the goblin may not be sent fails it closed. */
    method Dispatch(c: Command, env: Env) returns (ok: bool)
      requires Core() && DeferredOk(Some(c)) && (|events| + 2 <= EVENTS || Direct(c))
      modifies this`events, this`trace, this`deferred, this`cachedExports, this`prepared, this`jobs, this`relay, this`terminals, this`cancels, this`stopping
      ensures Core() && deferred == old(deferred).(records := deferred.records, closed := deferred.closed)
      ensures DeferredOk(if ok then None else Some(c))
      ensures |old(events)| <= |events| && (Direct(c) ==> events == old(events))
      ensures Gated(c) && !(capabilities && env.allowed(c)) ==> ok && events == old(events) + [Failed] && stopping && prepared == {}
      ensures c.Stop? || c.ScopeFailure? ==> ok && stopping && prepared == {}
      ensures c.Export? ==>
                ok && events == old(events) + [Exported(c.member, if c.member in old(cachedExports) then old(cachedExports)[c.member] else Capability())]
    {
      hide Queued, Conserved, RelayOk, TerminalsOk, StopOk;
      if Direct(c) {
        ok := DispatchDirect(c, env);
      } else if Gated(c) && !(capabilities && env.allowed(c)) {
        FailClosed();
        ok := true;
      } else {
        ok := DispatchWork(c, env);
      }
    }

    /** Report a failure and stop. */
    method FailClosed()
      requires Core() && |events| < EVENTS
      modifies this`events, this`trace, this`deferred, this`cachedExports, this`cancels, this`stopping, this`prepared, this`jobs
      ensures Core() && deferred == old(deferred).(records := 0, closed := true)
      ensures forall m :: m in cachedExports ==> m in old(cachedExports) || Export(m) in deferred.ordered
      ensures events == old(events) + [Failed] && stopping && prepared == {}
    {
      hide Queued, Conserved, RelayOk, TerminalsOk, StopOk;
      Report(Failed);
      SendStop();
    }

    /** Commands that report nothing; they need no room. */
    method DispatchDirect(c: Command, env: Env) returns (ok: bool)
      requires Core() && DeferredOk(Some(c)) && Direct(c)
      modifies this`deferred, this`cachedExports, this`prepared, this`jobs, this`relay, this`cancels, this`stopping
      ensures Core() && deferred == old(deferred).(records := deferred.records, closed := deferred.closed)
      ensures DeferredOk(if ok then None else Some(c))
      ensures c.Stop? || c.ScopeFailure? ==> ok && stopping && prepared == {}
    {
      hide Queued, Conserved, RelayOk, TerminalsOk, StopOk;
      ok := true;
      match c {
        case Record =>
        case SandboxSend(connection, message) => SendToPeer(connection, message);
        case SandboxClose(connection) => ClosePeer(connection);
        case ScopeFailure => SendStop();
        case ScopeMembership => ok := stopping || env.accepted(c);
        case Cancel(id) => cancels := cancels - {id};
        case Stop => StopWork();
        case CancelProcess(_) =>
        case CancelJob(request) => CancelHostJob(request);
      }
    }

    /** Commands that may report one event. */
    method DispatchWork(c: Command, env: Env) returns (ok: bool)
      requires Core() && DeferredOk(Some(c)) && |events| + 2 <= EVENTS && !Direct(c)
      modifies this`events, this`trace, this`deferred, this`cachedExports, this`prepared, this`jobs, this`terminals, this`cancels, this`stopping
      ensures Core() && deferred == old(deferred).(records := deferred.records, closed := deferred.closed)
      ensures DeferredOk(if ok then None else Some(c)) && |old(events)| <= |events|
      ensures c.Export? ==>
                ok && events == old(events) + [Exported(c.member, if c.member in old(cachedExports) then old(cachedExports)[c.member] else Capability())]
    {
      hide Queued, Conserved, RelayOk, TerminalsOk, StopOk;
      ok := true;
      match c {
        case Attach(_) => DispatchTerminal(c, env);
        case Detach(_) => DispatchTerminal(c, env);
        case Resize(_) => DispatchTerminal(c, env);
        case Spawn(_) => DispatchTerminal(c, env);
        case Signal(_) =>
        case KillAll =>
        case Export(member) => DispatchExport(member);
        case Start => if !env.accepted(c) { FailClosed(); }
        case PrepareJob(_) => DispatchJob(c, env.accepted(c));
        case RunJob(_) => DispatchJob(c, env.accepted(c));
        case Nix(id, _) => ok := SendToWorker(c, env.accepted(c));
      }
    }

    method DispatchJob(c: Command, accepted: bool)
      requires Core() && |events| < EVENTS && (c.PrepareJob? || c.RunJob?)
      modifies this`events, this`trace, this`prepared, this`jobs
      ensures Core() && |old(events)| <= |events|
    {
      hide Queued, Conserved, RelayOk, TerminalsOk, StopOk;
      match c {
        case PrepareJob(request) => PrepareHostJob(request, accepted);
        case RunJob(request) => RunHostJob(request, accepted);
      }
    }

    method DispatchTerminal(c: Command, env: Env)
      requires Core() && |events| + 2 <= EVENTS && (c.Attach? || c.Detach? || c.Resize? || c.Spawn?)
      modifies this`events, this`trace, this`terminals
      ensures Core() && |old(events)| <= |events|
    {
      hide Terminals.Step, RelaySpec.End, Queued, Conserved, RelayOk, TerminalsOk, StopOk;
      match c {
        case Attach(terminal) => UseTerminals(Terminals.Attach(terminal, env.peek, env.nonblocking, env.greeting));
        case Detach(terminal) => UseTerminals(Terminals.Detach(terminal, env.shutdown));
        case Resize(terminal) =>
          var k := Terminals.Find(terminals.entries, terminal);
          if k < |terminals.entries| && !env.accepted(c) {
            Report(FromTerminal(Terminals.Report(terminal, Terminals.StatusOf(terminals.entries[k].io), true)));
          }
        case Spawn(id) =>
          if !init || !env.accepted(c) {
            Report(SpawnFailed(id));
          } else if env.pty {
            UseTerminals(Terminals.Add(id + 1, false, false, false));
            UseTerminals(Terminals.Do(id + 1, TerminalSpec.SetMaster));
          }
      }
    }

    method SendToPeer(connection: nat, message: RelaySpec.Message)
      requires Core()
      modifies this`relay
      ensures Core() && relay == RelaySpec.Send(old(relay), connection, message)
    {
      hide RelayRuns.Inv, Terminals.Inv, WorkerPart, RelayPart, Stops, Results, RelayRuns.EmittedOf, StopIsLast, Queued, Conserved, TerminalsOk, RelaySpec.SendPeer;
      RelayRuns.SendKeeps(relay, connection, message);
      RelayRuns.SendGrows(relay, connection, message);
      relay := RelaySpec.Send(relay, connection, message);
    }

    method ClosePeer(connection: nat)
      requires Core()
      modifies this`relay
      ensures Core() && relay == RelaySpec.Close(old(relay), connection)
    {
      hide RelayRuns.Inv, Terminals.Inv, WorkerPart, RelayPart, Stops, Results, RelayRuns.EmittedOf, StopIsLast, Queued, Conserved, TerminalsOk;
      RelayRuns.CloseKeeps(relay, connection);
      relay := RelaySpec.Close(relay, connection);
    }

    /** The result preserved at a stop, or the capability now. */
    method DispatchExport(member: nat)
      requires Core() && DeferredOk(Some(Export(member))) && |events| < EVENTS
      modifies this`events, this`trace, this`cachedExports
      ensures Core() && DeferredOk(None)
      ensures events == old(events) + [Exported(member, if member in old(cachedExports) then old(cachedExports)[member] else Capability())]
    {
      hide Queued, Conserved, RelayOk, TerminalsOk, StopOk;
      var ok := if member in cachedExports then cachedExports[member] else Capability();
      cachedExports := cachedExports - {member};
      Report(Exported(member, ok));
    }

    /** A directory is pinned only while the goblin has its capability. */
    method PrepareHostJob(request: nat, resolved: bool)
      requires Core() && |events| < EVENTS
      modifies this`events, this`trace, this`prepared
      ensures Core()
      ensures request in prepared && request !in old(prepared) ==> Capability()
      ensures events == old(events) + [HostJobPrepared(request, old(Capability()) && resolved)]
    {
      hide Queued, Conserved, RelayOk, TerminalsOk, Quiet, Stops;
      var ok := Capability() && resolved;
      if ok {
        prepared := prepared + {request};
      }
      Report(HostJobPrepared(request, ok));
    }

    /** A job runs only from a prepared directory, and only with the capability. */
    method RunHostJob(request: nat, started: bool)
      requires Core() && |events| < EVENTS
      modifies this`events, this`trace, this`prepared, this`jobs
      ensures Core()
      ensures jobs != old(jobs) ==> jobs == old(jobs) + [Job(request, true)] && request in old(prepared) && Capability()
      ensures events == if jobs == old(jobs) then old(events) + [HostJobFailed(request)] else old(events)
    {
      hide Queued, Conserved, RelayOk, TerminalsOk, Quiet, Stops;
      var known := request in prepared;
      prepared := prepared - {request};
      if known && Capability() && started {
        jobs := jobs + [Job(request, true)];
      } else {
        Report(HostJobFailed(request));
      }
    }

    method CancelHostJob(request: nat)
      requires Core()
      modifies this`prepared, this`jobs
      ensures Core() && |jobs| == |old(jobs)| && prepared == old(prepared) - {request}
    {
      hide Queued, Conserved, RelayOk, TerminalsOk, Quiet, Stops;
      prepared := prepared - {request};
      for i := 0 to |jobs|
        invariant jobs == old(jobs)
      {
        if jobs[i].request == request {
          jobs := jobs[i := jobs[i].(lifetime := false)];
          return;
        }
      }
    }

    /** Work for the worker; once its last word is in, the outcome is reported here. */
    method SendToWorker(c: Command, taken: bool) returns (ok: bool)
      requires Core() && |events| < EVENTS && c.Nix?
      modifies this`events, this`trace, this`cancels
      ensures Core() && (ok <==> events != old(events) || taken)
      ensures events == old(events) || events == old(events) + [Cancelled(c)]
    {
      hide Queued, Conserved, RelayOk, TerminalsOk, StopOk;
      if pendingStop.Some? || ended || sandboxStopped {
        Report(Cancelled(c));
        return true;
      }
      if taken && c.cancelId.Some? {
        cancels := cancels + {c.cancelId.value};
      }
      return taken;
    }

    /** The runtime's interface: accept a command, or hand it back. */
    method Send(c: Command, env: Env) returns (ok: bool)
      requires Valid()
      modifies this`events, this`trace, this`deferred, this`cachedExports, this`prepared, this`jobs, this`relay, this`terminals, this`cancels, this`stopping
      ensures Valid()
      ensures c.Stop? || c.ScopeFailure? ==> ok && stopping && prepared == {} && forall m :: Export(m) in deferred.ordered ==> m in cachedExports
      ensures c.Cancel? || c.CancelProcess? || c.CancelJob? ==> ok && deferred.cancellations == []
    {
      hide Queued, Conserved, RelayOk, TerminalsOk, StopOk;
      match c {
        case Cancel(_) => ok := SendCancellation(c, env);
        case CancelProcess(_) => ok := SendCancellation(c, env);
        case CancelJob(_) => ok := SendCancellation(c, env);
        case Stop =>
          SendStop();
          ok := true;
        case ScopeFailure =>
          SendStop();
          ok := true;
        case SandboxSend(_, _) => ok := Dispatch(c, env);
        case SandboxClose(_) => ok := Dispatch(c, env);
        case ScopeMembership => ok := Dispatch(c, env);
        case Record => ok := Defer(c, env);
        case _ => ok := DispatchOrDefer(c, env);
      }
    }

    /** At once if there is room for what it may report and nothing waits before it. */
    method DispatchOrDefer(c: Command, env: Env) returns (ok: bool)
      requires Valid() && !Direct(c)
      modifies this`events, this`trace, this`deferred, this`cachedExports, this`prepared, this`jobs, this`relay, this`terminals, this`cancels, this`stopping
      ensures Valid()
    {
      hide Queued, Conserved, RelayOk, TerminalsOk, StopOk;
      if |events| + 2 > EVENTS || !WorkIsEmpty(deferred) {
        ok := Defer(c, env);
      } else {
        ok := Dispatch(c, env);
      }
    }

    method Defer(c: Command, env: Env) returns (ok: bool)
      requires Valid() && !c.Cancel? && !c.CancelProcess? && !c.CancelJob?
      modifies this`deferred
      ensures Valid()
    {
      hide Queued, Conserved, RelayOk, TerminalsOk, StopOk, Push;
      var d := Push(deferred, c, env.fits, env.merged);
      ok := d.Some?;
      if ok {
        PushExports(c, env);
        deferred := d.value;
      }
    }

    lemma PushExports(c: Command, env: Env)
      requires Push(deferred, c, env.fits, env.merged).Some?
      ensures forall m :: Export(m) in deferred.ordered ==> Export(m) in Push(deferred, c, env.fits, env.merged).value.ordered
      ensures !c.Cancel? && !c.CancelProcess? && !c.CancelJob? ==>
                Push(deferred, c, env.fits, env.merged).value.cancellations == deferred.cancellations
      ensures (forall k :: 0 <= k < |deferred.cancelled| ==> Late(deferred.cancelled[k])) ==>
                var after := Push(deferred, c, env.fits, env.merged).value.cancelled;
                forall k :: 0 <= k < |after| ==> Late(after[k])
    {
      OutcomesAreLate(deferred.ordered, c);
      forall m | Export(m) in deferred.ordered ensures Export(m) in Push(deferred, c, env.fits, env.merged).value.ordered {
        KeptExports(deferred.ordered, c, m);
      }
    }

    /** A cancellation withdraws queued work at once, or is passed on at once. */
    method SendCancellation(c: Command, env: Env) returns (ok: bool)
      requires Valid() && (c.Cancel? || c.CancelProcess? || c.CancelJob?)
      modifies this`events, this`trace, this`deferred, this`cachedExports, this`prepared, this`jobs, this`relay, this`terminals, this`cancels, this`stopping
      ensures Valid() && ok && deferred.cancellations == []
    {
      hide Queued, Conserved, RelayOk, TerminalsOk, StopOk, Push;
      var d := Push(deferred, c, env.fits, env.merged);
      ok := true;
      PushCancels(deferred, c, env);
      PushExports(c, env);
      deferred := d.value;
      while deferred.cancellations != []
        invariant Core() && DeferredOk(None)
        invariant forall k :: 0 <= k < |deferred.cancellations| ==> deferred.cancellations[k] == c
        decreases |deferred.cancellations|
      {
        var next := deferred.cancellations[0];
        deferred := deferred.(cancellations := deferred.cancellations[1..]);
        var done := Dispatch(next, env);
      }
    }

    lemma PushCancels(d: Deferred, c: Command, env: Env)
      requires d.cancellations == [] && (c.Cancel? || c.CancelProcess? || c.CancelJob?)
      ensures var p := Push(d, c, env.fits, env.merged);
              p.Some? && forall k :: 0 <= k < |p.value.cancellations| ==> p.value.cancellations[k] == c
    {
    }

    // Producers ---------------------------------------------------------------------------

    /** Deferred outcomes and commands, while there is room for what a command may report. */
    method CollectDeferred(env: Env)
      requires Valid()
      modifies this`events, this`trace, this`deferred, this`cachedExports, this`prepared, this`jobs, this`relay, this`terminals, this`cancels, this`stopping
      ensures Valid() && |old(events)| <= |events|
      ensures IsSuffix(deferred.ordered, old(deferred).ordered) && IsSuffix(deferred.cancelled, old(deferred).cancelled)
      ensures deferred.ordered != old(deferred).ordered ==> deferred.cancelled == []
    {
      hide Valid, IsSuffix;
      SuffixSelf(deferred.ordered);
      SuffixSelf(deferred.cancelled);
      for n := 0 to EVENTS
        invariant Valid() && |old(events)| <= |events|
        invariant IsSuffix(deferred.ordered, old(deferred).ordered) && IsSuffix(deferred.cancelled, old(deferred).cancelled)
        invariant deferred.ordered != old(deferred).ordered ==> deferred.cancelled == []
      {
        BoundHolds();
        if |events| == EVENTS {
          return;
        }
        if deferred.cancelled != [] {
          SuffixTail(deferred.cancelled, old(deferred).cancelled);
          ReportOutcome();
        } else {
          if |events| + 2 > EVENTS || deferred.ordered == [] {
            return;
          }
          SuffixTail(deferred.ordered, old(deferred).ordered);
          var more := DispatchNext(env);
          if !more {
            return;
          }
        }
      }
    }

    /** The oldest outcome a cancellation left. */
    method ReportOutcome()
      requires Valid() && |events| < EVENTS && deferred.cancelled != []
      modifies this`events, this`trace, this`deferred
      ensures Valid() && events == old(events) + [old(deferred).cancelled[0]]
      ensures deferred == old(deferred).(cancelled := old(deferred).cancelled[1..])
    {
      hide Queued, Conserved, RelayOk, TerminalsOk, StopOk;
      var event := deferred.cancelled[0];
      deferred := deferred.(cancelled := deferred.cancelled[1..]);
      Report(event);
    }

    /** The oldest deferred command; one that is refused goes back where it was. */
    method DispatchNext(env: Env) returns (more: bool)
      requires Valid() && |events| + 2 <= EVENTS && deferred.ordered != []
      modifies this`events, this`trace, this`deferred, this`cachedExports, this`prepared, this`jobs, this`relay, this`terminals, this`cancels, this`stopping
      ensures Valid() && deferred.cancelled == old(deferred).cancelled && |old(events)| <= |events|
      ensures deferred.ordered == if more then old(deferred).ordered[1..] else old(deferred).ordered
    {
      hide Queued, Conserved, RelayOk, TerminalsOk, StopOk;
      var c := deferred.ordered[0];
      deferred := deferred.(ordered := deferred.ordered[1..]);
      more := Dispatch(c, env);
      if !more {
        deferred := deferred.(ordered := [c] + deferred.ordered);
      }
    }

    lemma BoundHolds()
      requires Valid()
      ensures |events| <= EVENTS
    {
    }

    lemma CoreBound()
      requires Core()
      ensures |events| <= EVENTS
    {
    }

    /** Take the result kept from the last round, or the next one received. */
    method TakeResult() returns (e: Option<WorkerEvent>)
      requires Core()
      modifies this`workerEvent, this`inbox
      ensures Queued() && RelayOk() && TerminalsOk() && StopOk() && Conserved(e)
      ensures e == (if old(workerEvent).Some? then old(workerEvent) else if old(inbox) != [] then Some(old(inbox)[0]) else None)
      ensures e.None? ==> inbox == [] && workerEvent.None? && Core()
      ensures e.Some? ==> !Winding() && workerEvent.None? && (e.value.WorkerStopped? ==> inbox == [] && StopSent(sent))
    {
      hide RelayRuns.Inv, Terminals.Inv, WorkerPart, RelayPart, Stops, Results, RelayRuns.EmittedOf, StopIsLast, Queued, RelayOk, TerminalsOk;
      if workerEvent.Some? {
        e := workerEvent;
        workerEvent := None;
      } else if inbox != [] {
        e := Some(inbox[0]);
        assert WorkerPart(trace) + Hand(None) + Hand(None) == WorkerPart(trace);
        ReceiveConserves(WorkerPart(trace), inbox, sent);
        assert WorkerPart(trace) + Hand(e) + Hand(None) == WorkerPart(trace) + Hand(e);
        inbox := inbox[1..];
      } else {
        e := None;
      }
    }

    /** Queue a result of the worker. */
    method ReportResult(e: WorkerEvent)
      requires |events| < EVENTS && !e.WorkerStopped? && Stops(trace) == 0
      requires Queued() && RelayOk() && TerminalsOk() && StopOk() && Conserved(Some(e))
      modifies this`events, this`trace
      ensures Core() && events == old(events) + [FromWorker(e)]
    {
      hide RelayRuns.Inv, Terminals.Inv, WorkerPart, RelayPart, Stops, Results, RelayRuns.EmittedOf, StopIsLast;
      TraceAppend(trace, FromWorker(e));
      StopIsLastAppend(trace, FromWorker(e));
      Assoc(polled, events, [FromWorker(e)]);
      events := events + [FromWorker(e)];
      trace := trace + [FromWorker(e)];
      assert RelayPart(trace) == RelayPart(old(trace));
      assert WorkerPart(trace) == WorkerPart(old(trace)) + [e];
    }

    /** Keep a result for the next round. */
    method Stash(e: WorkerEvent)
      requires e.Started? && workerEvent.None? && !Winding()
      requires Queued() && RelayOk() && TerminalsOk() && StopOk() && Conserved(Some(e))
      modifies this`workerEvent
      ensures Core() && workerEvent == Some(e)
    {
      hide RelayRuns.Inv, Terminals.Inv, WorkerPart, RelayPart, Stops, Results, RelayRuns.EmittedOf, StopIsLast, Queued, RelayOk, TerminalsOk;
      workerEvent := Some(e);
      assert WorkerPart(trace) + Hand(None) == WorkerPart(trace);
      assert WorkerPart(trace) + Hand(Some(e)) + Hand(None) == WorkerPart(trace) + Hand(Some(e));
    }

    /** Terminal steps that report nothing. */
    method NoteTerminals(a: Terminals.Action)
      requires TerminalsOk() && (a.Add? || a.Drop? || a.Exit? || a.Do?)
      modifies this`terminals
      ensures TerminalsOk() && terminals == Terminals.Step(old(terminals), a)
    {
      hide Terminals.Inv, Terminals.Step;
      Terminals.StepKeeps(terminals, a);
      Terminals.StepGrows(terminals, a);
      terminals := Terminals.Step(terminals, a);
    }

    /** The worker's last word: everything of the sandbox is let go, and `Stopped` waits. */
    method ReceiveStop(code: Option<int>)
      requires !Winding() && workerEvent.None? && inbox == [] && StopSent(sent)
      requires Queued() && RelayOk() && TerminalsOk() && StopOk() && Conserved(Some(WorkerStopped(code)))
      modifies this`events, this`trace, this`relay, this`terminals, this`deferred, this`prepared, this`published, this`pendingStop, this`settled,
               this`listener, this`stopSeen
      ensures Core() && pendingStop == Some(code) && deferred == old(deferred).(records := 0, closed := true)
      ensures !listener && relay.peers == [] && |old(events)| <= |events|
    {
      hide Terminals.Step, RelaySpec.End, Queued, Conserved, RelayOk, TerminalsOk, StopOk;
      ReleaseResources();
      if !capabilities {
        NoteTerminals(Terminals.Do(0, TerminalSpec.FailedStart));
      }
      CloseSandbox(Some(WorkerStopped(code)));
      SettleStop(code);
    }

    /** No more connections, and closures for those there are. */
    method CloseSandbox(ghost hand: Option<WorkerEvent>)
      requires Queued() && RelayOk() && StopOk() && Conserved(hand)
      modifies this`events, this`trace, this`relay, this`listener
      ensures Queued() && RelayOk() && StopOk() && Conserved(hand) && !listener && relay.peers == []
      ensures Stops(trace) == Stops(old(trace)) && old(events) <= events
    {
      hide RelayRuns.Inv, Terminals.Inv, WorkerPart, RelayPart, Stops, Results, RelayRuns.EmittedOf, StopIsLast, Queued, RelayOk, Winding, Conserved;
      listener := false;
      EndRelay();
      ConservedStill(hand);
    }

    /** Events that are not results leave the account of results alone. */
    twostate lemma ConservedStill(hand: Option<WorkerEvent>)
      requires old(Conserved(hand)) && WorkerPart(trace) == WorkerPart(old(trace))
      requires unchanged(this`workerEvent, this`inbox, this`sent, this`stopSeen, this`workerDone)
      ensures Conserved(hand)
    {
      hide WorkerPart, Results;
    }

    method SettleStop(code: Option<int>)
      requires !Winding() && Quiet() && StopSent(sent) && StopOk() && Conserved(Some(WorkerStopped(code)))
      modifies this`pendingStop, this`settled, this`stopSeen
      ensures StopOk() && Conserved(None) && pendingStop == Some(code)
    {
      hide RelayRuns.Inv, Terminals.Inv, WorkerPart, RelayPart, Stops, Results, RelayRuns.EmittedOf, StopIsLast;
      settled, stopSeen := true, true;
      pendingStop := Some(code);
    }

    /** The endpoints that come with `Started`. */
    method ReceiveEndpoints(e: WorkerEvent, r: Round)
      requires e.Started? && |events| + 2 <= EVENTS && !Winding() && workerEvent.None?
      requires Queued() && RelayOk() && TerminalsOk() && StopOk() && Conserved(Some(e)) && DeferredOk(None)
      modifies this`events, this`trace, this`terminals, this`deferred, this`cachedExports, this`cancels, this`stopping, this`prepared, this`jobs,
               this`init, this`exitWatch, this`listener
      ensures Queued() && RelayOk() && TerminalsOk() && StopOk() && Conserved(Some(e)) && DeferredOk(None)
      ensures |old(events)| <= |events| < EVENTS && Stops(trace) == Stops(old(trace)) && deferred.cancellations == old(deferred).cancellations
    {
      hide Terminals.Step, RelaySpec.End, Queued, Conserved, RelayOk, TerminalsOk, StopOk;
      if r.endpoints {
        if !r.master {
          Report(Failed, Some(e));
          SendStop();
        } else {
          NoteTerminals(Terminals.Do(0, if e.server then TerminalSpec.ServerStarted else TerminalSpec.SetMaster));
        }
        OpenEndpoints();
      }
    }

    method OpenEndpoints()
      requires StopOk() && !Winding()
      modifies this`init, this`exitWatch, this`listener
      ensures StopOk()
    {
      hide Stops;
      init, exitWatch, listener := true, true, true;
    }

    /** One result of the worker, with what it means for the engine. */
    method HandleResult(e: WorkerEvent, r: Round) returns (stashed: bool)
      requires |events| < EVENTS && !Winding() && workerEvent.None? && (e.WorkerStopped? ==> inbox == [] && StopSent(sent))
      requires Queued() && RelayOk() && TerminalsOk() && StopOk() && Conserved(Some(e)) && DeferredOk(None) && deferred.cancellations == []
      modifies this`events, this`trace, this`terminals, this`deferred, this`cachedExports, this`cancels, this`stopping, this`prepared, this`jobs,
               this`init, this`exitWatch, this`listener, this`workerEvent, this`capabilities, this`settled, this`relay, this`published,
               this`pendingStop, this`stopSeen
      ensures Valid() && |old(events)| <= |events|
      ensures stashed <==> e.Started? && |old(events)| + 2 > EVENTS
      ensures !stashed ==> workerEvent == old(workerEvent)
      ensures !stashed && !e.WorkerStopped? ==> |events| > |old(events)| && events[|events| - 1] == FromWorker(e)
      ensures e.WorkerStopped? ==> pendingStop == Some(e.code) && !listener && relay.peers == []
    {
      hide Terminals.Step, RelaySpec.End, Queued, Conserved, RelayOk, TerminalsOk, StopOk;
      stashed := false;
      assert Stops(trace) == 0 by { NotWindingNoStop(); }
      match e {
        case Started(_) =>
          if |events| + 2 > EVENTS {
            Stash(e);
            return true;
          }
          capabilities := true;
          ReceiveEndpoints(e, r);
        case Preview(id) => cancels := cancels - {id};
        case Refresh(id) => cancels := cancels - {id};
        case Call(id) => cancels := cancels - {id};
        case Mode(server) => NoteTerminals(Terminals.Do(0, if server then TerminalSpec.RefuseAll else TerminalSpec.Release));
        case WorkerFailed =>
          Settle();
          NoteTerminals(Terminals.Do(0, TerminalSpec.FailedStart));
        case WorkerStopped(code) =>
          ReceiveStop(code);
          return;
        case OtherResult(_) =>
      }
      ReportResult(e);
    }

    lemma NotWindingNoStop()
      requires StopOk() && !Winding()
      ensures Stops(trace) == 0
    {
    }

    method Settle()
      requires StopOk()
      modifies this`settled
      ensures StopOk()
    {
      hide Stops;
      settled := true;
    }

    /** The worker is gone: without a final result, the engine makes up a failure and a stop. */
    method ObserveDisconnect(r: Round)
      requires Valid() && |events| < EVENTS && disconnected && inbox == [] && workerEvent.None?
      modifies this`events, this`trace, this`terminals, this`deferred, this`prepared, this`published, this`listener, this`relay, this`ended,
               this`settled, this`pendingStop, this`sandboxStopped, this`selfStopped
      ensures Valid() && (old(sandboxStopped) ==> sandboxStopped) && old(events) <= events
      ensures r.finished ==> ended && settled && !listener && relay.peers == [] && (pendingStop.Some? || sandboxStopped)
      ensures r.finished && !old(settled) ==> pendingStop == Some(None) && |events| > |old(events)| && events[|old(events)|] == Failed
      ensures !r.finished ==> events == old(events) && pendingStop == old(pendingStop)
    {
      hide Queued, Conserved, RelayOk, TerminalsOk, StopOk;
      if r.finished {
        TearDown();
      }
      SettleEnd(r.finished);
    }

    method TearDown()
      requires Valid() && |events| < EVENTS
      modifies this`events, this`trace, this`terminals, this`deferred, this`prepared, this`published, this`listener, this`relay
      ensures Valid() && !listener && relay.peers == []
      ensures old(events) <= events && (!settled ==> |events| > |old(events)| && events[|old(events)|] == Failed)
    {
      hide Terminals.Step, RelaySpec.End, Queued, Conserved, RelayOk, TerminalsOk, StopOk;
      ReleaseResources();
      if !settled {
        Report(Failed);
      }
      if !capabilities {
        NoteTerminals(Terminals.Do(0, TerminalSpec.FailedStart));
      }
      CloseSandbox(None);
    }

    method SettleEnd(finished: bool)
      requires StopOk() && Conserved(None) && disconnected && inbox == [] && workerEvent.None?
      requires finished ==> !listener && relay.peers == []
      modifies this`ended, this`settled, this`pendingStop, this`sandboxStopped, this`selfStopped
      ensures StopOk() && (old(sandboxStopped) ==> sandboxStopped)
      ensures finished ==> ended && settled && (pendingStop.Some? || sandboxStopped)
      ensures finished && !old(settled) ==> pendingStop == Some(None)
      ensures !finished ==> pendingStop == old(pendingStop)
    {
      hide RelayRuns.Inv, Terminals.Inv, WorkerPart, RelayPart, Stops, Results, RelayRuns.EmittedOf, StopIsLast, Conserved;
      StopIsSeen();
      ended := finished;
      if finished {
        if !settled {
          settled, selfStopped := true, true;
          pendingStop := Some(None);
        } else if pendingStop.None? {
          sandboxStopped := true;
        }
      }
    }

    lemma StopIsSeen()
      requires Conserved(None) && inbox == []
      ensures StopSent(sent) ==> stopSeen
    {
    }

    method CollectWorker(r: Round)
      requires Valid()
      modifies this`events, this`trace, this`terminals, this`deferred, this`cachedExports, this`cancels, this`stopping, this`prepared, this`jobs,
               this`init, this`exitWatch, this`listener, this`workerEvent, this`capabilities, this`settled, this`relay, this`published,
               this`pendingStop, this`stopSeen, this`inbox, this`ended, this`sandboxStopped, this`selfStopped, this`scopes, this`scopeFailure
      ensures Valid() && (old(sandboxStopped) ==> sandboxStopped)
      ensures |old(events)| <= |events| && (events == [] ==> inbox == [] && workerEvent.None?)
    {
      hide Valid;
      for n := 0 to EVENTS
        invariant Valid() && (old(sandboxStopped) ==> sandboxStopped)
        invariant |old(events)| <= |events| && (n > 0 ==> (events == [] ==> inbox == [] && workerEvent.None?))
      {
        var more := ReceiveOne(r);
        if !more {
          break;
        }
      }
      TakeScopeFailure();
    }

    method TakeScopeFailure()
      requires Valid()
      modifies this`events, this`trace, this`scopes, this`scopeFailure
      ensures Valid() && |old(events)| <= |events|
    {
      hide Queued, Conserved, RelayOk, TerminalsOk, StopOk;
      CollectScopeFailure();
    }

    /** One result, if there is one and room for it. */
    method ReceiveOne(r: Round) returns (more: bool)
      requires Valid()
      modifies this`events, this`trace, this`terminals, this`deferred, this`cachedExports, this`cancels, this`stopping, this`prepared, this`jobs,
               this`init, this`exitWatch, this`listener, this`workerEvent, this`capabilities, this`settled, this`relay, this`published,
               this`pendingStop, this`stopSeen, this`inbox, this`ended, this`sandboxStopped, this`selfStopped, this`scopes, this`scopeFailure
      ensures Valid() && (old(sandboxStopped) ==> sandboxStopped)
      ensures |old(events)| <= |events| && (events == [] ==> inbox == [] && workerEvent.None?)
    {
      hide Queued, Conserved, RelayOk, TerminalsOk, StopOk;
      CoreBound();
      if |events| == EVENTS {
        return false;
      }
      var e := TakeResult();
      if e.None? {
        if disconnected {
          ObserveDisconnect(r);
        }
        return false;
      }
      var stashed := HandleResult(e.value, r);
      return !stashed;
    }

    /** New connections while there is room, then one turn of the relay. */
    method CollectSandbox(r: Round)
      requires Core()
      modifies this`events, this`trace, this`relay
      ensures Core() && |old(events)| <= |events|
    {
      hide Queued, Conserved, RelayOk, TerminalsOk, StopOk;
      for n := 0 to 8
        invariant Core() && |old(events)| <= |events|
      {
        CoreBound();
        if |events| == EVENTS || !listener || n >= |r.accepts| {
          break;
        }
        OpenPeer(r.accepts[n]);
      }
      if capabilities {
        TickRelay(r);
      }
    }

    method OpenPeer(nonblocking: bool)
      requires Core() && listener && |events| < EVENTS
      modifies this`events, this`trace, this`relay
      ensures |old(events)| <= |events|
      ensures Core() && relay == RelaySpec.Open(old(relay).(events := Blank(|old(events)|)), nonblocking).(events := [])
    {
      hide RelayRuns.Inv, Terminals.Inv, WorkerPart, RelayPart, Stops, Results, RelayRuns.EmittedOf, StopIsLast, Queued, TerminalsOk, Conserved, RelayRuns.Grows, RelaySpec.Open;
      assert !Winding();
      var lent := Lend();
      RelayRuns.OpenKeeps(lent, nonblocking);
      RelayRuns.OpenGrows(lent, nonblocking);
      Absorb(RelaySpec.Open(lent, nonblocking));
      ConservedStill(None);
    }

    method TickRelay(r: Round)
      requires Core()
      modifies this`events, this`trace, this`relay
      ensures |old(events)| <= |events|
      ensures Core() && relay == RelaySpec.Tick(old(relay).(events := Blank(|old(events)|)), r.foreign, stopping, r.peers).(events := [])
    {
      hide RelayRuns.Inv, Terminals.Inv, WorkerPart, RelayPart, Stops, Results, RelayRuns.EmittedOf, StopIsLast, Queued, TerminalsOk, Conserved, RelayRuns.Grows, RelaySpec.Tick;
      var lent := Lend();
      RelayRuns.TickKeeps(lent, r.foreign, stopping, r.peers);
      RelayRuns.TickGrows(lent, r.foreign, stopping, r.peers);
      Absorb(RelaySpec.Tick(lent, r.foreign, stopping, r.peers));
      ConservedStill(None);
    }

    method CollectPayload(r: Round)
      requires Core()
      modifies this`events, this`trace, this`exitWatch
      ensures Core()
      ensures events == old(events) + (if |old(events)| < EVENTS && old(exitWatch) && r.payload then [PayloadExited] else [])
      ensures exitWatch == (old(exitWatch) && events == old(events))
    {
      hide Queued, Conserved, RelayOk, TerminalsOk, StopOk;
      if |events| < EVENTS && exitWatch && r.payload {
        exitWatch := false;
        Report(PayloadExited);
      }
    }

    /** Init's messages, at most 256 of them and only while there is room. */
    method ReceiveInit(r: Round)
      requires Core()
      modifies this`events, this`trace, this`terminals, this`init
      ensures Core() && |old(events)| <= EVENTS
      ensures events == old(events) + (if old(init) then InitReports(r.inits, EVENTS - |old(events)|, 256) else [])
      ensures init ==> old(init)
    {
      hide Queued, Conserved, RelayOk, TerminalsOk, StopOk, InitReports, InitReport;
      CoreBound();
      if !init {
        return;
      }
      ghost var all := InitReports(r.inits, EVENTS - |events|, 256);
      assert r.inits[0..] == r.inits;
      for n := 0 to 256
        invariant Core() && init && n <= |r.inits| && |events| <= EVENTS
        invariant old(events) + all == events + InitReports(r.inits[n..], EVENTS - |events|, 256 - n)
      {
        if |events| == EVENTS || n == |r.inits| {
          InitReportsEnd(r.inits[n..], EVENTS - |events|, 256 - n);
          return;
        }
        InitReportsStep(r.inits, n, EVENTS - |events|, 256 - n);
        Assoc(events, InitReport(r.inits[n]), InitReports(r.inits[n + 1..], EVENTS - |events| - |InitReport(r.inits[n])|, 256 - n - 1));
        TakeInit(r.inits[n]);
        if !init {
          return;
        }
      }
      InitReportsEnd(r.inits[256..], EVENTS - |events|, 0);
    }

    /** One message of init. */
    method TakeInit(m: InitMessage)
      requires Core() && |events| < EVENTS
      modifies this`events, this`trace, this`terminals, this`init
      ensures Core() && events == old(events) + InitReport(m) && init == (old(init) && !m.Lost?)
    {
      hide Queued, Conserved, RelayOk, TerminalsOk, StopOk, Terminals.Step;
      match m {
        case Garbled =>
        case Report(message) => Report(FromInit(message));
        case SpawnError(id) =>
          NoteTerminals(Terminals.Drop(id + 1));
          Report(SpawnFailed(id));
        case ProcessExit(id, message) =>
          NoteTerminals(Terminals.Exit(id + 1));
          Report(FromInit(message));
        case Lost =>
          init := false;
          LoseInit();
          Report(InitLost);
      }
    }

    /** Every process counts as ended. */
    method LoseInit()
      requires TerminalsOk()
      modifies this`terminals
      ensures TerminalsOk()
    {
      hide Terminals.Step, RelaySpec.End, TerminalsOk;
      var ids := Terminals.Ids(terminals.entries);
      for i := 0 to |ids|
        invariant TerminalsOk()
      {
        if ids[i] > 0 {
          NoteTerminals(Terminals.Exit(ids[i]));
        }
      }
    }

    /** Jobs whose supervisor has exited: each leaves with its result, as far as there is room. */
    method FinishHostJobs(r: Round)
      requires Core()
      modifies this`events, this`trace, this`jobs
      ensures Core()
      ensures old(events) <= events && |events| - |old(events)| == |old(jobs)| - |jobs|
      ensures forall k :: |old(events)| <= k < |events| ==> events[k].HostJobFinished? && r.done(events[k].request)
      ensures |events| < EVENTS ==> forall k :: 0 <= k < |jobs| ==> !r.done(jobs[k].request)
      ensures forall k :: 0 <= k < |jobs| ==> jobs[k] in old(jobs)
    {
      hide Queued, Conserved, RelayOk, TerminalsOk, StopOk;
      var index := 0;
      while index < |jobs|
        invariant Core() && 0 <= index <= |jobs|
        invariant old(events) <= events && |events| - |old(events)| == |old(jobs)| - |jobs|
        invariant forall k :: |old(events)| <= k < |events| ==> events[k].HostJobFinished? && r.done(events[k].request)
        invariant forall k :: 0 <= k < index ==> !r.done(jobs[k].request)
        invariant forall k :: 0 <= k < |jobs| ==> jobs[k] in old(jobs)
        decreases |jobs| - index
      {
        CoreBound();
        if |events| == EVENTS {
          return;
        }
        if !r.done(jobs[index].request) {
          index := index + 1;
        } else {
          var job := jobs[index];
          ForgetJob(index);
          Report(HostJobFinished(job.request));
        }
      }
    }

    method ForgetJob(index: nat)
      requires StopOk() && index < |jobs|
      modifies this`jobs
      ensures StopOk() && jobs == old(jobs)[..index] + old(jobs)[index + 1..]
    {
      hide Stops;
      jobs := jobs[..index] + jobs[index + 1..];
    }

    /** One round over all producers, starting with a different one each time. */
    method Collect(r: Round)
      requires Valid()
      modifies this`events, this`trace, this`terminals, this`deferred, this`cachedExports, this`cancels, this`stopping, this`prepared, this`jobs,
               this`init, this`exitWatch, this`listener, this`workerEvent, this`capabilities, this`settled, this`relay, this`published,
               this`pendingStop, this`stopSeen, this`inbox, this`ended, this`sandboxStopped, this`selfStopped, this`scopes, this`scopeFailure,
               this`collectCursor
      ensures Valid() && (old(sandboxStopped) ==> sandboxStopped) && collectCursor == (old(collectCursor) + 1) % 8
      ensures (events == [] ==> inbox == [] && workerEvent.None?) && (pendingStop.Some? ==> Blocked())
    {
      hide Valid, Blocked;
      if ended {
        Forget();
      }
      for offset := 0 to 8
        invariant Valid() && (old(sandboxStopped) ==> sandboxStopped) && collectCursor == old(collectCursor)
        invariant (exists o :: 0 <= o < offset && Turn(collectCursor, o) == 1) ==> (events == [] ==> inbox == [] && workerEvent.None?)
      {
        Produce(Turn(collectCursor, offset), r);
      }
      WorkerHasTurn(collectCursor);
      collectCursor := (collectCursor + 1) % 8;
      // Final lifecycle follows all producers in this round.
      Produce(8, r);
    }

    method Forget()
      requires Valid()
      modifies this`deferred, this`prepared, this`published
      ensures Valid()
    {
      hide Queued, Conserved, RelayOk, TerminalsOk, StopOk;
      ReleaseResources();
    }

    /** One producer of a round. */
    method Produce(k: nat, r: Round)
      requires Valid()
      modifies this`events, this`trace, this`terminals, this`deferred, this`cachedExports, this`cancels, this`stopping, this`prepared, this`jobs,
               this`init, this`exitWatch, this`listener, this`workerEvent, this`capabilities, this`settled, this`relay, this`published,
               this`pendingStop, this`stopSeen, this`inbox, this`ended, this`sandboxStopped, this`selfStopped, this`scopes, this`scopeFailure
      ensures Valid() && (old(sandboxStopped) ==> sandboxStopped) && |old(events)| <= |events|
      ensures if k == 1 then (events == [] ==> inbox == [] && workerEvent.None?) else inbox == old(inbox) && workerEvent == old(workerEvent)
      ensures k == 8 && pendingStop.Some? ==> Blocked()
    {
      hide Queued, Conserved, RelayOk, TerminalsOk, StopOk, Terminals.Step;
      match k {
        case 0 => CollectDeferred(r.env);
        case 1 => CollectWorker(r);
        case 6 => CollectTerminals(r);
        case 8 => FinishRound();
        case _ => CollectOther(k, r);
      }
    }

    /** Producers that leave the lifecycle alone. */
    method CollectOther(k: nat, r: Round)
      requires Core()
      modifies this`events, this`trace, this`terminals, this`jobs, this`init, this`exitWatch, this`relay, this`scopes, this`scopeFailure
      ensures Core() && |old(events)| <= |events|
    {
      hide Queued, Conserved, RelayOk, TerminalsOk, StopOk;
      match k {
        case 2 => CollectScopeFailure();
        case 3 => ReceiveInit(r);
        case 4 => CollectSandbox(r);
        case 5 => FinishHostJobs(r);
        case _ => CollectPayload(r);
      }
    }

    method CollectTerminals(r: Round)
      requires Valid()
      modifies this`events, this`trace, this`scopes, this`scopeFailure, this`deferred, this`prepared, this`published, this`sandboxStopped,
               this`pendingStop, this`terminals
      ensures Valid() && (old(sandboxStopped) ==> sandboxStopped) && |old(events)| <= |events|
    {
      hide Queued, Conserved, RelayOk, TerminalsOk, StopOk, Terminals.Step, Stops, JobResultQueued;
      FinishStop();
      UseTerminals(Terminals.Round(ended, r.ticks));
    }

    /** The final lifecycle event, then one diagnostic record. */
    method FinishRound()
      requires Valid()
      modifies this`events, this`trace, this`scopes, this`scopeFailure, this`deferred, this`prepared, this`published, this`sandboxStopped,
               this`pendingStop
      ensures Valid() && (old(sandboxStopped) ==> sandboxStopped) && |old(events)| <= |events| && (pendingStop.Some? ==> Blocked())
    {
      hide Queued, Conserved, RelayOk, TerminalsOk, StopOk, Stops, JobResultQueued;
      FinishStop();
      if deferred.records > 0 {
        deferred := deferred.(records := deferred.records - 1);
      }
    }

    /** Hand out the next event of the round; an empty, finished engine is released. */
    method Poll(r: Round) returns (event: Option<Event>)
      requires Valid()
      modifies this
      ensures Valid() && sent == old(sent) && disconnected == old(disconnected)
      ensures polled == old(polled) + (if event.Some? then [event.value] else [])
      ensures old(released) ==> released
      ensures released && !old(released) ==> event.None?
      ensures polling == event.Some?
      // Between the answers of a round nothing is collected.
      ensures old(polling) ==> inbox == old(inbox) && |events| == |old(events)| - (if event.Some? then 1 else 0)
      // A round that starts with nothing to hand out has found nothing, and a stop it leaves waits for something.
      ensures !old(polling) && event.None? ==> events == [] && inbox == [] && workerEvent.None? && (pendingStop.Some? ==> Blocked())
    {
      hide Valid, Blocked;
      if !polling {
        Collect(r);
        polling, round := true, 0;
      }
      event := Answer();
    }

    /** The next answer of a round. */
    method Answer() returns (event: Option<Event>)
      requires Valid()
      modifies this`events, this`polled, this`round, this`polling, this`released
      ensures Valid() && polled == old(polled) + (if event.Some? then [event.value] else [])
      ensures event.Some? <==> old(round) != EVENTS && old(events) != []
      ensures events == if event.Some? then old(events)[1..] else old(events)
      ensures polling == event.Some? && (old(released) ==> released) && (released && !old(released) ==> event.None?)
    {
      hide Valid, IsEmpty, RelaySpec.Drained;
      event := NextEvent();
      polling := event.Some?;
      if event.None? {
        TryRelease();
      }
    }

    method NextEvent() returns (event: Option<Event>)
      requires Valid()
      modifies this`events, this`polled, this`round
      ensures Valid() && polled == old(polled) + (if event.Some? then [event.value] else [])
      ensures event.Some? <==> old(round) != EVENTS && old(events) != []
      ensures events == if event.Some? then old(events)[1..] else old(events)
    {
      hide Queued, Conserved, RelayOk, TerminalsOk, StopOk;
      if round == EVENTS || events == [] {
        return None;
      }
      event := Some(events[0]);
      PopEvent();
      round := round + 1;
    }

    method TryRelease()
      requires Valid()
      modifies this`released
      ensures Valid()
      ensures released <==>
                old(released)
                || (events == [] && scopeFailure.None? && RelaySpec.Drained(relay) && sandboxStopped && IsEmpty(deferred) && cachedExports == map[]
                    && workerEvent.None? && jobs == [] && prepared == {} && !published)
    {
      hide Queued, Conserved, RelayOk, TerminalsOk, StopOk;
      if events == [] && scopeFailure.None? && RelaySpec.Drained(relay) && sandboxStopped && IsEmpty(deferred) && cachedExports == map[]
         && workerEvent.None? && jobs == [] && prepared == {} && !published {
        SetReleased();
      }
    }

    method PopEvent()
      requires Queued() && events != []
      modifies this`events, this`polled
      ensures Queued() && events == old(events)[1..] && polled == old(polled) + [old(events)[0]]
    {
      assert events == [events[0]] + events[1..];
      Assoc(polled, [events[0]], events[1..]);
      polled := polled + [events[0]];
      events := events[1..];
    }

    method SetReleased()
      requires StopOk() && sandboxStopped && Bare()
      modifies this`released
      ensures StopOk() && released
    {
      hide Stops;
      released := true;
    }

    // The worker's side -----------------------------------------------------------------------

    /** The worker sends results until its stop or its end. */
    method WorkerSends(e: WorkerEvent) returns (ok: bool)
      requires Valid()
      modifies this`inbox, this`sent, this`workerDone
      ensures Valid() && sent == old(sent) + (if ok then [e] else [])
      ensures ok <==> !disconnected && !StopSent(old(sent))
    {
      hide Queued, RelayOk, TerminalsOk, Conserved, StopOk;
      DoneIsSent();
      ok := !disconnected && !workerDone;
      if ok {
        AliveIsRunning();
        inbox := inbox + [e];
        sent := sent + [e];
        workerDone := e.WorkerStopped?;
        SentConserved(e);
        SentStops();
      }
    }

    lemma DoneIsSent()
      requires Conserved(None)
      ensures workerDone <==> StopSent(sent)
    {
    }

    lemma AliveIsRunning()
      requires StopOk() && !disconnected && !StopSent(sent)
      ensures !Winding()
    {
    }

    twostate lemma SentConserved(e: WorkerEvent)
      requires old(Conserved(None)) && !old(workerDone) && unchanged(this`trace, this`workerEvent, this`stopSeen)
      requires inbox == old(inbox) + [e] && sent == old(sent) + [e] && workerDone == e.WorkerStopped?
      ensures Conserved(None)
    {
      hide WorkerPart, Results;
      SendConserves(WorkerPart(trace) + Hand(None) + Hand(workerEvent), old(inbox), old(sent), e);
    }

    twostate lemma SentStops()
      requires old(StopOk()) && !old(Winding())
      requires unchanged(this`trace, this`pendingStop, this`stopSeen, this`selfStopped, this`settled, this`disconnected, this`sandboxStopped)
      requires unchanged(this`ended, this`listener, this`relay, this`workerEvent, this`released, this`jobs, this`prepared, this`published)
      ensures StopOk()
    {
      hide Stops;
    }

    /** The worker publishes its capability while it lives. */
    method WorkerPublishes()
      requires Valid()
      modifies this`published
      ensures Valid()
    {
      hide RelayRuns.Inv, Terminals.Inv, WorkerPart, RelayPart, Stops, Results, RelayRuns.EmittedOf, StopIsLast, Queued, RelayOk, TerminalsOk;
      if !disconnected && !workerDone {
        published := true;
      }
    }

    method WorkerLeaves()
      requires Valid()
      modifies this`disconnected
      ensures Valid() && disconnected
    {
      hide RelayRuns.Inv, Terminals.Inv, WorkerPart, RelayPart, Stops, Results, RelayRuns.EmittedOf, StopIsLast, Queued, RelayOk, TerminalsOk, Conserved;
      disconnected := true;
    }

    method ScopeFails(name: nat)
      requires Valid()
      modifies this`scopes
      ensures Valid()
    {
      hide Valid;
      scopes := scopes + [name];
    }

    /** What is visible between two steps. */
    function Look(): Snapshot
      reads this
    {
      Snapshot(|events|, released, jobs, prepared, published, Busy())
    }

    predicate Busy()
      reads this
    {
      !WorkIsEmpty(deferred) || cachedExports != map[] || !RelaySpec.Drained(relay)
    }

    lemma Visible()
      requires Valid()
      ensures |events| <= EVENTS
      ensures released ==> jobs == [] && prepared == {} && !published
    {
    }

    // What a valid engine has handed out ------------------------------------------------------

    /** Results come out once each and in order; `Stopped` at most once and after all of the
        worker's and the relay's events. */
    lemma HandedOut()
      requires Valid()
      ensures WorkerPart(polled) <= Results(sent)
      ensures events == [] && workerEvent.None? && inbox == [] ==> WorkerPart(polled) == Results(sent)
      ensures Stops(polled) <= 1 && StopIsLast(polled)
      ensures released || Stops(polled) > 0 ==> jobs == [] && prepared == {} && !published && sandboxStopped
    {
      hide RelayRuns.Inv, Terminals.Inv, WorkerPart, RelayPart, Stops, Results, RelayRuns.EmittedOf;
      PartsAppend(polled, events);
      Assoc(WorkerPart(polled), WorkerPart(events), Hand(workerEvent) + Results(inbox));
      assert WorkerPart(trace) + Hand(None) == WorkerPart(trace);
      Assoc(WorkerPart(trace), Hand(workerEvent), Results(inbox));
      PartsNone();
      ResultsNone();
      assert WorkerPart(polled) + [] == WorkerPart(polled);
      assert forall i :: 0 <= i < |polled| ==> trace[i] == polled[i];
    }

    /** A poll that starts a round and finds nothing has handed out everything. */
    lemma HasDelivered(script: seq<Action>, answers: seq<Option<Event>>, answer: Option<Event>)
      requires Valid() && |script| == |answers| && sent == SentBy(script)
      requires polled == HandedIn(answers) + (if answer.Some? then [answer.value] else [])
      requires StartsRound(script, answers) && answer.None? ==>
                 events == [] && inbox == [] && workerEvent.None? && (pendingStop.Some? ==> Blocked())
      ensures Delivered(script, answers, answer, Look())
    {
      hide RelayRuns.Inv, Terminals.Inv, WorkerPart, RelayPart, Stops, Results, RelayRuns.EmittedOf, SentBy, HandedIn, StartsRound;
      HandedOut();
      PartsAppend(HandedIn(answers), if answer.Some? then [answer.value] else []);
      if StartsRound(script, answers) && answer.None? {
        assert HandedIn(answers) + [] == HandedIn(answers);
        assert trace == polled;
      }
    }

    lemma IsBare(answers: seq<Option<Event>>)
      requires Valid() && polled == HandedIn(answers)
      ensures BareOnceStopped(answers, Look())
    {
      hide Valid, HandedIn, Stops;
      HandedOut();
    }

    /** Once `Stopped` is out, every connection that was opened has been closed before it. */
    lemma ClosedBeforeStop(c: nat)
      requires Valid() && Stops(polled) > 0 && RelaySpec.SandboxOpened(c) in RelayPart(polled)
      ensures RelaySpec.SandboxClosed(c) in RelayPart(polled)
    {
      hide RelayRuns.Inv, Terminals.Inv, WorkerPart, RelayPart, Stops, Results, RelayRuns.EmittedOf;
      PartsAppend(polled, events);
      var i := StopIsThere(polled);
      assert trace[i] == polled[i];
      forall k | 0 <= k < |events| ensures Late(events[k]) {
        assert trace[|polled| + k] == events[k];
      }
      LateHasNoRelay(events);
      assert RelayPart(polled) + [] == RelayPart(polled);
      RelayRuns.DrainedEmittedClosures(relay, c);
    }
  }

  // Whole runs ----------------------------------------------------------------------------------

  datatype Action =
    | DoSend(command: Command, env: Env)
    | DoPoll(found: Round)
    | DoWorkerSend(result: WorkerEvent)
    | DoPublish
    | DoWorkerLeave
    | DoScopeFail(name: nat)

  predicate HasLeft(script: seq<Action>) {
    exists i :: 0 <= i < |script| && script[i].DoWorkerLeave?
  }

  /** What the worker has sent after a script: its results up to its stop or its end. */
  function SentBy(script: seq<Action>): seq<WorkerEvent> {
    if script == [] then []
    else
      var init, last := script[..|script| - 1], script[|script| - 1];
      if last.DoWorkerSend? && !HasLeft(init) && !StopSent(SentBy(init)) then SentBy(init) + [last.result] else SentBy(init)
  }

  /** The events among some answers, in order. */
  function HandedIn(answers: seq<Option<Event>>): seq<Event> {
    if answers == [] then []
    else
      var last := answers[|answers| - 1];
      HandedIn(answers[..|answers| - 1]) + (if last.Some? then [last.value] else [])
  }

  /** The next poll starts a round: the last one, if any, found nothing more. */
  predicate StartsRound(script: seq<Action>, answers: seq<Option<Event>>)
    requires |script| == |answers|
  {
    script == [] ||
    if script[|script| - 1].DoPoll? then answers[|answers| - 1].None?
    else StartsRound(script[..|script| - 1], answers[..|answers| - 1])
  }

  /** What is visible of an engine between two steps; `busy`: it has work, exports or closures left. */
  datatype Snapshot = Snapshot(queued: nat, released: bool, jobs: seq<Job>, prepared: set<nat>, published: bool, busy: bool)

  /** Results come out in the order sent, each once; a round that finds nothing to hand out has
      handed out all of them, and `Stopped` too if the worker sent it and the engine is not busy. */
  predicate Delivered(script: seq<Action>, answers: seq<Option<Event>>, answer: Option<Event>, after: Snapshot)
    requires |script| == |answers|
  {
    && WorkerPart(HandedIn(answers)) <= Results(SentBy(script))
    && (StartsRound(script, answers) && answer.None? ==>
          && WorkerPart(HandedIn(answers)) == Results(SentBy(script))
          && (StopSent(SentBy(script)) ==> Stops(HandedIn(answers)) == 1 || after.busy || after.jobs != []))
  }

  /** Once `Stopped` is handed out there is no job, prepared directory or publication. */
  predicate BareOnceStopped(answers: seq<Option<Event>>, now: Snapshot) {
    Stops(HandedIn(answers)) > 0 ==> now.jobs == [] && now.prepared == {} && !now.published
  }

  /** What one step may do to what is visible. */
  predicate Follows(a: Action, starts: bool, answer: Option<Event>, before: Snapshot, after: Snapshot) {
    && after.queued <= EVENTS
    && (before.released ==> after.released)
    && (after.released ==> after.jobs == [] && after.prepared == {} && !after.published)
    && (!before.released && after.released ==> a.DoPoll? && answer.None?)
    && (a.DoPoll? && !starts ==> after.queued == before.queued - (if answer.Some? then 1 else 0))
    && (!a.DoPoll? ==> answer.None?)
    && (a.DoWorkerSend? || a.DoWorkerLeave? || a.DoPublish? || a.DoScopeFail? ==> after.queued == before.queued)
  }

  lemma HandedAppend(answers: seq<Option<Event>>, a: Option<Event>)
    ensures HandedIn(answers + [a]) == HandedIn(answers) + (if a.Some? then [a.value] else [])
  {
    assert (answers + [a])[..|answers + [a]| - 1] == answers;
  }

  lemma SentAppend(script: seq<Action>, i: nat)
    requires i < |script|
    ensures SentBy(script[..i + 1]) ==
            if script[i].DoWorkerSend? && !HasLeft(script[..i]) && !StopSent(SentBy(script[..i]))
            then SentBy(script[..i]) + [script[i].result] else SentBy(script[..i])
    ensures HasLeft(script[..i + 1]) <==> HasLeft(script[..i]) || script[i].DoWorkerLeave?
  {
    assert script[..i + 1][..i] == script[..i] && script[..i + 1] == script[..i] + [script[i]];
  }

  lemma RoundAppend(script: seq<Action>, answers: seq<Option<Event>>, i: nat, a: Option<Event>)
    requires i < |script| && |answers| == i
    ensures StartsRound(script[..i + 1], answers + [a]) <==> if script[i].DoPoll? then a.None? else StartsRound(script[..i], answers)
  {
    assert script[..i + 1][..i] == script[..i] && (answers + [a])[..i] == answers;
  }

  /** One step of a script on an engine. */
  method StepScript(engine: Engine, a: Action) returns (answer: Option<Event>)
    requires engine.Valid()
    modifies engine
    ensures engine.Valid()
    ensures engine.polled == old(engine.polled) + (if answer.Some? then [answer.value] else [])
    ensures engine.sent == old(engine.sent) + (if a.DoWorkerSend? && !old(engine.disconnected) && !StopSent(old(engine.sent)) then [a.result] else [])
    ensures engine.disconnected == (old(engine.disconnected) || a.DoWorkerLeave?)
    ensures engine.polling == (if a.DoPoll? then answer.Some? else old(engine.polling))
    ensures Follows(a, !old(engine.polling), answer, old(engine.Look()), engine.Look())
    ensures a.DoPoll? && !old(engine.polling) && answer.None? ==>
              engine.events == [] && engine.inbox == [] && engine.workerEvent.None? && (engine.pendingStop.Some? ==> engine.Blocked())
  {
    hide Engine.Valid, Engine.Blocked;
    answer := None;
    engine.Visible();
    match a {
      case DoSend(c, env) => var ok := engine.Send(c, env);
      case DoPoll(r) => answer := engine.Poll(r);
      case DoWorkerSend(e) => var ok := engine.WorkerSends(e);
      case DoPublish => engine.WorkerPublishes();
      case DoWorkerLeave => engine.WorkerLeaves();
      case DoScopeFail(name) => engine.ScopeFails(name);
    }
    engine.Visible();
  }

  /** Any interleaving of commands, polls and the worker's steps, with the answer to every poll
      (none for another step) and what is visible after every step. No assertion of the engine
      fails on the way. The answers hold the worker's results in the order sent, each once; a
      round that finds nothing has handed out all results sent so far. `Stopped` comes at most
      once, after everything of the worker and the relay, when every opened connection has been
      closed. The queue never exceeds its capacity, and an engine once released stays so,
      without job, prepared directory or capability. */
  method RunScript(detached: bool, script: seq<Action>) returns (answers: seq<Option<Event>>, states: seq<Snapshot>)
    ensures |answers| == |script| && |states| == |script| + 1
    ensures forall i :: 0 <= i < |script| && script[i].DoPoll? ==> Delivered(script[..i], answers[..i], answers[i], states[i + 1])
    ensures forall i :: 0 <= i < |script| ==> Follows(script[i], StartsRound(script[..i], answers[..i]), answers[i], states[i], states[i + 1])
    ensures forall i :: 0 <= i <= |script| ==> BareOnceStopped(answers[..i], states[i])
    ensures states[0] == Snapshot(0, false, [], {}, false, false)
    ensures WorkerPart(HandedIn(answers)) <= Results(SentBy(script))
    ensures Stops(HandedIn(answers)) <= 1 && StopIsLast(HandedIn(answers))
    ensures forall c ::
              Stops(HandedIn(answers)) > 0 && RelaySpec.SandboxOpened(c) in RelayPart(HandedIn(answers)) ==>
                RelaySpec.SandboxClosed(c) in RelayPart(HandedIn(answers))
  {
    hide Engine.Valid, Engine.Blocked, Delivered, Follows, SentBy, HandedIn, StartsRound, BareOnceStopped;
    var engine := new Engine(detached);
    answers := [];
    states := [engine.Look()];
    EmptyScript();
    assert script[..0] == [] && answers[..0] == [];
    engine.IsBare(answers);
    for i := 0 to |script|
      invariant fresh(engine) && engine.Valid() && |answers| == i && |states| == i + 1
      invariant engine.polled == HandedIn(answers) && engine.sent == SentBy(script[..i])
      invariant engine.disconnected <==> HasLeft(script[..i])
      invariant engine.polling <==> !StartsRound(script[..i], answers)
      invariant states[i] == engine.Look() && states[0] == Snapshot(0, false, [], {}, false, false)
      invariant forall k :: 0 <= k < i && script[k].DoPoll? ==> Delivered(script[..k], answers[..k], answers[k], states[k + 1])
      invariant forall k :: 0 <= k < i ==> Follows(script[k], StartsRound(script[..k], answers[..k]), answers[k], states[k], states[k + 1])
      invariant forall k :: 0 <= k <= i ==> BareOnceStopped(answers[..k], states[k])
    {
      var answer := StepScript(engine, script[i]);
      if script[i].DoPoll? {
        engine.HasDelivered(script[..i], answers, answer);
      }
      SentAppend(script, i);
      HandedAppend(answers, answer);
      RoundAppend(script, answers, i, answer);
      assert (answers + [answer])[..i] == answers;
      assert forall k :: 0 <= k <= i ==> (answers + [answer])[..k] == answers[..k];
      answers := answers + [answer];
      states := states + [engine.Look()];
      assert answers[..i + 1] == answers;
      engine.IsBare(answers);
    }
    assert script[..|script|] == script && answers[..|script|] == answers;
    engine.HandedOut();
    forall c | Stops(HandedIn(answers)) > 0 && RelaySpec.SandboxOpened(c) in RelayPart(HandedIn(answers))
      ensures RelaySpec.SandboxClosed(c) in RelayPart(HandedIn(answers))
    {
      engine.ClosedBeforeStop(c);
    }
  }

  lemma EmptyScript()
    ensures SentBy([]) == [] && HandedIn([]) == [] && StartsRound([], [])
  {
  }
}
