/** Commands and events of the engine, the queue of deferred commands, and the parts of an
    event trace. */
module EngineModel {
  import opened Bytes
  import RelaySpec
  import Terminals

  const EVENTS: nat := 16
  const REQUESTS: nat := 4

  /** What the worker sends; the endpoints and policy that come with `Started` are oracles. */
  datatype WorkerEvent =
    | Started(server: bool)
    | Preview(id: nat)
    | Refresh(id: nat)
    | Call(id: nat)
    | Mode(server: bool)
    | WorkerFailed
    | WorkerStopped(code: Option<int>)
    | OtherResult(tag: nat)

  datatype Command =
    | Record
    | Attach(terminal: Terminals.Id)
    | Detach(terminal: Terminals.Id)
    | Resize(terminal: Terminals.Id)
    | SandboxSend(connection: nat, message: RelaySpec.Message)
    | SandboxClose(connection: nat)
    | ScopeFailure
    | ScopeMembership
    | Cancel(id: nat)
    | Stop
    | Spawn(id: nat)
    | Signal(id: nat)
    | CancelProcess(id: nat)
    | KillAll
    | Export(member: nat)
    | Start
    | PrepareJob(request: nat)
    | RunJob(request: nat)
    | CancelJob(request: nat)
    | Nix(cancelId: Option<nat>, gated: bool) // work for the Nix worker

  datatype Event =
    | FromWorker(result: WorkerEvent)
    | Failed
    | ScopeFailed(name: nat)
    | Stopped(code: Option<int>)
    | FromRelay(relay: RelaySpec.Event)
    | FromTerminal(terminal: Terminals.Event)
    | FromInit(message: nat)
    | SpawnFailed(id: nat)
    | InitLost
    | PayloadExited
    | HostJobFinished(request: nat)
    | HostJobPrepared(request: nat, ok: bool)
    | HostJobFailed(request: nat)
    | Exported(member: nat, ok: bool)
    | Cancelled(command: Command)

  /** `operation`: the command needs a capability check. */
  predicate Gated(c: Command) {
    (c.Nix? && c.gated) || c.Spawn? || (c.Attach? && c.terminal > 0) || c.PrepareJob? || c.RunJob?
  }

  /** Commands that are dispatched at once; none of them reports an event. */
  predicate Direct(c: Command) {
    c.Record? || c.SandboxSend? || c.SandboxClose? || c.ScopeFailure? || c.ScopeMembership? || c.Cancel? || c.Stop? || c.CancelProcess?
    || c.CancelJob?
  }

  // Deferred commands --------------------------------------------------------------------------

  datatype Deferred = Deferred(ordered: seq<Command>, cancellations: seq<Command>, cancelled: seq<Event>, records: nat, closed: bool)

  predicate WorkIsEmpty(d: Deferred) {
    d.ordered == [] && d.cancellations == [] && d.cancelled == []
  }

  predicate IsEmpty(d: Deferred) {
    WorkIsEmpty(d) && d.records == 0
  }

  predicate IsRequest(c: Command) {
    c.Nix? || c.Spawn? || c.Attach? || c.PrepareJob? || c.RunJob? || c.Export?
  }

  function Requests(ordered: seq<Command>): nat {
    if ordered == [] then 0 else (if IsRequest(ordered[0]) then 1 else 0) + Requests(ordered[1..])
  }

  /** Does cancelling `c` remove the queued command `q`? */
  predicate Removes(c: Command, q: Command) {
    match c
    case Cancel(id) => q.Nix? && q.cancelId == Some(id)
    case CancelProcess(id) => q == Spawn(id) || q == Signal(id)
    case CancelJob(request) => q == PrepareJob(request) || q == RunJob(request)
    case _ => false
  }

  /** The outcome a removed request leaves for its caller. */
  function Outcome(q: Command): seq<Event> {
    match q
    case Spawn(id) => [SpawnFailed(id)]
    case PrepareJob(request) => [HostJobPrepared(request, false)]
    case RunJob(request) => [HostJobFinished(request)]
    case _ => []
  }

  function Kept(ordered: seq<Command>, c: Command): seq<Command> {
    if ordered == [] then [] else (if Removes(c, ordered[0]) then [] else [ordered[0]]) + Kept(ordered[1..], c)
  }

  function Outcomes(ordered: seq<Command>, c: Command): seq<Event> {
    if ordered == [] then [] else (if Removes(c, ordered[0]) then Outcome(ordered[0]) else []) + Outcomes(ordered[1..], c)
  }

  /** Nothing queued answers this cancellation, so it must be passed on. */
  predicate PassesOn(ordered: seq<Command>, c: Command) {
    match c
    case Cancel(_) => Kept(ordered, c) == ordered
    case CancelProcess(id) => Spawn(id) !in ordered
    case CancelJob(request) => PrepareJob(request) !in ordered
    case _ => false
  }

  /** `push`, with whether a record event fits and whether a resize was merged into an earlier one. */
  function Push(d: Deferred, c: Command, fits: bool, merged: bool): Option<Deferred> {
    if c.Record? then Some(if d.closed || !fits then d else d.(records := d.records + 1))
    else if IsRequest(c) && Requests(d.ordered) + |d.cancelled| >= REQUESTS then None
    else if c.Cancel? || c.CancelJob? || (c.CancelProcess? && Spawn(c.id) in d.ordered) then
      Some(d.(ordered := Kept(d.ordered, c), cancelled := d.cancelled + Outcomes(d.ordered, c),
              cancellations := if PassesOn(d.ordered, c) && c !in d.cancellations then d.cancellations + [c] else d.cancellations))
    else if c.CancelProcess? then
      Some(if c in d.cancellations then d else d.(cancellations := d.cancellations + [c]))
    else if (c.Resize? || c.Signal?) && merged then Some(d)
    else Some(d.(ordered := d.ordered + [c]))
  }

  lemma {:induction false} KeptExports(ordered: seq<Command>, c: Command, member: nat)
    requires Export(member) in ordered
    ensures Export(member) in Kept(ordered, c)
  {
    if ordered[0] != Export(member) {
      assert ordered == [ordered[0]] + ordered[1..];
      KeptExports(ordered[1..], c, member);
    }
  }

  // Parts of a trace -----------------------------------------------------------------------------

  /** The worker's results among some events, in order. */
  function WorkerPart(trace: seq<Event>): seq<WorkerEvent> {
    if trace == [] then []
    else
      var last := trace[|trace| - 1];
      WorkerPart(trace[..|trace| - 1]) + (if last.FromWorker? then [last.result] else [])
  }

  /** The relay's events among some events, in order. */
  function RelayPart(trace: seq<Event>): seq<RelaySpec.Event> {
    if trace == [] then []
    else
      var last := trace[|trace| - 1];
      RelayPart(trace[..|trace| - 1]) + (if last.FromRelay? then [last.relay] else [])
  }

  /** How often `Stopped` occurs. */
  function Stops(trace: seq<Event>): nat {
    if trace == [] then 0 else Stops(trace[..|trace| - 1]) + (if trace[|trace| - 1].Stopped? then 1 else 0)
  }

  /** What the worker sent, without its `Stopped`: the engine reports that itself. */
  function Results(sent: seq<WorkerEvent>): seq<WorkerEvent> {
    if sent == [] then []
    else
      var last := sent[|sent| - 1];
      Results(sent[..|sent| - 1]) + (if last.WorkerStopped? then [] else [last])
  }

  lemma TraceAppend(trace: seq<Event>, e: Event)
    ensures WorkerPart(trace + [e]) == WorkerPart(trace) + (if e.FromWorker? then [e.result] else [])
    ensures RelayPart(trace + [e]) == RelayPart(trace) + (if e.FromRelay? then [e.relay] else [])
    ensures Stops(trace + [e]) == Stops(trace) + (if e.Stopped? then 1 else 0)
  {
    assert (trace + [e])[..|trace + [e]| - 1] == trace;
  }

  lemma ResultsAppend(sent: seq<WorkerEvent>, e: WorkerEvent)
    ensures Results(sent + [e]) == Results(sent) + (if e.WorkerStopped? then [] else [e])
  {
    assert (sent + [e])[..|sent + [e]| - 1] == sent;
  }

  lemma {:induction false} ResultsFirst(e: WorkerEvent, sent: seq<WorkerEvent>)
    ensures Results([e] + sent) == (if e.WorkerStopped? then [] else [e]) + Results(sent)
    decreases |sent|
  {
    hide Results;
    if sent == [] {
      assert [e] + sent == [] + [e];
      ResultsAppend([], e);
      ResultsNone();
    } else {
      var init, last := sent[..|sent| - 1], sent[|sent| - 1];
      assert [e] + sent == ([e] + init) + [last] && sent == init + [last];
      ResultsAppend([e] + init, last);
      ResultsAppend(init, last);
      ResultsFirst(e, init);
      Assoc(if e.WorkerStopped? then [] else [e], Results(init), if last.WorkerStopped? then [] else [last]);
    }
  }

  lemma ResultsNone()
    ensures Results([]) == []
  {
  }

  lemma {:induction false} NoStops(trace: seq<Event>, i: nat)
    requires Stops(trace) == 0 && i < |trace|
    ensures !trace[i].Stopped?
  {
    if i < |trace| - 1 {
      NoStops(trace[..|trace| - 1], i);
      assert trace[..|trace| - 1][i] == trace[i];
    }
  }

  /** After `Stopped`: nothing of the worker or the sandbox relay, and no second one. */
  predicate Late(e: Event) {
    !e.FromWorker? && !e.FromRelay? && !e.Stopped?
  }

  predicate StopIsLast(trace: seq<Event>) {
    forall i, j :: 0 <= i < j < |trace| && trace[i].Stopped? ==> Late(trace[j])
  }

  lemma StopIsLastAppend(trace: seq<Event>, e: Event)
    requires StopIsLast(trace) && (Stops(trace) > 0 ==> Late(e))
    ensures StopIsLast(trace + [e])
  {
    hide Late;
    if Stops(trace) == 0 {
      forall i | 0 <= i < |trace| ensures !trace[i].Stopped? {
        NoStops(trace, i);
      }
    }
  }

  lemma {:induction false} OutcomesAreLate(ordered: seq<Command>, c: Command)
    ensures forall k :: 0 <= k < |Outcomes(ordered, c)| ==> Late(Outcomes(ordered, c)[k])
  {
    if ordered != [] {
      OutcomesAreLate(ordered[1..], c);
    }
  }

  function Wrap(events: seq<RelaySpec.Event>): seq<Event> {
    seq(|events|, i requires 0 <= i < |events| => FromRelay(events[i]))
  }

  function WrapReports(events: seq<Terminals.Event>): seq<Event> {
    seq(|events|, i requires 0 <= i < |events| => FromTerminal(events[i]))
  }

  lemma {:induction false} WrapParts(trace: seq<Event>, events: seq<RelaySpec.Event>)
    requires StopIsLast(trace) && (Stops(trace) > 0 ==> events == [])
    ensures WorkerPart(trace + Wrap(events)) == WorkerPart(trace) && Stops(trace + Wrap(events)) == Stops(trace)
    ensures RelayPart(trace + Wrap(events)) == RelayPart(trace) + events
    ensures StopIsLast(trace + Wrap(events))
    decreases |events|
  {
    hide StopIsLast, WorkerPart, RelayPart, Stops;
    if events == [] {
      assert trace + Wrap(events) == trace;
      assert RelayPart(trace) + [] == RelayPart(trace);
    } else {
      var init, last := events[..|events| - 1], events[|events| - 1];
      WrapParts(trace, init);
      var e := FromRelay(last);
      assert trace + Wrap(events) == (trace + Wrap(init)) + [e];
      TraceAppend(trace + Wrap(init), e);
      StopIsLastAppend(trace + Wrap(init), e);
      assert events == init + [last];
      Assoc(RelayPart(trace), init, [last]);
      assert WorkerPart(trace) + [] == WorkerPart(trace);
    }
  }

  lemma {:induction false} WrapReportsParts(trace: seq<Event>, events: seq<Terminals.Event>)
    requires StopIsLast(trace)
    ensures WorkerPart(trace + WrapReports(events)) == WorkerPart(trace) && Stops(trace + WrapReports(events)) == Stops(trace)
    ensures RelayPart(trace + WrapReports(events)) == RelayPart(trace)
    ensures StopIsLast(trace + WrapReports(events))
    decreases |events|
  {
    hide StopIsLast, WorkerPart, RelayPart, Stops;
    if events == [] {
      assert trace + WrapReports(events) == trace;
    } else {
      var init, last := events[..|events| - 1], events[|events| - 1];
      WrapReportsParts(trace, init);
      var e := FromTerminal(last);
      assert trace + WrapReports(events) == (trace + WrapReports(init)) + [e];
      TraceAppend(trace + WrapReports(init), e);
      StopIsLastAppend(trace + WrapReports(init), e);
    }
  }

  /** No result of a host job waits in front of `Stopped`. */
  predicate JobsBeforeStop(events: seq<Event>) {
    forall i, j :: 0 <= i < j < |events| && events[j].Stopped? ==> !events[i].HostJobFinished?
  }

  predicate JobResultQueued(events: seq<Event>) {
    exists i :: 0 <= i < |events| && events[i].HostJobFinished?
  }

  lemma {:induction false} PartsAppend(a: seq<Event>, b: seq<Event>)
    ensures WorkerPart(a + b) == WorkerPart(a) + WorkerPart(b)
    ensures RelayPart(a + b) == RelayPart(a) + RelayPart(b)
    ensures Stops(a + b) == Stops(a) + Stops(b)
    decreases |b|
  {
    hide WorkerPart, RelayPart, Stops;
    if b == [] {
      assert a + b == a;
      PartsNone();
    } else {
      var init, last := b[..|b| - 1], b[|b| - 1];
      PartsAppend(a, init);
      assert a + b == (a + init) + [last] && b == init + [last];
      TraceAppend(a + init, last);
      TraceAppend(init, last);
      Assoc(WorkerPart(a), WorkerPart(init), if last.FromWorker? then [last.result] else []);
      Assoc(RelayPart(a), RelayPart(init), if last.FromRelay? then [last.relay] else []);
    }
  }

  lemma PartsNone()
    ensures WorkerPart([]) == [] && RelayPart([]) == [] && Stops([]) == 0
  {
  }

  /** What follows a stop has no part of the relay. */
  lemma {:induction false} LateHasNoRelay(b: seq<Event>)
    requires forall i :: 0 <= i < |b| ==> Late(b[i])
    ensures RelayPart(b) == []
  {
    if b != [] {
      LateHasNoRelay(b[..|b| - 1]);
    }
  }

  lemma {:induction false} StopIsThere(a: seq<Event>) returns (i: nat)
    requires Stops(a) > 0
    ensures i < |a| && a[i].Stopped?
  {
    if a[|a| - 1].Stopped? {
      i := |a| - 1;
    } else {
      i := StopIsThere(a[..|a| - 1]);
    }
  }
}
