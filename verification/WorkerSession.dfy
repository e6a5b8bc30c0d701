/** The worker's bounded output and the engine together: what a worker sends through `Results`
    comes out of `poll`. */
module WorkerSession {
  import opened Bytes
  import opened EngineModel
  import opened Engine
  import Output = Results

  /** Steps of the engine's side: nothing the worker does. */
  predicate EngineSide(actions: seq<Action>) {
    forall i :: 0 <= i < |actions| ==> !actions[i].DoWorkerSend? && !actions[i].DoWorkerLeave?
  }

  /** The arrivals at the engine, each after any steps of the engine's side. */
  function Woven(arrivals: seq<WorkerEvent>, between: nat -> seq<Action>): seq<Action> {
    if arrivals == [] then between(0)
    else
      var n := |arrivals| - 1;
      Woven(arrivals[..n], between) + [DoWorkerSend(arrivals[n])] + between(n + 1)
  }

  /** Steps in which the worker sends nothing more; it may leave. */
  predicate Silent(actions: seq<Action>) {
    forall i :: 0 <= i < |actions| ==> !actions[i].DoWorkerSend?
  }

  lemma {:induction false} SideSendsNothing(script: seq<Action>, side: seq<Action>)
    requires Silent(side)
    ensures SentBy(script + side) == SentBy(script) && (EngineSide(side) ==> (HasLeft(script + side) <==> HasLeft(script)))
    decreases |side|
  {
    if side == [] {
      assert script + side == script;
    } else {
      var n := |side| - 1;
      SideSendsNothing(script, side[..n]);
      SentSnoc(script + side[..n], side[n]);
      assert script + side == (script + side[..n]) + [side[n]];
    }
  }

  lemma SentSnoc(script: seq<Action>, a: Action)
    ensures SentBy(script + [a]) ==
            if a.DoWorkerSend? && !HasLeft(script) && !StopSent(SentBy(script)) then SentBy(script) + [a.result] else SentBy(script)
    ensures HasLeft(script + [a]) <==> HasLeft(script) || a.DoWorkerLeave?
  {
    hide SentBy, HasLeft;
    var all := script + [a];
    SentAppend(all, |script|);
    assert all[..|script|] == script && all[..|script| + 1] == all;
  }

  /** A script woven from arrivals sends exactly them. */
  lemma {:induction false} WovenSends(arrivals: seq<WorkerEvent>, between: nat -> seq<Action>)
    requires StopOnlyLast(arrivals) && forall k :: EngineSide(between(k))
    ensures SentBy(Woven(arrivals, between)) == arrivals && !HasLeft(Woven(arrivals, between))
    decreases |arrivals|
  {
    hide SentBy, HasLeft;
    if arrivals == [] {
      SideSendsNothing([], between(0));
      assert [] + between(0) == between(0);
      EmptyScript();
      NobodyLeft();
    } else {
      var n := |arrivals| - 1;
      var before := Woven(arrivals[..n], between);
      WovenSends(arrivals[..n], between);
      SentSnoc(before, DoWorkerSend(arrivals[n]));
      SideSendsNothing(before + [DoWorkerSend(arrivals[n])], between(n + 1));
      assert arrivals[..n] + [arrivals[n]] == arrivals;
    }
  }

  lemma NobodyLeft()
    ensures !HasLeft([])
  {
  }

  lemma {:induction false} ResultsOfPrefix(a: seq<WorkerEvent>, b: seq<WorkerEvent>)
    requires a <= b
    ensures EngineModel.Results(a) <= EngineModel.Results(b)
    decreases |b|
  {
    hide EngineModel.Results;
    if |a| < |b| {
      var init := b[..|b| - 1];
      ResultsOfPrefix(a, init);
      assert b == init + [b[|b| - 1]];
      ResultsAppend(init, b[|b| - 1]);
    } else {
      assert a == b;
    }
  }

  /** A worker's life and the engine's, together. The worker sends `events` and then `last` through
      its bounded output, at any pace of the receiver and cancelled at any time; what arrives is
      handled by the engine among any other steps, and the worker may leave at the end. Then what
      `poll` hands out of the worker is a front part of what the worker sent, in that order; and if
      the receiver stays and the session ends with a round that finds nothing, it is all of it. */
  method RunSession(detached: bool, events: seq<WorkerEvent>, last: WorkerEvent, capacity: nat, turns: nat -> seq<Output.Turn>,
                    between: nat -> seq<Action>, ending: seq<Action>)
    returns (script: seq<Action>, answers: seq<Option<Event>>, sent: nat, stayed: bool)
    requires capacity > 0 && (forall i :: 0 <= i < |events| ==> !events[i].WorkerStopped?)
    requires (forall k :: EngineSide(between(k))) && Silent(ending)
    ensures sent <= |events| && |answers| == |script|
    ensures (forall i :: Output.Stays(turns(i))) ==> stayed
    ensures stayed && (forall i :: Output.Calm(turns(i))) ==> sent == |events|
    ensures SentBy(script) <= events[..sent] + [last] && (stayed ==> SentBy(script) == events[..sent] + [last])
    ensures WorkerPart(HandedIn(answers)) <= EngineModel.Results(events[..sent] + [last])
    ensures Stops(HandedIn(answers)) <= 1
    ensures stayed && EndsIdle(script, answers) ==> WorkerPart(HandedIn(answers)) == EngineModel.Results(events[..sent] + [last])
  {
    hide WorkerPart, EngineModel.Results, SentBy, HandedIn, Stops, StartsRound, Follows, BareOnceStopped, StopIsLast, Woven, Output.Stays, Output.Calm;
    var received;
    received, sent, stayed := Output.WorkerLife(events, last, capacity, turns);
    StopsLast(events[..sent], last, received);
    WovenSends(received, between);
    script := Woven(received, between) + ending;
    SideSendsNothing(Woven(received, between), ending);
    var states;
    answers, states := RunScript(detached, script);
    ResultsOfPrefix(received, events[..sent] + [last]);
    if stayed && EndsIdle(script, answers) {
      IdleHasAll(script, answers, states[|script|]);
    }
  }

  /** The last step is a poll that starts a round and finds nothing. */
  predicate EndsIdle(script: seq<Action>, answers: seq<Option<Event>>)
    requires |script| == |answers|
  {
    && script != [] && script[|script| - 1].DoPoll? && answers[|script| - 1].None?
    && StartsRound(script[..|script| - 1], answers[..|script| - 1])
  }

  lemma IdleHasAll(script: seq<Action>, answers: seq<Option<Event>>, after: Snapshot)
    requires |script| == |answers| && EndsIdle(script, answers)
    requires var n := |script| - 1; Delivered(script[..n], answers[..n], answers[n], after)
    ensures WorkerPart(HandedIn(answers)) == EngineModel.Results(SentBy(script))
  {
    hide WorkerPart, EngineModel.Results, StartsRound, Stops;
    var n := |script| - 1;
    assert answers == answers[..n] + [None];
    HandedAppend(answers[..n], None);
    assert HandedIn(answers[..n]) + [] == HandedIn(answers[..n]);
    assert script == script[..n] + [script[n]];
    SentSnoc(script[..n], script[n]);
  }

  lemma StopsLast(events: seq<WorkerEvent>, last: WorkerEvent, received: seq<WorkerEvent>)
    requires (forall i :: 0 <= i < |events| ==> !events[i].WorkerStopped?) && received <= events + [last]
    ensures StopOnlyLast(received)
  {
  }
}
