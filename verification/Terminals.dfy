/** The runtime's terminals: served in turn, reported through bounded events, and kept until
    nothing is owed to a consumer. */
module Terminals {
  import opened Bytes
  import TerminalSpec
  import TerminalRuns

  const EVENTS: nat := 16

  /** The main terminal is 0, that of process `n` is `n + 1`, in the source's order. */
  type Id = nat

  datatype Status = Status(eof: bool, complete: bool, interrupted: bool, attached: bool, detached: bool, connected: bool)

  datatype Entry = Entry(id: Id, io: TerminalSpec.State, reported: Status, exposed: bool, exited: bool)

  datatype Event = Report(id: Id, status: Status, failed: bool) | Elsewhere

  /** `visits` records every visit of a tick, with the terminals present at the time. */
  datatype Visit = Visit(id: Id, present: set<Id>)

  datatype World = World(entries: seq<Entry>, cursor: Option<Id>, events: seq<Event>, visits: seq<Visit>)

  function StatusOf(t: TerminalSpec.State): Status {
    Status(t.eof, t.complete, t.interrupted, t.peer && !t.detached, t.detached, t.peer)
  }

  predicate CanEvict(t: TerminalSpec.State) {
    t.complete || t.interrupted || (t.detached && !t.peer)
  }

  function Ids(entries: seq<Entry>): seq<Id> {
    seq(|entries|, i requires 0 <= i < |entries| => entries[i].id)
  }

  function Present(entries: seq<Entry>): set<Id> {
    set id | id in Ids(entries)
  }

  /** How many of the sorted ids are not after the cursor. */
  function Split(ids: seq<Id>, cursor: Option<Id>): (n: nat)
    ensures n <= |ids|
  {
    if ids == [] || cursor.None? || ids[0] > cursor.value then 0 else 1 + Split(ids[1..], cursor)
  }

  /** One terminal's tick: what is left of it, and what is reported. */
  function Serve(e: Entry, ended: bool, env: TerminalSpec.TickEnv): (r: (Option<Entry>, Option<Event>))
    // A terminal that stays has had its current status reported.
    ensures r.0.Some? && e.exposed ==> r.0.value.reported == StatusOf(r.0.value.io)
    ensures r.1.Some? ==> e.exposed && r.1.value.Report? && r.1.value.id == e.id
  {
    var (io, ok) := TerminalSpec.Tick(e.io, env);
    var t := if ok then io else io.(interrupted := true);
    var remove := (ended && (!e.exposed || CanEvict(t))) || (e.id > 0 && e.exited && !t.peer && CanEvict(t));
    var status := if remove then StatusOf(t).(connected := false, attached := false) else StatusOf(t);
    var report := e.exposed && (status != e.reported || !ok);
    (if remove then None else Some(e.(io := t, reported := if report then status else e.reported)),
     if report then Some(Report(e.id, status, !ok)) else None)
  }

  /** Replace or remove one element. */
  function Put<T>(s: seq<T>, k: nat, e: Option<T>): seq<T>
    requires k < |s|
  {
    s[..k] + (if e.Some? then [e.value] else []) + s[k + 1..]
  }

  function Find(entries: seq<Entry>, id: Id): (k: nat)
    ensures k <= |entries| && (k < |entries| ==> entries[k].id == id) && forall i :: 0 <= i < k ==> entries[i].id != id
  {
    if entries == [] || entries[0].id == id then 0 else 1 + Find(entries[1..], id)
  }

  function VisitOne(w: World, id: Id, ended: bool, env: TerminalSpec.TickEnv): World {
    var k := Find(w.entries, id);
    if k == |w.entries| then w
    else
      var (kept, report) := Serve(w.entries[k], ended, env);
      World(Put(w.entries, k, kept), Some(id), if report.Some? then w.events + [report.value] else w.events,
            w.visits + [Visit(id, Present(w.entries))])
  }

  function VisitAll(w: World, order: seq<Id>, ended: bool, env: Id -> TerminalSpec.TickEnv): World
    decreases |order|
  {
    if order == [] || |w.events| >= EVENTS then w
    else VisitAll(VisitOne(w, order[0], ended, env(order[0])), order[1..], ended, env)
  }

  function Order(w: World): seq<Id> {
    var ids := Ids(w.entries);
    ids[Split(ids, w.cursor)..] + ids[..Split(ids, w.cursor)]
  }

  /** `tick`: one round, from just after the terminal served last, while there is room. */
  function Tick(w: World, ended: bool, env: Id -> TerminalSpec.TickEnv): World {
    VisitAll(w, Order(w), ended, env)
  }

  // The order of service -------------------------------------------------------------------

  predicate Sorted(entries: seq<Entry>) {
    Increasing(Ids(entries))
  }

  predicate Increasing(ids: seq<Id>) {
    forall i, j :: 0 <= i < j < |ids| ==> ids[i] < ids[j]
  }

  /** A round from `split` starts with the ids after the cursor. */
  predicate StartsAfter(ids: seq<Id>, split: nat, cursor: Option<Id>)
    requires split <= |ids|
  {
    && (forall i :: 0 <= i < split ==> cursor.Some? && ids[i] <= cursor.value)
    && (forall i :: split <= i < |ids| ==> cursor.None? || ids[i] > cursor.value)
  }

  /** `w` is the next of `present` after the cursor, going round. */
  ghost predicate IsNext(present: set<Id>, cursor: Option<Id>, w: Id) {
    && w in present
    && (if cursor.Some? && exists x :: x in present && x > cursor.value
        then w > cursor.value && forall x :: x in present && x > cursor.value ==> w <= x
        else forall x :: x in present ==> w <= x)
  }

  function LastVisit(visits: seq<Visit>): Option<Id> {
    if visits == [] then None else Some(visits[|visits| - 1].id)
  }

  /** Every visit goes to the next terminal after the one visited before. */
  ghost predicate InTurn(visits: seq<Visit>) {
    forall i :: 0 <= i < |visits| ==> IsNext(visits[i].present, LastVisit(visits[..i]), visits[i].id)
  }

  lemma {:induction false} SplitIs(ids: seq<Id>, cursor: Option<Id>)
    requires Increasing(ids)
    ensures StartsAfter(ids, Split(ids, cursor), cursor)
  {
    if ids != [] && cursor.Some? && ids[0] <= cursor.value {
      SplitIs(ids[1..], cursor);
      assert forall i :: 1 <= i < |ids| ==> ids[i] == ids[1..][i - 1];
    }
  }

  /** Position `m` of a round over sorted ids that starts at `split`. */
  function At(ids: seq<Id>, split: nat, m: nat): Id
    requires split <= |ids| && m < |ids|
  {
    if split + m < |ids| then ids[split + m] else ids[split + m - |ids|]
  }

  /** In a round, the next id is the next present one: nothing ahead has been removed. */
  lemma RoundIsNext(ids: seq<Id>, split: nat, m: nat, present: set<Id>, cursor: Option<Id>)
    requires Increasing(ids) && split <= |ids| && m < |ids|
    requires forall x :: x in present ==> x in ids
    requires forall k :: m <= k < |ids| ==> At(ids, split, k) in present
    requires if m == 0 then StartsAfter(ids, split, cursor) else cursor == Some(At(ids, split, m - 1))
    ensures IsNext(present, cursor, At(ids, split, m))
  {
    var w := At(ids, split, m);
    var p := if split + m < |ids| then split + m else split + m - |ids|;
    assert ids[p] == w && w in present;
    forall x | x in present && (cursor.None? || x > cursor.value || p == 0) ensures w <= x {
      var q :| 0 <= q < |ids| && ids[q] == x;
    }
  }

  /** What one round keeps: the ids ahead are still there, and visits are in turn. */
  ghost predicate MidRound(w: World, ids: seq<Id>, split: nat, m: nat) {
    && split <= |ids| && m <= |ids| && Increasing(ids)
    && Sorted(w.entries) && InTurn(w.visits)
    && LastVisit(w.visits) == w.cursor
    && (forall x :: x in Present(w.entries) ==> x in ids)
    && (forall k :: m <= k < |ids| ==> At(ids, split, k) in Present(w.entries))
    && (if m == 0 then StartsAfter(ids, split, w.cursor) else w.cursor == Some(At(ids, split, m - 1)))
  }

  lemma PutIds(ids: seq<Id>, k: nat, id: Option<Id>)
    requires Increasing(ids) && k < |ids| && (id.Some? ==> id.value == ids[k])
    ensures Increasing(Put(ids, k, id))
    ensures forall x :: x in Put(ids, k, id) <==> x in ids && (id.Some? || x != ids[k])
  {
    if id.Some? {
      assert Put(ids, k, id) == ids;
    } else {
      forall x | x in ids && x != ids[k] ensures x in Put(ids, k, id) {
        var i :| 0 <= i < |ids| && ids[i] == x;
        assert x in ids[..k] || x in ids[k + 1..];
      }
    }
  }

  lemma IdsPut(entries: seq<Entry>, k: nat, e: Option<Entry>)
    requires k < |entries|
    ensures Ids(Put(entries, k, e)) == Put(Ids(entries), k, if e.Some? then Some(e.value.id) else None)
  {
  }

  lemma PutKeeps(entries: seq<Entry>, k: nat, e: Option<Entry>)
    requires Sorted(entries) && k < |entries| && (e.Some? ==> e.value.id == entries[k].id)
    ensures Sorted(Put(entries, k, e))
    ensures Present(Put(entries, k, e)) == if e.Some? then Present(entries) else Present(entries) - {entries[k].id}
  {
    hide Put, Increasing;
    IdsPut(entries, k, e);
    PutIds(Ids(entries), k, if e.Some? then Some(e.value.id) else None);
  }

  lemma ServeKeepsId(e: Entry, ended: bool, env: TerminalSpec.TickEnv)
    ensures var kept := Serve(e, ended, env).0; kept.Some? ==> kept.value.id == e.id
  {
  }

  lemma PresentIsFound(entries: seq<Entry>, id: Id)
    requires id in Present(entries)
    ensures Find(entries, id) < |entries|
  {
    var i :| 0 <= i < |Ids(entries)| && Ids(entries)[i] == id;
    assert entries[i].id == id;
  }

  lemma InTurnAppend(visits: seq<Visit>, v: Visit)
    requires InTurn(visits) && IsNext(v.present, LastVisit(visits), v.id)
    ensures InTurn(visits + [v])
  {
    hide IsNext;
    var all := visits + [v];
    forall i | 0 <= i < |all| ensures IsNext(all[i].present, LastVisit(all[..i]), all[i].id) {
      if i < |visits| {
        assert all[..i] == visits[..i];
      } else {
        assert all[..i] == visits;
      }
    }
  }

  lemma VisitIsInTurn(w: World, ids: seq<Id>, split: nat, m: nat, ended: bool, env: TerminalSpec.TickEnv)
    requires MidRound(w, ids, split, m) && m < |ids|
    ensures MidRound(VisitOne(w, At(ids, split, m), ended, env), ids, split, m + 1)
  {
    hide Serve, Put, IsNext, InTurn;
    var id := At(ids, split, m);
    PresentIsFound(w.entries, id);
    var k := Find(w.entries, id);
    ServeKeepsId(w.entries[k], ended, env);
    PutKeeps(w.entries, k, Serve(w.entries[k], ended, env).0);
    RoundIsNext(ids, split, m, Present(w.entries), w.cursor);
    InTurnAppend(w.visits, Visit(id, Present(w.entries)));
    var after := VisitOne(w, id, ended, env);
    forall j | m + 1 <= j < |ids| ensures At(ids, split, j) in Present(after.entries) {
      AtDistinct(ids, split, m, j);
    }
  }

  lemma AtDistinct(ids: seq<Id>, split: nat, m: nat, j: nat)
    requires Increasing(ids) && split <= |ids| && m < j < |ids|
    ensures At(ids, split, m) != At(ids, split, j)
  {
  }

  lemma {:induction false} RoundIsInTurn(w: World, ids: seq<Id>, split: nat, m: nat, order: seq<Id>, ended: bool, env: Id -> TerminalSpec.TickEnv)
    requires MidRound(w, ids, split, m)
    requires |order| == |ids| - m && forall k :: 0 <= k < |order| ==> order[k] == At(ids, split, m + k)
    ensures var after := VisitAll(w, order, ended, env);
            Sorted(after.entries) && InTurn(after.visits) && LastVisit(after.visits) == after.cursor
    decreases |order|
  {
    hide VisitOne, InTurn, IsNext;
    if order != [] && |w.events| < EVENTS {
      assert order[0] == At(ids, split, m);
      VisitIsInTurn(w, ids, split, m, ended, env(order[0]));
      RoundIsInTurn(VisitOne(w, order[0], ended, env(order[0])), ids, split, m + 1, order[1..], ended, env);
    }
  }

  ghost predicate Fair(w: World) {
    Sorted(w.entries) && InTurn(w.visits) && LastVisit(w.visits) == w.cursor
  }

  lemma TickIsInTurn(w: World, ended: bool, env: Id -> TerminalSpec.TickEnv)
    requires Fair(w)
    ensures Fair(Tick(w, ended, env))
  {
    hide VisitAll, InTurn, IsNext;
    var ids := Ids(w.entries);
    var split := Split(ids, w.cursor);
    SplitIs(ids, w.cursor);
    RoundIsInTurn(w, ids, split, 0, Order(w), ended, env);
  }

  // Fairness -------------------------------------------------------------------------------

  /** Going up and round from `start`, `v` comes before `x`. */
  predicate Before(start: Id, v: Id, x: Id) {
    if start < x then start <= v < x else v >= start || v < x
  }

  /** The next terminal after one before `x` is `x` itself, or further on and still before it. */
  lemma NextGoesOn(start: Id, v: Id, x: Id, present: set<Id>, w: Id)
    requires Before(start, v, x) && x != start && x in present && IsNext(present, Some(v), w)
    ensures w == x || (Before(start, w, x) && w != start)
  {
  }

  /** No terminal is served twice while another that is there all along is not served. */
  lemma {:induction false} NobodyIsOvertaken(visits: seq<Visit>, i: nat, j: nat, x: Id)
    requires InTurn(visits) && i < j < |visits|
    requires forall k :: i < k <= j ==> x in visits[k].present
    requires forall k :: i < k <= j ==> visits[k].id != x
    requires visits[i].id != x
    ensures Before(visits[i].id, visits[j].id, x) && visits[j].id != visits[i].id
    decreases j
  {
    hide InTurn, IsNext;
    if j > i + 1 {
      NobodyIsOvertaken(visits, i, j - 1, x);
    }
    assert IsNext(visits[j].present, Some(visits[j - 1].id), visits[j].id) by { TurnAt(visits, j); }
    NextGoesOn(visits[i].id, visits[j - 1].id, x, visits[j].present, visits[j].id);
  }

  lemma TurnAt(visits: seq<Visit>, j: nat)
    requires InTurn(visits) && 0 < j < |visits|
    ensures IsNext(visits[j].present, Some(visits[j - 1].id), visits[j].id)
  {
    assert visits[..j][j - 1] == visits[j - 1];
  }

  // Whole runs -------------------------------------------------------------------------------

  /** Where a new id goes among the sorted ones. */
  function Below(ids: seq<Id>, id: Id): (n: nat)
    ensures n <= |ids|
  {
    if ids == [] || ids[0] >= id then 0 else 1 + Below(ids[1..], id)
  }

  function Insert(entries: seq<Entry>, e: Entry): seq<Entry> {
    var k := Find(entries, e.id);
    if k < |entries| then entries[k := e]
    else entries[..Below(Ids(entries), e.id)] + [e] + entries[Below(Ids(entries), e.id)..]
  }

  function NewEntry(id: Id, io: TerminalSpec.State, exposed: bool): Entry {
    Entry(id, io, StatusOf(io), exposed, false)
  }

  function Change(entries: seq<Entry>, id: Id, e: Entry): seq<Entry> {
    if Find(entries, id) < |entries| && e.id == id then entries[Find(entries, id) := e] else entries
  }

  datatype Action =
    | Add(id: Id, listening: bool, detached: bool, exposed: bool)
    | Drop(id: Id)                                     // a spawn failed
    | Exit(id: Id)                                     // a process ended
    | Attach(id: Id, peek: TerminalSpec.Peek, nonblocking: bool, greeting: Option<seq<byte>>)
    | Detach(id: Id, shutdown: bool)
    | Do(id: Id, action: TerminalSpec.Action)          // hold, release, refuse, start, fail
    | Round(ended: bool, env: Id -> TerminalSpec.TickEnv)
    | TakeEvent
    | OtherEvent

  /** A terminal that is not there is reported as complete. */
  function Missing(): Status {
    Status(false, true, false, false, false, false)
  }

  /** Any interleaving; attach, detach and the other producers run with room for an event. */
  function Step(w: World, a: Action): World {
    match a
    case Add(id, listening, detached, exposed) => w.(entries := Insert(w.entries, NewEntry(id, TerminalSpec.New(listening, detached), exposed)))
    case Drop(id) => if Find(w.entries, id) < |w.entries| then w.(entries := Put(w.entries, Find(w.entries, id), None)) else w
    case Exit(id) =>
      if Find(w.entries, id) < |w.entries| then w.(entries := Change(w.entries, id, w.entries[Find(w.entries, id)].(exited := true))) else w
    case Attach(id, peek, nonblocking, greeting) =>
      if |w.events| >= EVENTS then w
      else if Find(w.entries, id) == |w.entries| then w.(events := w.events + [Report(id, Missing(), false)])
      else
        var e := w.entries[Find(w.entries, id)];
        var io := TerminalSpec.Attach(e.io, peek, nonblocking, greeting).0;
        w.(entries := Change(w.entries, id, e.(io := io, exposed := true, reported := StatusOf(io))),
           events := w.events + [Report(id, StatusOf(io), false)])
    case Detach(id, shutdown) =>
      if |w.events| >= EVENTS || Find(w.entries, id) == |w.entries| then w
      else
        var e := w.entries[Find(w.entries, id)];
        var (io, ok) := TerminalSpec.Detach(e.io, shutdown);
        w.(entries := Change(w.entries, id, e.(io := io, reported := StatusOf(io))), events := w.events + [Report(id, StatusOf(io), !ok)])
    case Do(id, action) =>
      if Find(w.entries, id) == |w.entries| || action.DoTick? then w
      else w.(entries := Change(w.entries, id, w.entries[Find(w.entries, id)].(io := TerminalSpec.Step(w.entries[Find(w.entries, id)].io, action))))
    case Round(ended, env) => Tick(w, ended, env)
    case TakeEvent => if w.events == [] then w else w.(events := w.events[1..])
    case OtherEvent => if |w.events| < EVENTS then w.(events := w.events + [Elsewhere]) else w
  }

  function Run(actions: seq<Action>): World {
    if actions == [] then World([], None, [], []) else Step(Run(actions[..|actions| - 1]), actions[|actions| - 1])
  }

  predicate AllOk(entries: seq<Entry>) {
    forall i :: 0 <= i < |entries| ==> TerminalRuns.Inv(entries[i].io)
  }

  ghost predicate Inv(w: World) {
    Fair(w) && |w.events| <= EVENTS && AllOk(w.entries)
  }

  lemma ChangeKeeps(entries: seq<Entry>, id: Id, e: Entry)
    requires Sorted(entries) && AllOk(entries) && TerminalRuns.Inv(e.io)
    ensures Sorted(Change(entries, id, e)) && AllOk(Change(entries, id, e))
  {
    hide TerminalRuns.Inv;
    assert Ids(Change(entries, id, e)) == Ids(entries);
  }

  lemma {:induction false} BelowIs(ids: seq<Id>, id: Id)
    requires Increasing(ids)
    ensures forall i :: 0 <= i < Below(ids, id) ==> ids[i] < id
    ensures forall i :: Below(ids, id) <= i < |ids| ==> ids[i] >= id
  {
    if ids != [] && ids[0] < id {
      BelowIs(ids[1..], id);
      assert forall i :: 1 <= i < |ids| ==> ids[i] == ids[1..][i - 1];
    }
  }

  lemma InsertKeeps(entries: seq<Entry>, e: Entry)
    requires Sorted(entries) && AllOk(entries) && TerminalRuns.Inv(e.io)
    ensures Sorted(Insert(entries, e)) && AllOk(Insert(entries, e))
  {
    hide TerminalRuns.Inv, Below;
    if Find(entries, e.id) < |entries| {
      assert Ids(Insert(entries, e)) == Ids(entries);
    } else {
      var ids := Ids(entries);
      BelowIs(ids, e.id);
      var n := Below(ids, e.id);
      assert forall i :: 0 <= i < |ids| ==> ids[i] != e.id;
      assert Ids(Insert(entries, e)) == ids[..n] + [e.id] + ids[n..];
    }
  }

  lemma PutOk(entries: seq<Entry>, k: nat, e: Option<Entry>)
    requires AllOk(entries) && k < |entries| && (e.Some? ==> TerminalRuns.Inv(e.value.io))
    ensures AllOk(Put(entries, k, e))
  {
    hide TerminalRuns.Inv;
    var out := Put(entries, k, e);
    forall i | 0 <= i < |out| ensures TerminalRuns.Inv(out[i].io) {
      if i >= k && (e.None? || i > k) {
        assert out[i] == entries[if e.Some? then i else i + 1];
      }
    }
  }

  lemma ServeOk(e: Entry, ended: bool, env: TerminalSpec.TickEnv)
    requires TerminalRuns.Inv(e.io)
    ensures var kept := Serve(e, ended, env).0; kept.Some? ==> TerminalRuns.Inv(kept.value.io)
  {
    hide TerminalRuns.Inv, TerminalSpec.Tick;
    TerminalRuns.TickKeeps(e.io, env);
    var io := TerminalSpec.Tick(e.io, env).0;
    TerminalRuns.FlagsKeep(io, io.(interrupted := true));
  }

  lemma {:induction false} RoundOk(w: World, order: seq<Id>, ended: bool, env: Id -> TerminalSpec.TickEnv)
    requires AllOk(w.entries) && |w.events| <= EVENTS
    ensures var after := VisitAll(w, order, ended, env); AllOk(after.entries) && |after.events| <= EVENTS
    decreases |order|
  {
    hide TerminalRuns.Inv, Serve, Put, AllOk;
    if order != [] && |w.events| < EVENTS {
      var k := Find(w.entries, order[0]);
      if k < |w.entries| {
        OneIsOk(w.entries, k);
        ServeOk(w.entries[k], ended, env(order[0]));
        PutOk(w.entries, k, Serve(w.entries[k], ended, env(order[0])).0);
      }
      RoundOk(VisitOne(w, order[0], ended, env(order[0])), order[1..], ended, env);
    }
  }

  lemma OneIsOk(entries: seq<Entry>, k: nat)
    requires AllOk(entries) && k < |entries|
    ensures TerminalRuns.Inv(entries[k].io)
  {
  }

  lemma StepKeeps(w: World, a: Action)
    requires Inv(w)
    ensures Inv(Step(w, a))
  {
    hide TerminalRuns.Inv, InTurn, AllOk, Increasing, Change, Insert, Put, Tick, TerminalSpec.Attach, TerminalSpec.Detach, TerminalSpec.Step;
    match a {
      case Add(id, listening, detached, exposed) =>
        TerminalRuns.NewOk(listening, detached);
        InsertKeeps(w.entries, NewEntry(id, TerminalSpec.New(listening, detached), exposed));
      case Drop(id) =>
        if Find(w.entries, id) < |w.entries| {
          PutKeeps(w.entries, Find(w.entries, id), None);
          PutOk(w.entries, Find(w.entries, id), None);
        }
      case Round(ended, env) =>
        TickIsInTurn(w, ended, env);
        RoundOk(w, Order(w), ended, env);
        assert Tick(w, ended, env) == VisitAll(w, Order(w), ended, env) by { TickIs(w, ended, env); }
      case TakeEvent =>
      case OtherEvent =>
      case _ => ChangeStep(w, a);
    }
  }

  lemma TickIs(w: World, ended: bool, env: Id -> TerminalSpec.TickEnv)
    ensures Tick(w, ended, env) == VisitAll(w, Order(w), ended, env)
  {
  }

  lemma ChangeStep(w: World, a: Action)
    requires Inv(w) && (a.Exit? || a.Attach? || a.Detach? || a.Do?)
    ensures Inv(Step(w, a))
  {
    hide TerminalRuns.Inv, InTurn, AllOk, Increasing, Change, TerminalSpec.Attach, TerminalSpec.Detach, TerminalSpec.Step;
    var k := Find(w.entries, a.id);
    if k < |w.entries| {
      OneIsOk(w.entries, k);
      var e := w.entries[k];
      match a {
        case Exit(id) => ChangeKeeps(w.entries, id, e.(exited := true));
        case Attach(id, peek, nonblocking, greeting) =>
          TerminalRuns.AttachKeeps(e.io, peek, nonblocking, greeting);
          var io := TerminalSpec.Attach(e.io, peek, nonblocking, greeting).0;
          ChangeKeeps(w.entries, id, e.(io := io, exposed := true, reported := StatusOf(io)));
        case Detach(id, shutdown) =>
          TerminalRuns.DetachKeeps(e.io, shutdown);
          var io := TerminalSpec.Detach(e.io, shutdown).0;
          ChangeKeeps(w.entries, id, e.(io := io, reported := StatusOf(io)));
        case Do(id, action) =>
          TerminalRuns.StepKeeps(e.io, action);
          ChangeKeeps(w.entries, id, e.(io := TerminalSpec.Step(e.io, action)));
      }
    }
  }

  lemma {:induction false} RunKeeps(actions: seq<Action>)
    ensures Inv(Run(actions))
  {
    hide Step;
    if actions != [] {
      RunKeeps(actions[..|actions| - 1]);
      StepKeeps(Run(actions[..|actions| - 1]), actions[|actions| - 1]);
    }
  }

  /** In every run, the event queue stays within its capacity, and between two visits of one
      terminal every other terminal that was there all along is visited. */
  lemma EverybodyIsServed(actions: seq<Action>, i: nat, j: nat, x: Id)
    requires i < j < |Run(actions).visits| && Run(actions).visits[i].id == Run(actions).visits[j].id
    requires forall k :: i < k <= j ==> x in Run(actions).visits[k].present
    ensures |Run(actions).events| <= EVENTS
    ensures exists k :: i < k <= j && Run(actions).visits[k].id == x
  {
    hide Run, InTurn, Sorted, AllOk;
    RunKeeps(actions);
    var visits := Run(actions).visits;
    if x == visits[i].id {
      assert visits[j].id == x;
    } else if forall k :: i < k <= j ==> visits[k].id != x {
      NobodyIsOvertaken(visits, i, j, x);
    }
  }

  /** A terminal that somebody may have seen goes only when it was interrupted, was left
      detached, or its last consumer has had everything since it attached. */
  lemma RemovedIsSettled(e: Entry, ended: bool, env: TerminalSpec.TickEnv)
    requires TerminalRuns.Inv(e.io)
    ensures e.exposed && Serve(e, ended, env).0.None? ==>
            var (t, ok) := TerminalSpec.Tick(e.io, env);
            || !ok || t.interrupted || (t.detached && !t.peer)
            || (t.complete && t.log.attachments != []
                && TerminalSpec.Last(t.log).from <= |t.log.pty|
                && TerminalSpec.Last(t.log).received == TerminalSpec.Last(t.log).greeting + t.log.pty[TerminalSpec.Last(t.log).from..])
  {
    hide TerminalSpec.Tick, TerminalRuns.Buffered, TerminalRuns.Segments, TerminalRuns.Current, TerminalRuns.Input, TerminalRuns.FirstFromStart;
    TerminalRuns.TickKeeps(e.io, env);
  }

  // Composition: how an operation extends the event queue it is lent -------------------------

  predicate Grows(w: World, after: World) {
    |w.events| <= |after.events| && after.events[..|w.events|] == w.events
  }

  lemma {:induction false} VisitAllGrows(w: World, order: seq<Id>, ended: bool, env: Id -> TerminalSpec.TickEnv)
    ensures Grows(w, VisitAll(w, order, ended, env))
    decreases |order|
  {
    hide Serve, Put, Find;
    if order != [] && |w.events| < EVENTS {
      VisitAllGrows(VisitOne(w, order[0], ended, env(order[0])), order[1..], ended, env);
    }
  }

  lemma StepGrows(w: World, a: Action)
    requires !a.TakeEvent?
    ensures Grows(w, Step(w, a))
    ensures (a.Attach? || a.Detach?) ==> |Step(w, a).events| <= |w.events| + 1
    ensures (a.Add? || a.Drop? || a.Exit? || a.Do?) ==> Step(w, a).events == w.events
  {
    hide Put, Find, Insert, Change, VisitAll, TerminalSpec.Attach, TerminalSpec.Detach, TerminalSpec.Step, TerminalSpec.New;
    if a.Round? {
      VisitAllGrows(w, Order(w), a.ended, a.env);
    }
  }

  // The object --------------------------------------------------------------------------------

  class TerminalSet {
    var entries: seq<Entry>
    var cursor: Option<Id>
    ghost var visits: seq<Visit>

    ghost function View(events: seq<Event>): World
      reads this
    {
      World(entries, cursor, events, visits)
    }

    constructor ()
      ensures View([]) == Run([])
    {
      entries, cursor, visits := [], None, [];
    }

    /** One round over the terminals, as far as there is room for events. */
    method TickAll(events: seq<Event>, ended: bool, env: Id -> TerminalSpec.TickEnv) returns (out: seq<Event>)
      modifies this
      ensures View(out) == Tick(old(View(events)), ended, env)
    {
      hide VisitOne, Split;
      var ids := Ids(entries);
      var split := Split(ids, cursor);
      var order := ids[split..] + ids[..split];
      assert order == Order(View(events));
      out := events;
      assert order[0..] == order;
      for i := 0 to |order|
        invariant VisitAll(old(View(events)), order, ended, env) == VisitAll(View(out), order[i..], ended, env)
      {
        if |out| >= EVENTS {
          return;
        }
        assert order[i..][0] == order[i] && order[i..][1..] == order[i + 1..];
        out := VisitTerminal(order[i], out, ended, env(order[i]));
      }
    }

    /** Tick one terminal, report a change, and forget it when nothing is owed. */
    method VisitTerminal(id: Id, events: seq<Event>, ended: bool, env: TerminalSpec.TickEnv) returns (out: seq<Event>)
      modifies this
      ensures View(out) == VisitOne(old(View(events)), id, ended, env)
    {
      hide TerminalSpec.Tick, Present, Find;
      var k := Find(entries, id);
      if k == |entries| {
        return events;
      }
      visits := visits + [Visit(id, Present(entries))];
      cursor := Some(id);
      var e := entries[k];
      var (io, ok) := TerminalSpec.Tick(e.io, env);
      if !ok {
        io := io.(interrupted := true);
      }
      var status := StatusOf(io);
      var remove := (ended && (!e.exposed || CanEvict(io))) || (id > 0 && e.exited && !status.connected && CanEvict(io));
      if remove {
        status := status.(connected := false, attached := false);
      }
      e := e.(io := io);
      out := events;
      if e.exposed && (status != e.reported || !ok) {
        out := out + [Report(id, status, !ok)];
        e := e.(reported := status);
      }
      entries := Put(entries, k, if remove then None else Some(e));
    }
  }
}
