/** The scope process: members, their requests, and the lifetime of the scope's state. */
module ScopeServer {
  import opened Bytes
  import ScopeDocker
  import ChannelSpec

  type Transaction = ScopeDocker.Transaction

  /** A scope definition; `rest` stands for the fields that are only compared. */
  datatype Definition = Definition(pid: bool, docker: bool, rest: nat)

  datatype JoinInfo = JoinInfo(definition: Definition, allowNix: bool, online: bool)

  datatype Request =
    | Join(info: JoinInfo)
    | OpenStorage(names: seq<string>)
    | RegisterMember
    | AttachDocker(config: Option<ScopeDocker.Config>, parts: seq<ScopeDocker.Part>, more: bool)
    | ExtendDocker(parts: seq<ScopeDocker.Part>, more: bool)
    | DetachDocker
    | Leave
    | Other // undecodable, or not a member request

  datatype Reply = Joined | Storage(names: set<string>) | Registered | DockerPending | DockerAttached | DockerDetached | Left | Error

  datatype Scope = Scope(join: JoinInfo, docker: ScopeDocker.State)

  /** `registered`: a mount namespace is held, so there are payloads to kill. */
  datatype Member = Member(id: nat, joined: bool, docker: bool, pending: Option<Transaction>, leaving: bool, leftSent: bool,
                           registered: bool, closed: bool)

  datatype Server = Server(scope: Option<Scope>, members: seq<Member>, added: nat, idle: Option<nat>, stopped: bool)

  /** What system calls, descriptor decoding and channel queues answer during one request. */
  datatype Env = Env(created: bool, cloned: bool, sent: bool, pidCloned: bool, stored: bool, namespace: bool, decoded: bool,
                     connected: bool, foreign: ScopeDocker.Foreign, reported: bool)

  datatype Outcome = Outcome(scope: Option<Scope>, member: Member, replies: seq<Reply>, ok: bool)

  function Initial(): Server {
    Server(None, [], 0, None, false)
  }

  function NewMember(id: nat): Member {
    Member(id, false, false, None, false, false, false, false)
  }

  /** `compatible`. */
  predicate Compatible(have: JoinInfo, info: JoinInfo) {
    && have.online == info.online
    && (have.definition.docker ==> have.allowNix == info.allowNix)
    && have.definition == info.definition
  }

  predicate Distinct(names: seq<string>) {
    forall i, j :: 0 <= i < j < |names| ==> names[i] != names[j]
  }

  predicate DockerRequest(q: Request) {
    q.AttachDocker? || q.ExtendDocker? || q.DetachDocker?
  }

  /** What the unwraps and the user count rely on. */
  predicate Coherent(scope: Option<Scope>, m: Member) {
    && (m.joined ==> scope.Some?)
    && (m.docker ==> m.joined && scope.value.docker.users > 0)
  }

  function Say(sent: bool, r: Reply): seq<Reply> {
    if sent then [r] else []
  }

  function DropUser(scope: Option<Scope>): Option<Scope>
    requires scope.Some? && scope.value.docker.users > 0
  {
    Some(scope.value.(docker := ScopeDocker.Detach(scope.value.docker)))
  }

  /** One request, before errors are reported. */
  function Handle(scope: Option<Scope>, m: Member, q: Request, e: Env): Outcome
    requires Coherent(scope, m)
  {
    var refused := Outcome(scope, m, [], false);
    var active := m.joined && !m.leaving;
    match q
    case Join(info) =>
      if m.joined then refused else HandleJoin(scope, m, info, e)
    case Leave =>
      if !active then refused
      else
        Outcome(if m.docker then DropUser(scope) else scope,
                m.(registered := false, docker := false, pending := None, leaving := true), [], true)
    case OpenStorage(names) =>
      if !active || |names| > ChannelSpec.MAX_FDS || !Distinct(names) || !e.stored then refused
      else Outcome(scope, m, Say(e.sent, Storage(set n | n in names)), e.sent)
    case RegisterMember =>
      if !active || m.registered || !e.namespace then refused
      else Outcome(scope, m.(registered := true), Say(e.sent, Registered), e.sent)
    case AttachDocker(config, parts, more) =>
      if !active || m.docker || !scope.value.join.definition.docker || (m.pending.Some? && config.Some?) then refused
      else
        var pending := if m.pending.Some? then m.pending.value else ScopeDocker.Transaction(false, config, []);
        if pending.extending then refused else HandleParts(scope, m, pending, parts, more, e)
    case ExtendDocker(parts, more) =>
      if !active || !m.docker then refused
      else
        var pending := if m.pending.Some? then m.pending.value else ScopeDocker.Transaction(true, None, []);
        if !pending.extending then refused else HandleParts(scope, m, pending, parts, more, e)
    case DetachDocker =>
      if !active || !m.docker then refused
      else Outcome(DropUser(scope), m.(pending := None, docker := false), Say(e.sent, DockerDetached), e.sent)
    case Other =>
      refused
  }

  function HandleJoin(scope: Option<Scope>, m: Member, info: JoinInfo, e: Env): Outcome {
    if if scope.Some? then !Compatible(scope.value.join, info) else !e.created then Outcome(scope, m, [], false)
    else
      var s := if scope.Some? then scope.value else Scope(info, ScopeDocker.Initial());
      if !e.cloned || !e.sent then Outcome(Some(s), m, [], false)
      else if s.join.definition.pid && !e.pidCloned then Outcome(Some(s), m, [Joined], false)
      else Outcome(Some(s), m.(joined := true), [Joined], true)
  }

  function HandleParts(scope: Option<Scope>, m: Member, pending: Transaction, parts: seq<ScopeDocker.Part>, more: bool, e: Env): Outcome
    requires scope.Some?
  {
    var all := pending.(parts := pending.parts + parts);
    if !e.decoded then Outcome(scope, m, [], false)
    else if more then Outcome(scope, m.(pending := Some(all)), Say(e.sent, DockerPending), e.sent)
    else if !e.connected then Outcome(scope, m.(pending := None), [], false)
    else
      var (docker, ok) := ScopeDocker.Apply(scope.value.docker, all, e.foreign);
      var after := Some(scope.value.(docker := docker));
      if !ok then Outcome(after, m.(pending := None), [], false)
      else Outcome(after, m.(pending := None, docker := true), Say(e.sent, DockerAttached), e.sent)
  }

  /** One request with its error report: the failed one loses its transaction, and only a
      failed Docker request leaves the member connected. */
  function Respond(scope: Option<Scope>, m: Member, q: Request, e: Env): Outcome
    requires Coherent(scope, m)
  {
    var o := Handle(scope, m, q, e);
    if o.ok then o
    else o.(member := o.member.(pending := None, closed := m.closed || !DockerRequest(q)), replies := o.replies + Say(e.reported, Error))
  }

  /** A member whose channel closed is cleaned up and detached, then forgotten. */
  function SweepScope(scope: Option<Scope>, members: seq<Member>): Option<Scope>
    requires Count(members) > 0 ==> scope.Some? && scope.value.docker.users >= Count(members)
    decreases |members|
  {
    if members == [] then scope
    else if members[0].closed && members[0].docker then SweepScope(DropUser(scope), members[1..])
    else SweepScope(scope, members[1..])
  }

  function StillOpen(members: seq<Member>): seq<Member> {
    if members == [] then [] else (if members[0].closed then [] else [members[0]]) + StillOpen(members[1..])
  }

  /** `acknowledge_leavers` for one member; `drained` says whose output was written completely. */
  function Acknowledged(m: Member, drained: set<nat>): Member {
    if m.leaving && !m.closed then m.(leftSent := true, closed := m.id in drained) else m
  }

  function AcknowledgedAll(members: seq<Member>, drained: set<nat>): seq<Member> {
    seq(|members|, k requires 0 <= k < |members| => Acknowledged(members[k], drained))
  }

  predicate OwedLeft(m: Member) {
    m.leaving && !m.closed && !m.leftSent
  }

  predicate SomeActive(members: seq<Member>) {
    exists k :: 0 <= k < |members| && !members[k].leaving && !members[k].closed
  }

  function Cleaned(members: seq<Member>): seq<Member> {
    seq(|members|, k requires 0 <= k < |members| => members[k].(registered := false))
  }

  datatype Event =
    | Add
    | Serve(k: nat, request: Request, env: Env)
    | Hangup(k: nat)
    | Sweep
    | Acknowledge(drained: set<nat>)
    | ReportIdle
    | Stop(drained: set<nat>)
    | Exit

  /** One step of the server; a step that does not apply changes nothing. */
  function Next(s: Server, ev: Event): Server
    requires Valid(s)
  {
    if s.stopped then s
    else
      match ev
      case Add => s.(members := s.members + [NewMember(s.added)], added := s.added + 1)
      case Serve(k, q, e) =>
        if k >= |s.members| || s.members[k].closed then s
        else
          ValidIsCoherent(s, k);
          var o := Respond(s.scope, s.members[k], q, e);
          s.(scope := o.scope, members := s.members[k := o.member])
      case Hangup(k) =>
        if k >= |s.members| then s else s.(members := s.members[k := s.members[k].(closed := true)])
      case Sweep =>
        CountIsCovered(s);
        s.(scope := SweepScope(s.scope, s.members), members := StillOpen(s.members))
      case Acknowledge(drained) =>
        if SomeActive(s.members) then s.(members := AcknowledgedAll(s.members, drained)) else s
      case ReportIdle =>
        if s.added > 0 && !SomeActive(s.members) && s.idle != Some(s.added) then s.(idle := Some(s.added)) else s
      case Stop(drained) =>
        s.(scope := None, members := AcknowledgedAll(Cleaned(s.members), drained), stopped := true)
      case Exit =>
        s.(scope := None, members := [], stopped := true)
  }

  // The invariant -----------------------------------------------------------------------

  /** Members with Docker attached. */
  function Count(members: seq<Member>): nat {
    if members == [] then 0 else (if members[0].docker then 1 else 0) + Count(members[1..])
  }

  predicate MemberOk(m: Member) {
    && (m.docker ==> m.joined && !m.leaving)
    && (m.registered ==> m.joined && !m.leaving)
    && (m.leaving ==> m.joined)
    && (m.leftSent ==> m.leaving)
    && (m.pending.Some? ==> m.joined && !m.leaving && (m.pending.value.extending <==> m.docker))
  }

  predicate Ordered(members: seq<Member>, added: nat) {
    && (forall i :: 0 <= i < |members| ==> members[i].id < added)
    && (forall i, j :: 0 <= i < j < |members| ==> members[i].id < members[j].id)
  }

  /** Members rely on a scope that is there; the engine counts exactly the attached ones. */
  predicate ScopeOk(scope: Option<Scope>, members: seq<Member>) {
    && (scope.None? ==> forall k :: 0 <= k < |members| ==> !members[k].joined)
    && (scope.Some? ==> ScopeDocker.Valid(scope.value.docker) && scope.value.docker.users == Count(members))
    && (scope.Some? && scope.value.docker.users > 0 ==> scope.value.join.definition.docker)
  }

  predicate AllOk(members: seq<Member>) {
    forall k :: 0 <= k < |members| ==> MemberOk(members[k])
  }

  predicate Valid(s: Server) {
    && Ordered(s.members, s.added)
    && (s.idle.Some? ==> s.idle.value <= s.added)
    && AllOk(s.members)
    && (!s.stopped ==> ScopeOk(s.scope, s.members))
    && (s.stopped ==> s.scope.None?)
  }

  function Users(scope: Option<Scope>): nat {
    if scope.Some? then scope.value.docker.users else 0
  }

  function One(b: bool): nat {
    if b then 1 else 0
  }

  /** The state of the scope, apart from who its users are. */
  predicate Sound(scope: Option<Scope>) {
    scope.Some? ==> ScopeDocker.Valid(scope.value.docker) && (scope.value.docker.users > 0 ==> scope.value.join.definition.docker)
  }

  lemma {:induction false} CountUpdate(members: seq<Member>, k: nat, m: Member)
    requires k < |members|
    ensures Count(members[k := m]) + One(members[k].docker) == Count(members) + One(m.docker)
  {
    if k == 0 {
      assert members[k := m][1..] == members[1..];
    } else {
      assert members[k := m][1..] == members[1..][k - 1 := m];
      CountUpdate(members[1..], k - 1, m);
    }
  }

  lemma {:induction false} CountAppend(members: seq<Member>, m: Member)
    ensures Count(members + [m]) == Count(members) + One(m.docker)
  {
    if members == [] {
      assert members + [m] == [m] && [m][1..] == [];
    } else {
      assert (members + [m])[1..] == members[1..] + [m];
      CountAppend(members[1..], m);
    }
  }

  lemma {:induction false} CountSame(a: seq<Member>, b: seq<Member>)
    requires |a| == |b| && forall k :: 0 <= k < |a| ==> a[k].docker == b[k].docker
    ensures Count(a) == Count(b)
  {
    if a != [] {
      CountSame(a[1..], b[1..]);
    }
  }

  lemma {:induction false} CountBounds(members: seq<Member>, k: nat)
    requires k < |members|
    ensures Count(members) >= One(members[k].docker)
  {
    if k > 0 {
      CountBounds(members[1..], k - 1);
    }
  }

  lemma {:induction false} CountNone(members: seq<Member>)
    requires forall k :: 0 <= k < |members| ==> !members[k].docker
    ensures Count(members) == 0
  {
    if members != [] {
      CountNone(members[1..]);
    }
  }

  /** The scope record of a valid server meets what a request handler relies on. */
  lemma ValidIsCoherent(s: Server, k: nat)
    requires Valid(s) && !s.stopped && k < |s.members|
    ensures Coherent(s.scope, s.members[k]) && MemberOk(s.members[k]) && Sound(s.scope)
    ensures Users(s.scope) == Count(s.members)
  {
    hide Count;
    CountBounds(s.members, k);
    if s.scope.None? {
      assert forall i :: 0 <= i < |s.members| ==> MemberOk(s.members[i]);
      CountNone(s.members);
    }
  }

  lemma CountIsCovered(s: Server)
    requires Valid(s) && !s.stopped
    ensures Count(s.members) > 0 ==> s.scope.Some? && s.scope.value.docker.users >= Count(s.members)
  {
    hide Count;
    if s.scope.None? {
      assert forall i :: 0 <= i < |s.members| ==> MemberOk(s.members[i]);
      CountNone(s.members);
    }
  }

  /** What handling a request of `m` may do to it and to the scope. */
  predicate Kept(scope: Option<Scope>, m: Member, o: Outcome) {
    && MemberOk(o.member) && Coherent(o.scope, o.member) && Sound(o.scope)
    && o.member.id == m.id && o.member.leftSent == m.leftSent && o.member.closed == m.closed
    && (m.leaving ==> o.member.leaving)
    && Users(o.scope) + One(m.docker) == Users(scope) + One(o.member.docker)
    && (scope.Some? ==> o.scope.Some? && o.scope.value.join == scope.value.join)
  }

  /** One request of any member, whatever it asks and whatever fails: its flags stay
      consistent, and the user count moves exactly with its Docker flag. */
  lemma RespondKeeps(scope: Option<Scope>, m: Member, q: Request, e: Env)
    requires Coherent(scope, m) && MemberOk(m) && Sound(scope)
    ensures var o := Respond(scope, m, q, e);
            Kept(scope, m, o.(member := o.member.(closed := m.closed))) && (o.member.closed == (m.closed || (!o.ok && !DockerRequest(q))))
  {
    hide Handle, ScopeDocker.Valid;
    HandleKeeps(scope, m, q, e);
  }

  lemma HandleKeeps(scope: Option<Scope>, m: Member, q: Request, e: Env)
    requires Coherent(scope, m) && MemberOk(m) && Sound(scope)
    ensures Kept(scope, m, Handle(scope, m, q, e))
  {
    hide HandleParts, HandleJoin, ScopeDocker.Valid, ScopeDocker.Detach;
    match q {
      case Join(info) => if !m.joined { JoinKeeps(scope, m, info, e); }
      case AttachDocker(config, parts, more) => AttachKeeps(scope, m, config, parts, more, e);
      case ExtendDocker(parts, more) => ExtendKeeps(scope, m, parts, more, e);
      case Leave => if m.docker { ScopeDocker.DetachKeeps(scope.value.docker); }
      case DetachDocker => if m.docker { ScopeDocker.DetachKeeps(scope.value.docker); }
      case _ =>
    }
  }

  lemma AttachKeeps(scope: Option<Scope>, m: Member, config: Option<ScopeDocker.Config>, parts: seq<ScopeDocker.Part>, more: bool, e: Env)
    requires Coherent(scope, m) && MemberOk(m) && Sound(scope)
    ensures Kept(scope, m, Handle(scope, m, AttachDocker(config, parts, more), e))
  {
    hide HandleParts, ScopeDocker.Valid;
    if m.joined && !m.docker && scope.value.join.definition.docker && !m.leaving {
      PartsKeep(scope, m, if m.pending.Some? then m.pending.value else ScopeDocker.Transaction(false, config, []), parts, more, e);
    }
  }

  lemma ExtendKeeps(scope: Option<Scope>, m: Member, parts: seq<ScopeDocker.Part>, more: bool, e: Env)
    requires Coherent(scope, m) && MemberOk(m) && Sound(scope)
    ensures Kept(scope, m, Handle(scope, m, ExtendDocker(parts, more), e))
  {
    hide HandleParts, ScopeDocker.Valid;
    if m.docker {
      PartsKeep(scope, m, if m.pending.Some? then m.pending.value else ScopeDocker.Transaction(true, None, []), parts, more, e);
    }
  }

  lemma JoinKeeps(scope: Option<Scope>, m: Member, info: JoinInfo, e: Env)
    requires MemberOk(m) && Sound(scope) && !m.joined
    ensures var o := HandleJoin(scope, m, info, e);
            && MemberOk(o.member) && Sound(o.scope) && Users(o.scope) == Users(scope)
            && (o.member.joined ==> o.scope.Some?) && o.member == m.(joined := o.member.joined)
            && (scope.Some? ==> o.scope == scope)
            && (o.ok ==> o.scope.Some? && Compatible(o.scope.value.join, info))
  {
  }

  lemma PartsKeep(scope: Option<Scope>, m: Member, pending: Transaction, parts: seq<ScopeDocker.Part>, more: bool, e: Env)
    requires Coherent(scope, m) && MemberOk(m) && Sound(scope) && m.joined && !m.leaving
    requires pending.extending <==> m.docker
    requires scope.value.join.definition.docker
    ensures var o := HandleParts(scope, m, pending, parts, more, e);
            && MemberOk(o.member) && o.scope.Some? && Sound(o.scope)
            && o.scope.value.join == scope.value.join
            && (m.docker ==> o.member.docker)
            && o.member == m.(pending := o.member.pending, docker := o.member.docker)
            && Users(o.scope) + One(m.docker) == Users(scope) + One(o.member.docker)
  {
    hide ScopeDocker.Apply, ScopeDocker.Valid;
    ScopeDocker.ApplyKeeps(scope.value.docker, pending.(parts := pending.parts + parts), e.foreign);
  }

  /** Sweeping detaches exactly the members that are forgotten. */
  lemma {:induction false} SweepKeeps(scope: Option<Scope>, members: seq<Member>)
    requires Count(members) > 0 ==> scope.Some? && scope.value.docker.users >= Count(members)
    requires Sound(scope)
    ensures var after := SweepScope(scope, members);
            && Sound(after) && (after.Some? <==> scope.Some?)
            && (scope.Some? ==> after.value.join == scope.value.join)
            && Users(after) + Count(members) == Users(scope) + Count(StillOpen(members))
    decreases |members|
  {
    if members != [] {
      var m := members[0];
      if m.closed {
        if m.docker {
          ScopeDocker.DetachKeeps(scope.value.docker);
          SweepKeeps(DropUser(scope), members[1..]);
        } else {
          SweepKeeps(scope, members[1..]);
        }
        assert StillOpen(members) == StillOpen(members[1..]);
      } else {
        SweepKeeps(scope, members[1..]);
        assert StillOpen(members)[1..] == StillOpen(members[1..]);
      }
    }
  }

  /** What is left are members that were there, in the same order, all open. */
  lemma {:induction false} StillOpenKeeps(members: seq<Member>, added: nat)
    requires Ordered(members, added) && AllOk(members)
    ensures Ordered(StillOpen(members), added) && AllOk(StillOpen(members))
    ensures forall m :: m in StillOpen(members) <==> m in members && !m.closed
    ensures forall i :: 0 <= i < |StillOpen(members)| ==> StillOpen(members)[i] in members
  {
    if members != [] {
      var rest := StillOpen(members[1..]);
      StillOpenKeeps(members[1..], added);
      assert members == [members[0]] + members[1..];
      assert forall i :: 0 <= i < |rest| ==> rest[i] in members[1..];
    }
  }

  /** Every step of the server keeps the invariant: with any request from any member, any
      failure of a system call, and any channel closing at any time. */
  lemma NextKeeps(s: Server, ev: Event)
    requires Valid(s)
    ensures Valid(Next(s, ev))
  {
    hide Respond, Count, SweepScope, StillOpen, ScopeDocker.Valid;
    if !s.stopped {
      match ev {
        case Add => AddKeeps(s);
        case Serve(k, q, e) => if k < |s.members| && !s.members[k].closed { ServeKeeps(s, k, q, e); }
        case Hangup(k) => if k < |s.members| { CountUpdate(s.members, k, s.members[k].(closed := true)); }
        case Sweep => SweepValid(s);
        case Acknowledge(drained) => CountSame(s.members, AcknowledgedAll(s.members, drained));
        case ReportIdle =>
        case Stop(drained) =>
        case Exit =>
      }
    }
  }

  lemma AddKeeps(s: Server)
    requires Valid(s) && !s.stopped
    ensures Valid(Next(s, Add))
  {
    hide Count, ScopeDocker.Valid;
    CountAppend(s.members, NewMember(s.added));
  }

  lemma ServeKeeps(s: Server, k: nat, q: Request, e: Env)
    requires Valid(s) && !s.stopped && k < |s.members| && !s.members[k].closed
    ensures Valid(Next(s, Serve(k, q, e)))
  {
    hide Respond, Count, ScopeDocker.Valid;
    ValidIsCoherent(s, k);
    RespondKeeps(s.scope, s.members[k], q, e);
    var o := Respond(s.scope, s.members[k], q, e);
    CountUpdate(s.members, k, o.member);
  }

  lemma SweepValid(s: Server)
    requires Valid(s) && !s.stopped
    ensures Valid(Next(s, Sweep))
  {
    hide SweepScope, StillOpen, Count, ScopeDocker.Valid;
    CountIsCovered(s);
    SweepKeeps(s.scope, s.members);
    StillOpenKeeps(s.members, s.added);
    if s.scope.None? {
      assert forall i :: 0 <= i < |StillOpen(s.members)| ==> StillOpen(s.members)[i] in s.members;
    }
  }

  /** The server after any list of steps. */
  function Run(events: seq<Event>): (s: Server)
    ensures Valid(s)
  {
    if events == [] then Initial()
    else
      var before := Run(events[..|events| - 1]);
      NextKeeps(before, events[|events| - 1]);
      Next(before, events[|events| - 1])
  }

  function Attached(members: seq<Member>): set<nat> {
    set k | 0 <= k < |members| && members[k].docker :: members[k].id
  }

  lemma AttachedSplit(members: seq<Member>)
    requires members != []
    ensures Attached(members) == (if members[0].docker then {members[0].id} else {}) + Attached(members[1..])
  {
    var first := if members[0].docker then {members[0].id} else {};
    var rest := members[1..];
    forall id | id in Attached(members) ensures id in first + Attached(rest) {
      var k :| 0 <= k < |members| && members[k].docker && members[k].id == id;
      if k > 0 { assert rest[k - 1] == members[k]; }
    }
    forall id | id in first + Attached(rest) ensures id in Attached(members) {
      if id !in first {
        var k :| 0 <= k < |rest| && rest[k].docker && rest[k].id == id;
        assert members[k + 1] == rest[k];
      }
    }
  }

  lemma {:induction false} CountIsSize(members: seq<Member>, added: nat)
    requires Ordered(members, added)
    ensures Count(members) == |Attached(members)|
  {
    if members != [] {
      CountIsSize(members[1..], added);
      AttachedSplit(members);
      forall k | 0 <= k < |members[1..]| ensures members[1..][k].id != members[0].id {
        assert members[1..][k] == members[k + 1];
      }
    }
  }

  /** In every reachable state of a running server: the user count is the number of attached
      members, the engine runs exactly while there is one (and only in a scope that enables
      Docker), nothing is kept without it, granted destinations never overlap, and every
      joined member has the scope. */
  lemma Accounting(events: seq<Event>)
    requires !Run(events).stopped
    ensures var s := Run(events);
            && (s.scope.Some? ==>
                  var d := s.scope.value.docker;
                  && d.users == |Attached(s.members)|
                  && (d.engine <==> Attached(s.members) != {})
                  && (d.engine ==> s.scope.value.join.definition.docker)
                  && (!d.engine ==> d.grants == [] && d.leases == [])
                  && ScopeDocker.Disjoint(d.grants))
            && (forall k :: 0 <= k < |s.members| && s.members[k].joined ==> s.scope.Some?)
  {
    hide Next, Count, ScopeDocker.Disjoint;
    CountIsSize(Run(events).members, Run(events).added);
  }

  // The process -------------------------------------------------------------------------

  class ScopeProcess {
    var scope: Option<Scope>
    var members: seq<Member>
    var added: nat
    var idle: Option<nat>
    var stopped: bool

    ghost function View(): Server
      reads this
    {
      Server(scope, members, added, idle, stopped)
    }

    constructor ()
      ensures View() == Initial()
    {
      scope, members, added, idle, stopped := None, [], 0, None, false;
    }

    method AddMember()
      requires Valid(View()) && !stopped
      modifies this
      ensures Valid(View()) && View() == Next(old(View()), Add)
    {
      NextKeeps(View(), Add);
      members := members + [NewMember(added)];
      added := added + 1;
    }

    /** Serve one frame of one member, reporting a failure to it. */
    method ServeMember(k: nat, q: Request, e: Env) returns (replies: seq<Reply>)
      requires Valid(View()) && !stopped && k < |members| && !members[k].closed
      modifies this
      ensures Valid(View()) && View() == Next(old(View()), Serve(k, q, e))
      ensures Coherent(old(scope), old(members[k])) && replies == Respond(old(scope), old(members[k]), q, e).replies
    {
      hide Handle, ScopeOk, AllOk, Ordered;
      NextKeeps(View(), Serve(k, q, e));
      ValidIsCoherent(View(), k);
      HandleKeeps(scope, members[k], q, e);
      ghost var o := Respond(scope, members[k], q, e);
      ghost var after := Next(View(), Serve(k, q, e));
      assert after == View().(scope := o.scope, members := members[k := o.member]);
      var ok;
      ok, replies := HandleRequest(k, q, e);
      if !ok {
        if e.reported {
          replies := replies + [Error];
        }
        members := members[k := members[k].(pending := None)];
        if !DockerRequest(q) {
          members := members[k := members[k].(closed := true)];
        }
      }
      assert members == old(members)[k := o.member];
      assert View() == after;
    }

    method HandleRequest(k: nat, q: Request, e: Env) returns (ok: bool, replies: seq<Reply>)
      requires k < |members| && Coherent(scope, members[k])
      modifies this`scope, this`members
      ensures |members| == |old(members)| && members == old(members)[k := members[k]]
      ensures Outcome(scope, members[k], replies, ok) == Handle(old(scope), old(members[k]), q, e)
    {
      hide HandleParts, HandleJoin;
      var m := members[k];
      ok, replies := false, [];
      match q {
        case Join(info) =>
          if !m.joined {
            ok, replies := HandleJoinRequest(k, info, e);
          }
        case Leave =>
          if m.joined && !m.leaving {
            if m.docker {
              scope := DropUser(scope);
            }
            members := members[k := m.(registered := false, docker := false, pending := None, leaving := true)];
            ok := true;
          }
        case OpenStorage(names) =>
          if m.joined && !m.leaving && |names| <= ChannelSpec.MAX_FDS {
            var directories, distinct := OpenDirectories(names);
            if distinct && e.stored {
              ok, replies := e.sent, Say(e.sent, Storage(directories));
            }
          }
        case RegisterMember =>
          if m.joined && !m.leaving && !m.registered && e.namespace {
            members := members[k := m.(registered := true)];
            ok, replies := e.sent, Say(e.sent, Registered);
          }
        case AttachDocker(config, parts, more) =>
          if m.joined && !m.leaving && !m.docker && scope.value.join.definition.docker && (m.pending.None? || config.None?) {
            var pending := if m.pending.Some? then m.pending.value else ScopeDocker.Transaction(false, config, []);
            if !pending.extending {
              ok, replies := ExtendTransaction(k, pending, parts, more, e);
            }
          }
        case ExtendDocker(parts, more) =>
          if m.joined && !m.leaving && m.docker {
            var pending := if m.pending.Some? then m.pending.value else ScopeDocker.Transaction(true, None, []);
            if pending.extending {
              ok, replies := ExtendTransaction(k, pending, parts, more, e);
            }
          }
        case DetachDocker =>
          if m.joined && !m.leaving && m.docker {
            members := members[k := m.(pending := None, docker := false)];
            scope := DropUser(scope);
            ok, replies := e.sent, Say(e.sent, DockerDetached);
          }
        case Other =>
      }
    }

    method HandleJoinRequest(k: nat, info: JoinInfo, e: Env) returns (ok: bool, replies: seq<Reply>)
      requires k < |members|
      modifies this`scope, this`members
      ensures |members| == |old(members)| && members == old(members)[k := members[k]]
      ensures Outcome(scope, members[k], replies, ok) == HandleJoin(old(scope), old(members[k]), info, e)
    {
      ok, replies := false, [];
      if scope.Some? {
        if !Compatible(scope.value.join, info) {
          return;
        }
      } else {
        if !e.created {
          return;
        }
        scope := Some(Scope(info, ScopeDocker.Initial()));
      }
      if !e.cloned || !e.sent {
        return;
      }
      replies := [Joined];
      if scope.value.join.definition.pid && !e.pidCloned {
        return;
      }
      members := members[k := members[k].(joined := true)];
      ok := true;
    }

    /** Collect the directories asked for; a repeated name is refused. */
    method OpenDirectories(names: seq<string>) returns (directories: set<string>, distinct: bool)
      ensures distinct <==> Distinct(names)
      ensures distinct ==> directories == (set n | n in names)
    {
      directories := {};
      for i := 0 to |names|
        invariant directories == (set n | n in names[..i])
        invariant Distinct(names[..i])
      {
        if names[i] in directories {
          return {}, false;
        }
        directories := directories + {names[i]};
        assert names[..i + 1] == names[..i] + [names[i]];
      }
      assert names[..|names|] == names;
      distinct := true;
    }

    method ExtendTransaction(k: nat, pending: Transaction, parts: seq<ScopeDocker.Part>, more: bool, e: Env) returns (ok: bool, replies: seq<Reply>)
      requires k < |members| && scope.Some?
      modifies this`scope, this`members
      ensures |members| == |old(members)| && members == old(members)[k := members[k]]
      ensures Outcome(scope, members[k], replies, ok) == HandleParts(old(scope), old(members[k]), pending, parts, more, e)
    {
      hide ScopeDocker.Apply;
      ok, replies := false, [];
      if !e.decoded {
        return;
      }
      var all := pending.(parts := pending.parts + parts);
      if more {
        members := members[k := members[k].(pending := Some(all))];
        return e.sent, Say(e.sent, DockerPending);
      }
      members := members[k := members[k].(pending := None)];
      if !e.connected {
        return;
      }
      var (docker, applied) := ScopeDocker.Apply(scope.value.docker, all, e.foreign);
      scope := Some(scope.value.(docker := docker));
      if applied {
        members := members[k := members[k].(docker := true)];
        ok, replies := e.sent, Say(e.sent, DockerAttached);
      }
    }

    /** Clean up after members whose channel closed, then forget them. */
    method SweepMembers()
      requires Valid(View()) && !stopped
      modifies this
      ensures Valid(View()) && View() == Next(old(View()), Sweep)
    {
      hide Count, SweepScope, StillOpen, ScopeOk, AllOk, Ordered, ScopeDocker.Detach;
      NextKeeps(View(), Sweep);
      CountIsCovered(View());
      var kept: seq<Member> := [];
      assert members[0..] == members;
      for i := 0 to |members|
        invariant members == old(members) && View() == old(View()).(scope := scope)
        invariant Count(members[i..]) > 0 ==> scope.Some? && scope.value.docker.users >= Count(members[i..])
        invariant Covered(old(View())) && SweepScope(old(scope), members) == SweepScope(scope, members[i..])
        invariant StillOpen(members) == kept + StillOpen(members[i..])
      {
        SweepStep(scope, members[i..]);
        assert members[i..][0] == members[i] && members[i..][1..] == members[i + 1..];
        if members[i].closed {
          if members[i].docker {
            scope := DropUser(scope);
          }
        } else {
          Assoc(kept, [members[i]], StillOpen(members[i + 1..]));
          kept := kept + [members[i]];
        }
      }
      assert members[|members|..] == [];
      SweepEnd(scope);
      assert kept + [] == kept;
      members := kept;
    }

    /** Send `Left` to every leaver and close the channels that took it completely. */
    method AcknowledgeLeavers(drained: set<nat>) returns (lefts: set<nat>)
      modifies this`members
      ensures members == AcknowledgedAll(old(members), drained)
      ensures lefts == (set k | 0 <= k < |old(members)| && OwedLeft(old(members)[k]) :: old(members)[k].id)
    {
      lefts := {};
      for i := 0 to |members|
        invariant |members| == |old(members)|
        invariant forall k :: 0 <= k < i ==> members[k] == Acknowledged(old(members)[k], drained)
        invariant forall k :: i <= k < |members| ==> members[k] == old(members)[k]
        invariant lefts == (set k | 0 <= k < i && OwedLeft(old(members)[k]) :: old(members)[k].id)
      {
        var m := members[i];
        if m.leaving && !m.closed {
          if !m.leftSent {
            lefts := lefts + {m.id};
            m := m.(leftSent := true);
          }
          if m.id in drained {
            m := m.(closed := true);
          }
          members := members[i := m];
        }
      }
    }

    /** Leavers are released now only while somebody else keeps the scope in use. */
    method AcknowledgeIfMembersRemain(drained: set<nat>) returns (lefts: set<nat>)
      requires Valid(View()) && !stopped
      modifies this
      ensures Valid(View()) && View() == Next(old(View()), Acknowledge(drained))
      ensures lefts != {} ==> SomeActive(old(members))
    {
      NextKeeps(View(), Acknowledge(drained));
      lefts := {};
      if SomeActive(members) {
        lefts := AcknowledgeLeavers(drained);
      }
    }

    /** `Idle` is reported once for each number of members ever added. */
    method CheckIdle() returns (report: Option<nat>)
      requires Valid(View()) && !stopped
      modifies this
      ensures Valid(View()) && View() == Next(old(View()), ReportIdle)
      ensures report.Some? ==> report == Some(added) && !SomeActive(members) && (old(idle).Some? ==> old(idle).value < added)
    {
      report := None;
      if added > 0 && !SomeActive(members) && idle != Some(added) {
        report := Some(added);
        idle := Some(added);
      }
    }

    /** Kill every member's payloads, drop the scope, and only then release the last leavers. */
    method FinishStop(drained: set<nat>) returns (lefts: set<nat>)
      requires Valid(View()) && !stopped
      modifies this
      ensures Valid(View()) && View() == Next(old(View()), Stop(drained))
    {
      hide ScopeOk, AllOk, Ordered;
      NextKeeps(View(), Stop(drained));
      for i := 0 to |members|
        invariant |members| == |old(members)| && View() == old(View()).(members := members)
        invariant forall k :: 0 <= k < i ==> members[k] == old(members)[k].(registered := false)
        invariant forall k :: i <= k < |members| ==> members[k] == old(members)[k]
      {
        members := members[i := members[i].(registered := false)];
      }
      assert members == Cleaned(old(members));
      scope := None;
      stopped := true;
      lefts := AcknowledgeLeavers(drained);
    }
  }

  ghost predicate Covered(s: Server) {
    Count(s.members) > 0 ==> s.scope.Some? && s.scope.value.docker.users >= Count(s.members)
  }

  lemma SweepStep(scope: Option<Scope>, members: seq<Member>)
    requires members != []
    requires Count(members) > 0 ==> scope.Some? && scope.value.docker.users >= Count(members)
    ensures StillOpen(members) == (if members[0].closed then [] else [members[0]]) + StillOpen(members[1..])
    ensures members[0].docker ==> scope.Some? && scope.value.docker.users > 0 && Users(DropUser(scope)) + 1 == Users(scope)
    ensures Count(members) == One(members[0].docker) + Count(members[1..])
    ensures SweepScope(scope, members) ==
            SweepScope(if members[0].closed && members[0].docker then DropUser(scope) else scope, members[1..])
  {
  }

  lemma SweepEnd(scope: Option<Scope>)
    ensures Count([]) == 0 && SweepScope(scope, []) == scope && StillOpen([]) == []
  {
  }
}
