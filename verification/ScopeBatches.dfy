/** One Docker transaction split over frames, with other members served between them. */
module ScopeBatches {
  import opened Bytes
  import opened ScopeServer
  import ScopeDocker
  import ChannelSpec

  // Batches -----------------------------------------------------------------------------

  /** Parts as the frames carry them: at most as many as a frame has descriptors; an empty
      transaction is still one frame. */
  function Batches(parts: seq<ScopeDocker.Part>): (b: seq<seq<ScopeDocker.Part>>)
    ensures b != []
    decreases |parts|
  {
    if |parts| <= ChannelSpec.MAX_FDS then [parts]
    else [parts[..ChannelSpec.MAX_FDS]] + Batches(parts[ChannelSpec.MAX_FDS..])
  }

  /** The requests `docker` sends; only the first carries the configuration, only the last ends. */
  function Requests(config: Option<ScopeDocker.Config>, extending: bool, batches: seq<seq<ScopeDocker.Part>>): seq<Request>
    decreases |batches|
  {
    if batches == [] then []
    else
      [if extending then ExtendDocker(batches[0], |batches| > 1) else AttachDocker(config, batches[0], |batches| > 1)]
      + Requests(None, extending, batches[1..])
  }

  lemma {:induction false} BatchesCover(parts: seq<ScopeDocker.Part>)
    ensures Flatten(Batches(parts)) == parts
    ensures forall i :: 0 <= i < |Batches(parts)| ==> |Batches(parts)[i]| <= ChannelSpec.MAX_FDS
    decreases |parts|
  {
    if |parts| <= ChannelSpec.MAX_FDS {
      assert Flatten([parts]) == parts + Flatten([]);
    } else {
      BatchesCover(parts[ChannelSpec.MAX_FDS..]);
      assert Batches(parts)[1..] == Batches(parts[ChannelSpec.MAX_FDS..]);
      assert parts == parts[..ChannelSpec.MAX_FDS] + parts[ChannelSpec.MAX_FDS..];
    }
  }

  // A conversation among others ------------------------------------------------------------

  function Position(members: seq<Member>, id: nat): (k: nat)
    ensures k <= |members| && (k < |members| ==> members[k].id == id) && forall i :: 0 <= i < k ==> members[i].id != id
  {
    if members == [] || members[0].id == id then 0 else 1 + Position(members[1..], id)
  }

  /** A step that serves this member. */
  predicate Touches(s: Server, id: nat, ev: Event) {
    ev.Serve? && ev.k < |s.members| && s.members[ev.k].id == id
  }

  /** The member can not be served any more: closed, forgotten, or the server stopped. */
  predicate Lost(s: Server, id: nat) {
    s.stopped || Position(s.members, id) == |s.members| || s.members[Position(s.members, id)].closed
  }

  /** Any steps of the server that do not serve this member; its channel may close, and the server
      may stop. */
  function Others(s: Server, id: nat, events: seq<Event>): (r: Server)
    requires Valid(s)
    ensures Valid(r)
    decreases |events|
  {
    if events == [] then s
    else
      NextKeeps(s, events[0]);
      Others(if Touches(s, id, events[0]) then s else Next(s, events[0]), id, events[1..])
  }

  /** The client's frames, each after any steps of others and with its own outcome of system
      calls; the client stops at the first that fails. Also, how many frames were sent. */
  datatype Talk = Talk(server: Server, ok: bool, served: nat)

  function RunFrames(s: Server, id: nat, frames: seq<Request>, envs: seq<Env>, others: seq<seq<Event>>): Talk
    requires Valid(s) && |frames| == |envs| == |others|
    decreases |frames|
  {
    if frames == [] then Talk(s, true, 0)
    else
      var a := Others(s, id, others[0]);
      var k := Position(a.members, id);
      if Lost(a, id) then Talk(a, false, 1)
      else
        ValidIsCoherent(a, k);
        NextKeeps(a, Serve(k, frames[0], envs[0]));
        var b := Next(a, Serve(k, frames[0], envs[0]));
        if !Respond(a.scope, a.members[k], frames[0], envs[0]).ok then Talk(b, false, 1)
        else
          var rest := RunFrames(b, id, frames[1..], envs[1..], others[1..]);
          rest.(served := rest.served + 1)
  }

  /** A member that may attach or extend. */
  predicate Ready(s: Server, id: nat, extending: bool) {
    && !s.stopped && s.scope.Some? && s.scope.value.join.definition.docker
    && Position(s.members, id) < |s.members|
    && var m := s.members[Position(s.members, id)];
       !m.closed && m.joined && !m.leaving && (m.docker <==> extending) && m.pending.None?
  }

  function WithPending(m: Member, id: nat, p: Option<Transaction>): Member {
    if m.id == id then m.(pending := p) else m
  }

  /** The same server, with this member's transaction begun. */
  function Begun(s: Server, id: nat, p: Option<Transaction>): Server {
    s.(members := AllBegun(s.members, id, p))
  }

  function AllBegun(members: seq<Member>, id: nat, p: Option<Transaction>): seq<Member> {
    seq(|members|, i requires 0 <= i < |members| => WithPending(members[i], id, p))
  }

  lemma {:induction false} SamePosition(a: seq<Member>, b: seq<Member>, id: nat)
    requires |a| == |b| && forall i :: 0 <= i < |a| ==> a[i].id == b[i].id
    ensures Position(a, id) == Position(b, id)
  {
    if a != [] && a[0].id != id {
      SamePosition(a[1..], b[1..], id);
    }
  }

  /** In an ordered list an id stands at one place. */
  lemma OnlyPosition(s: Server, id: nat, k: nat)
    requires Valid(s) && k < |s.members| && s.members[k].id == id
    ensures Position(s.members, id) == k
  {
  }

  lemma NobodyElse(s: Server, id: nat)
    requires Valid(s)
    ensures forall i :: 0 <= i < |s.members| && i != Position(s.members, id) ==> s.members[i].id != id
  {
  }

  predicate Fits(s: Server, id: nat, p: Option<Transaction>) {
    p.Some? ==> forall k :: 0 <= k < |s.members| && s.members[k].id == id ==>
                  s.members[k].joined && !s.members[k].leaving && (p.value.extending <==> s.members[k].docker)
  }

  lemma BegunValid(s: Server, id: nat, p: Option<Transaction>)
    requires Valid(s) && Fits(s, id, p)
    ensures Valid(Begun(s, id, p))
  {
    hide Count, ScopeDocker.Valid;
    var b := Begun(s, id, p);
    CountSame(s.members, b.members);
    forall k | 0 <= k < |b.members| ensures MemberOk(b.members[k]) {
      assert MemberOk(s.members[k]);
    }
  }

  // Steps of others do not see a begun transaction ------------------------------------------

  lemma {:induction false} SweepSame(scope: Option<Scope>, a: seq<Member>, b: seq<Member>)
    requires |a| == |b| && forall i :: 0 <= i < |a| ==> a[i].closed == b[i].closed && a[i].docker == b[i].docker
    requires Count(a) > 0 ==> scope.Some? && scope.value.docker.users >= Count(a)
    ensures Count(a) == Count(b) && SweepScope(scope, a) == SweepScope(scope, b)
    decreases |a|
  {
    CountSame(a, b);
    if a != [] {
      SweepSame(if a[0].closed && a[0].docker then DropUser(scope) else scope, a[1..], b[1..]);
    }
  }

  lemma {:induction false} StillOpenBegun(members: seq<Member>, id: nat, p: Option<Transaction>)
    ensures StillOpen(AllBegun(members, id, p)) == AllBegun(StillOpen(members), id, p)
  {
    if members != [] {
      assert AllBegun(members, id, p)[1..] == AllBegun(members[1..], id, p);
      StillOpenBegun(members[1..], id, p);
    }
  }

  lemma ServeCommutes(s: Server, id: nat, p: Option<Transaction>, k: nat, q: Request, e: Env)
    requires Valid(s) && Fits(s, id, p) && !Touches(s, id, Serve(k, q, e))
    ensures Valid(Begun(s, id, p)) && Next(Begun(s, id, p), Serve(k, q, e)) == Begun(Next(s, Serve(k, q, e)), id, p)
  {
    hide Respond, ScopeOk, AllOk;
    BegunValid(s, id, p);
    var b := Begun(s, id, p);
    if !s.stopped && k < |s.members| && !s.members[k].closed {
      ValidIsCoherent(s, k);
      ValidIsCoherent(b, k);
      assert b.members[k] == s.members[k];
      RespondKeeps(s.scope, s.members[k], q, e);
      var o := Respond(s.scope, s.members[k], q, e);
      var after := Next(s, Serve(k, q, e));
      assert after.members == s.members[k := o.member];
      assert Next(b, Serve(k, q, e)).members == b.members[k := o.member] == Begun(after, id, p).members;
    }
  }

  lemma SweepCommutes(s: Server, id: nat, p: Option<Transaction>)
    requires Valid(s) && Fits(s, id, p)
    ensures Valid(Begun(s, id, p)) && Next(Begun(s, id, p), Sweep) == Begun(Next(s, Sweep), id, p)
  {
    hide Respond, ScopeOk, AllOk, Count, SweepScope, StillOpen, Ordered;
    BegunValid(s, id, p);
    var b := Begun(s, id, p);
    if !s.stopped {
      CountIsCovered(s);
      SweepSame(s.scope, s.members, b.members);
      StillOpenBegun(s.members, id, p);
    }
  }

  lemma AcknowledgeCommutes(s: Server, id: nat, p: Option<Transaction>, drained: set<nat>)
    requires Valid(s) && Fits(s, id, p)
    ensures Valid(Begun(s, id, p)) && Next(Begun(s, id, p), Acknowledge(drained)) == Begun(Next(s, Acknowledge(drained)), id, p)
    ensures Next(Begun(s, id, p), Stop(drained)) == Begun(Next(s, Stop(drained)), id, p)
  {
    hide Respond, ScopeOk, AllOk, Count, SweepScope, StillOpen, Ordered;
    BegunValid(s, id, p);
    var b := Begun(s, id, p);
    if !s.stopped {
      ActiveSame(s.members, b.members);
      assert AcknowledgedAll(b.members, drained) == AllBegun(AcknowledgedAll(s.members, drained), id, p);
      assert AcknowledgedAll(Cleaned(b.members), drained) == AllBegun(AcknowledgedAll(Cleaned(s.members), drained), id, p);
    }
  }

  lemma OtherCommutes(s: Server, id: nat, p: Option<Transaction>, ev: Event)
    requires Valid(s) && Fits(s, id, p) && id < s.added && !Touches(s, id, ev)
    ensures Valid(Begun(s, id, p)) && Next(Begun(s, id, p), ev) == Begun(Next(s, ev), id, p)
  {
    hide Respond, ScopeOk, AllOk, Count, SweepScope, StillOpen, Ordered;
    BegunValid(s, id, p);
    var b := Begun(s, id, p);
    match ev {
      case Add => assert Next(b, ev).members == Begun(Next(s, ev), id, p).members;
      case Serve(k, q, e) => ServeCommutes(s, id, p, k, q, e);
      case Hangup(k) => assert Next(b, ev).members == Begun(Next(s, ev), id, p).members;
      case Sweep => SweepCommutes(s, id, p);
      case Acknowledge(drained) => AcknowledgeCommutes(s, id, p, drained);
      case ReportIdle => ActiveSame(s.members, b.members);
      case Stop(drained) => AcknowledgeCommutes(s, id, p, drained);
      case Exit => assert Next(b, ev).members == Begun(Next(s, ev), id, p).members;
    }
  }

  /** What a transaction needs of its member, others leave alone. */
  lemma FitsStays(s: Server, id: nat, p: Option<Transaction>, ev: Event)
    requires Valid(s) && Fits(s, id, p) && id < s.added && !Touches(s, id, ev)
    ensures Fits(Next(s, ev), id, p) && id < Next(s, ev).added
  {
    hide Respond, ScopeOk, AllOk, Count, SweepScope, StillOpen;
    if !s.stopped {
      match ev {
        case Serve(k, q, e) =>
          if k < |s.members| && !s.members[k].closed {
            ValidIsCoherent(s, k);
            RespondKeeps(s.scope, s.members[k], q, e);
          }
        case Sweep =>
          StillOpenKeeps(s.members, s.added);
          var left := StillOpen(s.members);
          forall k | 0 <= k < |left| ensures left[k] in s.members {
          }
        case _ =>
      }
    }
  }

  lemma ActiveSame(a: seq<Member>, b: seq<Member>)
    requires |a| == |b| && forall i :: 0 <= i < |a| ==> a[i].closed == b[i].closed && a[i].leaving == b[i].leaving
    ensures SomeActive(a) == SomeActive(b)
  {
    if SomeActive(a) {
      var k :| 0 <= k < |a| && !a[k].leaving && !a[k].closed;
      assert !b[k].leaving && !b[k].closed;
    }
    if SomeActive(b) {
      var k :| 0 <= k < |b| && !b[k].leaving && !b[k].closed;
      assert !a[k].leaving && !a[k].closed;
    }
  }

  // Steps of others leave the member as it is --------------------------------------------------

  lemma {:induction false} StillOpenHas(members: seq<Member>, m: Member)
    requires m in members && !m.closed
    ensures m in StillOpen(members)
  {
    if members[0] != m {
      assert members == [members[0]] + members[1..];
      StillOpenHas(members[1..], m);
    }
  }

  lemma OtherKeeps(s: Server, id: nat, extending: bool, ev: Event)
    requires Valid(s) && Ready(s, id, extending) && !Touches(s, id, ev)
    ensures Ready(Next(s, ev), id, extending) || Lost(Next(s, ev), id)
  {
    hide Respond, ScopeOk, AllOk, Count, SweepScope, StillOpen;
    NextKeeps(s, ev);
    var k := Position(s.members, id);
    var m := s.members[k];
    var after := Next(s, ev);
    match ev {
      case Add => assert after.members[k] == m; OnlyPosition(after, id, k);
      case Serve(j, q, e) =>
        if j < |s.members| && !s.members[j].closed {
          ValidIsCoherent(s, j);
          RespondKeeps(s.scope, s.members[j], q, e);
        }
        assert after.members[k] == m;
        OnlyPosition(after, id, k);
      case Hangup(j) => assert after.members[k].id == id; OnlyPosition(after, id, k);
      case Sweep =>
        CountIsCovered(s);
        ScopeIsSound(s);
        SweepKeeps(s.scope, s.members);
        StillOpenHas(s.members, m);
        var i :| 0 <= i < |after.members| && after.members[i] == m;
        OnlyPosition(after, id, i);
      case Acknowledge(drained) => assert after.members[k] == m; OnlyPosition(after, id, k);
      case ReportIdle =>
      case Stop(_) =>
      case Exit =>
    }
  }

  /** Who is lost stays lost. */
  lemma LostStays(s: Server, id: nat, ev: Event)
    requires Valid(s) && Lost(s, id) && id < s.added && !Touches(s, id, ev)
    ensures Lost(Next(s, ev), id)
  {
    hide Respond, ScopeOk, AllOk, Count, SweepScope, StillOpen;
    if !s.stopped {
      NextKeeps(s, ev);
      NobodyElse(s, id);
      var after := Next(s, ev);
      match ev {
        case Serve(j, q, e) =>
          if j < |s.members| && !s.members[j].closed {
            ValidIsCoherent(s, j);
            RespondKeeps(s.scope, s.members[j], q, e);
          }
        case Sweep =>
          StillOpenKeeps(s.members, s.added);
          assert forall i :: 0 <= i < |after.members| ==> after.members[i] in s.members && !after.members[i].closed;
        case _ =>
      }
    }
  }

  lemma ScopeIsSound(s: Server)
    requires Valid(s) && !s.stopped
    ensures Sound(s.scope)
  {
  }

  lemma ReadyFits(s: Server, id: nat, extending: bool, p: Option<Transaction>)
    requires Valid(s) && Ready(s, id, extending) && (p.Some? ==> (p.value.extending <==> extending))
    ensures Fits(s, id, p) && id < s.added
  {
  }

  /** Whatever others do between two frames, they do it as if no transaction were begun. */
  lemma {:induction false} OthersCommute(s: Server, id: nat, p: Option<Transaction>, events: seq<Event>)
    requires Valid(s) && Fits(s, id, p) && id < s.added
    ensures Fits(Others(s, id, events), id, p) && id < Others(s, id, events).added
    ensures Valid(Begun(s, id, p)) && Others(Begun(s, id, p), id, events) == Begun(Others(s, id, events), id, p)
    decreases |events|
  {
    hide Valid, Next, Begun, Fits;
    BegunValid(s, id, p);
    if events != [] {
      var ev := events[0];
      TouchesSame(s, id, p, ev);
      NextKeeps(s, ev);
      if Touches(s, id, ev) {
        OthersCommute(s, id, p, events[1..]);
      } else {
        OtherCommutes(s, id, p, ev);
        FitsStays(s, id, p, ev);
        OthersCommute(Next(s, ev), id, p, events[1..]);
      }
    }
  }

  /** After them the member is as it was, or lost. */
  lemma {:induction false} OthersKeep(s: Server, id: nat, extending: bool, events: seq<Event>)
    requires Valid(s) && id < s.added && (Ready(s, id, extending) || Lost(s, id))
    ensures Ready(Others(s, id, events), id, extending) || Lost(Others(s, id, events), id)
    decreases |events|
  {
    hide Valid, Ready, Next, Lost;
    if events != [] {
      var ev := events[0];
      NextKeeps(s, ev);
      if Touches(s, id, ev) {
        OthersKeep(s, id, extending, events[1..]);
      } else {
        if Lost(s, id) {
          LostStays(s, id, ev);
        } else {
          OtherKeeps(s, id, extending, ev);
        }
        AddedGrows(s, ev);
        OthersKeep(Next(s, ev), id, extending, events[1..]);
      }
    }
  }

  lemma AddedGrows(s: Server, ev: Event)
    requires Valid(s)
    ensures s.added <= Next(s, ev).added
  {
  }

  lemma TouchesSame(s: Server, id: nat, p: Option<Transaction>, ev: Event)
    ensures Touches(Begun(s, id, p), id, ev) == Touches(s, id, ev)
  {
  }

  lemma {:induction false} OthersAppend(s: Server, id: nat, a: seq<Event>, b: seq<Event>)
    requires Valid(s)
    ensures Others(s, id, a + b) == Others(Others(s, id, a), id, b)
    decreases |a|
  {
    hide Next, Valid, Touches;
    if a == [] {
      assert a + b == b;
    } else {
      assert (a + b)[0] == a[0] && (a + b)[1..] == a[1..] + b;
      NextKeeps(s, a[0]);
      OthersAppend(if Touches(s, id, a[0]) then s else Next(s, a[0]), id, a[1..], b);
    }
  }

  // Frames ------------------------------------------------------------------------------------

  /** The whole of a transaction in one frame. */
  function OneFrame(config: Option<ScopeDocker.Config>, extending: bool, parts: seq<ScopeDocker.Part>): Request {
    Frame(config, extending, parts, false)
  }

  function Frame(config: Option<ScopeDocker.Config>, extending: bool, parts: seq<ScopeDocker.Part>, more: bool): Request {
    if extending then ExtendDocker(parts, more) else AttachDocker(config, parts, more)
  }

  function Started(p: Option<Transaction>, config: Option<ScopeDocker.Config>, extending: bool): Transaction {
    if p.Some? then p.value else ScopeDocker.Transaction(extending, config, [])
  }

  /** What is begun goes with the frames to come. */
  predicate Continues(p: Option<Transaction>, config: Option<ScopeDocker.Config>, extending: bool) {
    && (p.Some? ==> config.None? && (p.value.extending <==> extending))
    && (extending ==> Started(p, config, extending).config.None?)
  }

  lemma BegunNothing(s: Server, id: nat, extending: bool)
    requires Valid(s) && Ready(s, id, extending)
    ensures Begun(s, id, None) == s
  {
    forall i | 0 <= i < |s.members| ensures WithPending(s.members[i], id, None) == s.members[i] {
      if s.members[i].id == id {
        OnlyPosition(s, id, i);
      }
    }
  }

  /** A frame with more to come only collects its parts; a failure drops what was collected. */
  lemma MiddleResponse(scope: Option<Scope>, m: Member, p: Option<Transaction>, config: Option<ScopeDocker.Config>, extending: bool,
                       batch: seq<ScopeDocker.Part>, e: Env)
    requires Coherent(scope, m) && m.joined && !m.leaving && (m.docker <==> extending) && m.pending.None? && Continues(p, config, extending)
    requires scope.value.join.definition.docker
    ensures var t := Started(p, config, extending);
            var o := Respond(scope, m.(pending := p), Frame(config, extending, batch, true), e);
            && o.scope == scope && (o.ok <==> e.decoded && e.sent)
            && o.member == (if o.ok then m.(pending := Some(t.(parts := t.parts + batch))) else m)
  {
  }

  /** The last frame, after others have collected parts, does what one frame with everything does. */
  lemma LastResponse(scope: Option<Scope>, m: Member, p: Option<Transaction>, config: Option<ScopeDocker.Config>, extending: bool,
                     batch: seq<ScopeDocker.Part>, e: Env)
    requires Coherent(scope, m) && m.joined && !m.leaving && (m.docker <==> extending) && m.pending.None? && Continues(p, config, extending)
    requires scope.value.join.definition.docker
    ensures var t := Started(p, config, extending);
            Respond(scope, m.(pending := p), Frame(config, extending, batch, false), e)
            == Respond(scope, m, OneFrame(t.config, extending, t.parts + batch), e)
  {
    hide ScopeDocker.Apply;
    var t := Started(p, config, extending);
    assert [] + (t.parts + batch) == t.parts + batch;
    var blank := ScopeDocker.Transaction(extending, t.config, []);
    assert blank.(parts := blank.parts + (t.parts + batch)) == t.(parts := t.parts + batch);
    SameParts(scope, m, p, blank, t, t.parts + batch, batch, e);
  }

  lemma SameParts(scope: Option<Scope>, m: Member, p: Option<Transaction>, a: Transaction, b: Transaction,
                  more: seq<ScopeDocker.Part>, less: seq<ScopeDocker.Part>, e: Env)
    requires scope.Some? && a.(parts := a.parts + more) == b.(parts := b.parts + less)
    ensures var x := HandleParts(scope, m, a, more, false, e);
            var y := HandleParts(scope, m.(pending := p), b, less, false, e);
            && x.scope == y.scope && x.replies == y.replies && x.ok == y.ok
            && x.member.(pending := None) == y.member.(pending := None) && (x.ok ==> x.member == y.member)
  {
    hide ScopeDocker.Apply;
  }

  /** A frame of a member with a transaction begun, on the server as it stands then. */
  lemma ServeBegun(s: Server, id: nat, extending: bool, p: Option<Transaction>, config: Option<ScopeDocker.Config>,
                   batch: seq<ScopeDocker.Part>, e: Env)
    requires Valid(s) && Ready(s, id, extending) && Continues(p, config, extending) && Valid(Begun(s, id, p))
    ensures var b := Begun(s, id, p);
            var k := Position(s.members, id);
            var t := Started(p, config, extending);
            && Position(b.members, id) == k && !b.stopped && !b.members[k].closed
            && Coherent(b.scope, b.members[k]) && Coherent(s.scope, s.members[k])
            && (var middle := Frame(config, extending, batch, true);
                && (Respond(b.scope, b.members[k], middle, e).ok <==> e.decoded && e.sent)
                && Next(b, Serve(k, middle, e)) == (if e.decoded && e.sent then Begun(s, id, Some(t.(parts := t.parts + batch))) else s))
            && (var last := Frame(config, extending, batch, false);
                var whole := OneFrame(t.config, extending, t.parts + batch);
                && Next(b, Serve(k, last, e)) == Next(s, Serve(k, whole, e))
                && Respond(b.scope, b.members[k], last, e).ok == Respond(s.scope, s.members[k], whole, e).ok)
  {
    hide Respond, Ordered, AllOk, ScopeOk, Continues;
    var b := Begun(s, id, p);
    var k := Position(s.members, id);
    SamePosition(s.members, b.members, id);
    ValidIsCoherent(s, k);
    ValidIsCoherent(b, k);
    var m := s.members[k];
    assert b.members[k] == m.(pending := p);
    MiddleResponse(s.scope, m, p, config, extending, batch, e);
    LastResponse(s.scope, m, p, config, extending, batch, e);
    var t := Started(p, config, extending);
    PutMember(s, id, extending, p, Some(t.(parts := t.parts + batch)));
    PutMember(s, id, extending, p, None);
    BegunNothing(s, id, extending);
    PutOther(s, id, p, Respond(s.scope, m, OneFrame(t.config, extending, t.parts + batch), e).member);
  }

  lemma PutMember(s: Server, id: nat, extending: bool, p: Option<Transaction>, q: Option<Transaction>)
    requires Valid(s) && Ready(s, id, extending)
    ensures var k := Position(s.members, id);
            AllBegun(s.members, id, p)[k := s.members[k].(pending := q)] == AllBegun(s.members, id, q)
  {
    var k := Position(s.members, id);
    NobodyElse(s, id);
  }

  lemma PutOther(s: Server, id: nat, p: Option<Transaction>, m: Member)
    requires Valid(s) && Position(s.members, id) < |s.members|
    ensures AllBegun(s.members, id, p)[Position(s.members, id) := m] == s.members[Position(s.members, id) := m]
  {
    var k := Position(s.members, id);
    NobodyElse(s, id);
  }

  lemma FlattenHead<T>(parts: seq<seq<T>>)
    requires parts != []
    ensures Flatten(parts) == parts[0] + Flatten(parts[1..])
  {
  }

  lemma FlattenNone<T>()
    ensures Flatten<T>([]) == []
  {
  }

  lemma {:induction false} RequestsLength(config: Option<ScopeDocker.Config>, extending: bool, batches: seq<seq<ScopeDocker.Part>>)
    ensures |Requests(config, extending, batches)| == |batches|
    ensures batches != [] ==>
              Requests(config, extending, batches) == [Frame(config, extending, batches[0], |batches| > 1)] + Requests(None, extending, batches[1..])
    decreases |batches|
  {
    if batches != [] {
      RequestsLength(None, extending, batches[1..]);
    }
  }

  lemma ContinuesFits(p: Option<Transaction>, config: Option<ScopeDocker.Config>, extending: bool)
    requires Continues(p, config, extending)
    ensures p.Some? ==> (p.value.extending <==> extending)
  {
  }

  lemma ContinuesOn(p: Option<Transaction>, config: Option<ScopeDocker.Config>, extending: bool, batch: seq<ScopeDocker.Part>)
    requires Continues(p, config, extending)
    ensures var t := Started(p, config, extending);
            var next := Some(t.(parts := t.parts + batch));
            Continues(next, None, extending) && (next.value.extending <==> extending)
  {
  }

  lemma BegunStays(s: Server, id: nat, extending: bool, p: Option<Transaction>)
    requires Valid(s) && Ready(s, id, extending) && (p.Some? ==> (p.value.extending <==> extending))
    ensures Valid(Begun(s, id, p))
  {
    ReadyFits(s, id, extending, p);
    BegunValid(s, id, p);
  }

  lemma FirstOthers(others: seq<seq<Event>>)
    requires others != []
    ensures Flatten(others[..1]) == others[0]
  {
    assert others[..1] == [others[0]] && [others[0]][1..] == [];
    assert Flatten([others[0]]) == others[0] + Flatten([]);
  }

  lemma ReadyIsThere(s: Server, id: nat, extending: bool)
    requires Valid(s) && Ready(s, id, extending)
    ensures Position(s.members, id) < |s.members| && Coherent(s.scope, s.members[Position(s.members, id)])
  {
    ValidIsCoherent(s, Position(s.members, id));
  }

  /** The outcome of a conversation, in terms of the steps of others and of one frame. */
  ghost predicate Invisible(s: Server, id: nat, extending: bool, t: Transaction, parts: seq<ScopeDocker.Part>, envs: seq<Env>,
                            others: seq<seq<Event>>, talk: Talk)
    requires Valid(s) && |envs| == |others|
  {
    && 0 < talk.served <= |envs|
    && (forall i :: 0 <= i < talk.served - 1 ==> envs[i].decoded && envs[i].sent)
    && var base := Others(s, id, Flatten(others[..talk.served]));
       if Lost(base, id) then !talk.ok && exists q :: talk.server == Begun(base, id, q)
       else Applied(base, id, extending, t, parts, envs, talk)
  }

  /** Nothing at a frame that fails midway; the whole transaction at the last one. */
  ghost predicate Applied(base: Server, id: nat, extending: bool, t: Transaction, parts: seq<ScopeDocker.Part>, envs: seq<Env>, talk: Talk)
    requires Valid(base) && 0 < talk.served <= |envs|
  {
    var e := envs[talk.served - 1];
    var k := Position(base.members, id);
    && k < |base.members| && Coherent(base.scope, base.members[k])
    && (talk.served < |envs| ==> !talk.ok && !(e.decoded && e.sent) && talk.server == base)
    && (talk.served == |envs| ==>
          var whole := OneFrame(t.config, extending, t.parts + parts);
          && talk.server == Next(base, Serve(k, whole, e))
          && talk.ok == Respond(base.scope, base.members[k], whole, e).ok)
  }

  lemma LostSame(s: Server, id: nat, p: Option<Transaction>)
    ensures Lost(Begun(s, id, p), id) == Lost(s, id)
  {
    SamePosition(s.members, Begun(s, id, p).members, id);
  }

  lemma ReadyIsNotLost(s: Server, id: nat, extending: bool)
    requires Ready(s, id, extending)
    ensures !Lost(s, id)
  {
  }

  /** A conversation begins with steps of others and one frame, unless they lost the member. */
  lemma FirstServed(s: Server, id: nat, extending: bool, p: Option<Transaction>, config: Option<ScopeDocker.Config>,
                    batches: seq<seq<ScopeDocker.Part>>, envs: seq<Env>, others: seq<seq<Event>>)
    requires Valid(s) && Ready(s, id, extending) && Continues(p, config, extending) && Valid(Begun(s, id, p))
    requires batches != [] && |batches| == |envs| == |others|
    ensures |Requests(config, extending, batches)| == |batches| && |Requests(None, extending, batches[1..])| == |batches| - 1
    ensures var base := Others(s, id, others[0]);
            var b := Begun(base, id, p);
            var k := Position(base.members, id);
            var q := Frame(config, extending, batches[0], |batches| > 1);
            var talk := RunFrames(Begun(s, id, p), id, Requests(config, extending, batches), envs, others);
            && Valid(b)
            && (Lost(base, id) ==> talk == Talk(b, false, 1))
            && (!Lost(base, id) ==>
                  && Ready(base, id, extending) && k < |b.members| && !b.stopped && !b.members[k].closed && Coherent(b.scope, b.members[k])
                  && Valid(Next(b, Serve(k, q, envs[0])))
                  && talk ==
                     (if !Respond(b.scope, b.members[k], q, envs[0]).ok then Talk(Next(b, Serve(k, q, envs[0])), false, 1)
                      else
                        var rest := RunFrames(Next(b, Serve(k, q, envs[0])), id, Requests(None, extending, batches[1..]), envs[1..], others[1..]);
                        rest.(served := rest.served + 1)))
  {
    hide Valid, Ready, Next, Begun, Respond, Others, Continues, Position, Coherent, Lost, Fits;
    RequestsLength(config, extending, batches);
    RequestsLength(None, extending, batches[1..]);
    ContinuesFits(p, config, extending);
    ReadyFits(s, id, extending, p);
    OthersCommute(s, id, p, others[0]);
    OthersKeep(s, id, extending, others[0]);
    var base := Others(s, id, others[0]);
    BegunValid(base, id, p);
    LostSame(base, id, p);
    if !Lost(base, id) {
      ServeBegun(base, id, extending, p, config, batches[0], envs[0]);
      var q := Frame(config, extending, batches[0], |batches| > 1);
      NextKeeps(Begun(base, id, p), Serve(Position(base.members, id), q, envs[0]));
      ReadyIsThere(base, id, extending);
      BegunLength(base, id, p);
    }
    assert Requests(config, extending, batches)[1..] == Requests(None, extending, batches[1..]);
  }

  lemma BegunLength(s: Server, id: nat, p: Option<Transaction>)
    ensures |Begun(s, id, p).members| == |s.members|
  {
  }

  /** Batching is invisible, from any point of a transaction on. */
  lemma {:induction false} FramesAreOne(s: Server, id: nat, extending: bool, p: Option<Transaction>, config: Option<ScopeDocker.Config>,
                                        batches: seq<seq<ScopeDocker.Part>>, envs: seq<Env>, others: seq<seq<Event>>)
    requires Valid(s) && Ready(s, id, extending) && Continues(p, config, extending) && Valid(Begun(s, id, p))
    requires batches != [] && |batches| == |envs| == |others|
    ensures |Requests(config, extending, batches)| == |batches|
    ensures Invisible(s, id, extending, Started(p, config, extending), Flatten(batches), envs, others,
                      RunFrames(Begun(s, id, p), id, Requests(config, extending, batches), envs, others))
    decreases |batches|
  {
    hide Valid, Ready, Next, Begun, Respond, Others, Continues, Position, Flatten, Coherent, RunFrames, Requests, Invisible, OneFrame, Frame, Lost;
    FirstServed(s, id, extending, p, config, batches, envs, others);
    var base := Others(s, id, others[0]);
    var t := Started(p, config, extending);
    var talk := RunFrames(Begun(s, id, p), id, Requests(config, extending, batches), envs, others);
    if Lost(base, id) {
      LostFirst(s, id, extending, t, Flatten(batches), envs, others, talk, p);
    } else {
      ServeBegun(base, id, extending, p, config, batches[0], envs[0]);
      ReadyIsThere(base, id, extending);
      FlattenHead(batches);
      if |batches| == 1 {
        assert batches[1..] == [];
        FlattenNone<ScopeDocker.Part>();
        assert batches[0] + [] == batches[0];
        NothingLeft(Next(Begun(base, id, p), Serve(Position(base.members, id), Frame(config, extending, batches[0], false), envs[0])), id,
                    Requests(None, extending, batches[1..]), envs[1..], others[1..]);
        ServedFirst(s, id, extending, t, batches[0], envs, others, talk);
      } else if !(envs[0].decoded && envs[0].sent) {
        ServedFirst(s, id, extending, t, Flatten(batches), envs, others, talk);
      } else {
        var next := Some(t.(parts := t.parts + batches[0]));
        ContinuesOn(p, config, extending, batches[0]);
        BegunStays(base, id, extending, next);
        FramesAreOne(base, id, extending, next, None, batches[1..], envs[1..], others[1..]);
        var rest := RunFrames(Begun(base, id, next), id, Requests(None, extending, batches[1..]), envs[1..], others[1..]);
        Assoc(t.parts, batches[0], Flatten(batches[1..]));
        ServedOn(s, id, extending, t, next.value, Flatten(batches), Flatten(batches[1..]), envs, others, rest);
      }
    }
  }

  lemma NothingLeft(s: Server, id: nat, frames: seq<Request>, envs: seq<Env>, others: seq<seq<Event>>)
    requires Valid(s) && |frames| == |envs| == |others| == 0
    ensures RunFrames(s, id, frames, envs, others) == Talk(s, true, 0)
  {
  }

  /** The member was lost before this frame. */
  lemma LostFirst(s: Server, id: nat, extending: bool, t: Transaction, parts: seq<ScopeDocker.Part>, envs: seq<Env>, others: seq<seq<Event>>,
                  talk: Talk, p: Option<Transaction>)
    requires Valid(s) && |envs| == |others| > 0 && Lost(Others(s, id, others[0]), id)
    requires talk == Talk(Begun(Others(s, id, others[0]), id, p), false, 1)
    ensures Invisible(s, id, extending, t, parts, envs, others, talk)
  {
    hide Valid, Others, Lost, Begun, Applied;
    FirstOthers(others);
  }

  /** The first frame was the last one served. */
  lemma ServedFirst(s: Server, id: nat, extending: bool, t: Transaction, parts: seq<ScopeDocker.Part>, envs: seq<Env>, others: seq<seq<Event>>,
                    talk: Talk)
    requires Valid(s) && |envs| == |others| > 0 && talk.served == 1 && !Lost(Others(s, id, others[0]), id)
    requires Applied(Others(s, id, others[0]), id, extending, t, parts, envs, talk)
    ensures Invisible(s, id, extending, t, parts, envs, others, talk)
  {
    hide Valid, Others, Lost, Applied;
    FirstOthers(others);
  }

  /** The first frame was taken, and the rest went on from there. */
  lemma ServedOn(s: Server, id: nat, extending: bool, t: Transaction, u: Transaction, parts: seq<ScopeDocker.Part>, left: seq<ScopeDocker.Part>,
                 envs: seq<Env>, others: seq<seq<Event>>, rest: Talk)
    requires Valid(s) && |envs| == |others| > 1 && envs[0].decoded && envs[0].sent
    requires Invisible(Others(s, id, others[0]), id, extending, u, left, envs[1..], others[1..], rest)
    requires u.config == t.config && u.parts + left == t.parts + parts
    ensures Invisible(s, id, extending, t, parts, envs, others, rest.(served := rest.served + 1))
  {
    hide Valid, Next, Respond, Others, Position, Coherent, Lost, Begun;
    var n := rest.served;
    assert others[..n + 1][0] == others[0] && others[..n + 1][1..] == others[1..][..n];
    FlattenHead(others[..n + 1]);
    OthersAppend(s, id, others[0], Flatten(others[1..][..n]));
    forall i | 0 <= i < n ensures envs[i].decoded && envs[i].sent {
      if i > 0 {
        assert envs[i] == envs[1..][i - 1];
      }
    }
  }

  /** `docker`, for any number of frames, with any steps of other members between them, any outcome
      of each frame, and this member's channel closing or the server stopping at any time. If the
      member is lost or a frame before the last fails, nothing is applied: the server is as if none of
      them had been sent, apart from the transaction a lost member had begun. Otherwise it is as if
      the whole transaction had come in one frame where the last one did. */
  lemma DockerIsOneTransaction(s: Server, id: nat, config: Option<ScopeDocker.Config>, parts: seq<ScopeDocker.Part>, envs: seq<Env>,
                               others: seq<seq<Event>>)
    requires Valid(s) && Ready(s, id, config.None?) && |envs| == |others| == |Batches(parts)|
    ensures |Requests(config, config.None?, Batches(parts))| == |envs|
    ensures var talk := RunFrames(s, id, Requests(config, config.None?, Batches(parts)), envs, others);
            && 0 < talk.served <= |envs|
            && var base := Others(s, id, Flatten(others[..talk.served]));
               if Lost(base, id) then !talk.ok && exists q :: talk.server == Begun(base, id, q)
               else
                 var e := envs[talk.served - 1];
                 var k := Position(base.members, id);
                 && k < |base.members| && Coherent(base.scope, base.members[k])
                 && (talk.served < |envs| <==> exists i :: 0 <= i < |envs| - 1 && !(envs[i].decoded && envs[i].sent))
                 && (talk.served < |envs| ==> !talk.ok && talk.server == base)
                 && (talk.served == |envs| ==>
                       var whole := OneFrame(config, config.None?, parts);
                       && talk.server == Next(base, Serve(k, whole, e))
                       && talk.ok == Respond(base.scope, base.members[k], whole, e).ok)
  {
    hide Valid, Ready, Next, Respond, Others, Requests, Batches, RunFrames, Position, Coherent, Flatten, Lost, Begun;
    var extending := config.None?;
    BegunNothing(s, id, extending);
    BatchesCover(parts);
    assert [] + parts == parts;
    FramesAreOne(s, id, extending, None, config, Batches(parts), envs, others);
  }
}
