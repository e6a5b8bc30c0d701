/** Whole runs of clients against the scope process: which reply is taken for which request, and
    what `Left` means. */
module ScopeRuns {
  import opened Bytes
  import opened ScopeServer
  import opened ScopeSession
  import ScopeDocker
  import ChannelSpec
  import Framing
  import opened ScopeClientSteps
  import opened ScopeServerSteps

  /** Whoever is owed `Left` is cleaned up and detached, and is not the active member. */
  lemma OwedIsReleased(members: seq<Member>, added: nat, scope: Option<Scope>, j: nat)
    requires Ordered(members, added) && AllOk(members) && (scope.None? || SomeActive(members))
    requires j in Owed(members)
    ensures Released(Certificate(members, j, scope))
  {
    var k :| 0 <= k < |members| && OwedLeft(members[k]) && members[k].id == j;
    forall i | 0 <= i < |members| && members[i].id == j ensures i == k && !members[i].registered && !members[i].docker {
      assert MemberOk(members[k]);
    }
    if SomeActive(members) {
      var a :| 0 <= a < |members| && !members[a].leaving && !members[a].closed;
      assert members[a].id != j;
    }
  }

  /** Sending `Left` to every leaver, while somebody is active or after the scope is gone. */
  lemma AckLinksOk(links: seq<Link>, members: seq<Member>, added: nat, scope: Option<Scope>)
    requires |links| == added && Ordered(members, added) && AllOk(members)
    requires forall j :: 0 <= j < |links| ==> LinkOk(links[j])
    requires forall k :: 0 <= k < |members| ==> MemberLink(false, members[k], links[members[k].id])
    requires scope.None? || SomeActive(members)
    ensures forall j :: 0 <= j < |links| ==> LinkOk(AckLinks(links, members, scope)[j])
  {
    hide LinkOk, OpenLink, Released, SomeActive, Certificate, AckLink;
    forall j | 0 <= j < |links| ensures LinkOk(AckLinks(links, members, scope)[j]) {
      if j in Owed(members) {
        OwedIsReleased(members, added, scope, j);
        var k :| 0 <= k < |members| && OwedLeft(members[k]) && members[k].id == j;
        AckLinkKeeps(links[j], members[k], Certificate(members, j, scope));
      }
    }
  }

  lemma AckMembersOk(links: seq<Link>, members: seq<Member>, added: nat, drained: set<nat>, scope: Option<Scope>)
    requires |links| == added && Ordered(members, added) && AllOk(members)
    requires forall j :: 0 <= j < |links| ==> LinkOk(links[j])
    requires forall k :: 0 <= k < |members| ==> MemberLink(false, members[k], links[members[k].id])
    ensures forall k :: 0 <= k < |members| ==>
              MemberLink(false, Acknowledged(members[k], drained), AckLinks(links, members, scope)[members[k].id])
  {
    hide LinkOk, MemberLink, Certificate, AckLink, Acknowledged;
    forall k | 0 <= k < |members|
      ensures MemberLink(false, Acknowledged(members[k], drained), AckLinks(links, members, scope)[members[k].id])
    {
      AckMemberLink(links[members[k].id], members[k], Certificate(members, members[k].id, scope), drained);
      if members[k].id in Owed(members) {
        var i :| 0 <= i < |members| && OwedLeft(members[i]) && members[i].id == members[k].id;
        assert i == k;
      }
    }
  }

  lemma AckMemberLink(l: Link, m: Member, ack: Ack, drained: set<nat>)
    requires LinkOk(l) && MemberLink(false, m, l) && MemberOk(m)
    ensures MemberLink(false, Acknowledged(m, drained), if OwedLeft(m) then AckLink(l, ack) else l)
  {
    hide Tags, Serials, Leaves, LinkOk;
    if OwedLeft(m) {
      var after := AckLink(l, ack);
      LeftHasNoTag(l.down, after.down[|l.down|]);
      forall i | 0 <= i < |after.down| && after.down[i].reply.Joined? ensures m.joined {
        assert after.down[i] == l.down[i];
      }
    }
  }

  /** Once the server is stopped, only the acknowledgement binds a member to its stream. */
  lemma StoppedLink(m: Member, l: Link)
    requires MemberLink(false, m, l)
    ensures MemberLink(true, m, l)
  {
  }

  lemma CleanedLink(m: Member, l: Link)
    requires MemberLink(false, m, l)
    ensures MemberLink(false, m.(registered := false), l)
  {
    hide Tags, Serials, Leaves;
  }

  lemma ClosedLink(m: Member, l: Link)
    requires MemberLink(false, m, l)
    ensures MemberLink(false, m.(closed := true), l)
  {
  }

  lemma LoseKeeps(l: Link, keep: nat)
    requires LinkOk(l)
    ensures LinkOk(l.(down := l.down[..Min(keep, |l.down|)]))
  {
    hide Tags, RightTake, Released;
    var n := Min(keep, |l.down|);
    var after := l.(down := l.down[..n]);
    TagsFront(l.down, n);
    TagsBound(after.down);
    assert forall i :: 0 <= i < |after.down| ==> after.down[i] == l.down[i];
    assert Numbered(after) && Matched(after) && LeftPlaced(after) && InStep(after) && LateOk(after);
  }

  /** Every step of the world keeps the invariant. */
  lemma StepKeeps(w: World, a: Action)
    requires Inv(w)
    ensures Inv(Step(w, a))
  {
    hide LinkOk, OpenLink, ScopeOk, Next, Respond, Released;
    var s := w.server;
    if a.Act? {
      if a.j < |w.links| {
        ClientKeeps(w.links[a.j], a.step);
      }
    } else if a.Lose? {
      if a.j < |w.links| && Hung(s, a.j) {
        LoseKeeps(w.links[a.j], a.keep);
      }
    } else if !s.stopped {
      match a {
        case AddMember => AddLinkKeeps(w);
        case ServeOne(k, e) => ServeOneKeeps(w, k, e);
        case Close(k) => CloseLinkKeeps(w, k);
        case SweepClosed => SweepLinkKeeps(w);
        case AcknowledgeSome(drained) => AcknowledgeKeeps(w, drained);
        case Idle => NextKeeps(s, ReportIdle); IdleChanges(s);
        case FinishStop(drained) => StopKeeps(w, drained);
        case Fail => NextKeeps(s, Exit); ExitChanges(s);
      }
    }
  }

  lemma IdleChanges(s: Server)
    requires Valid(s)
    ensures Next(s, ReportIdle) == s.(idle := Next(s, ReportIdle).idle)
  {
  }

  lemma ExitChanges(s: Server)
    requires Valid(s) && !s.stopped
    ensures Next(s, Exit).members == [] && Next(s, Exit).added == s.added
  {
  }

  lemma AddLinkKeeps(w: World)
    requires Inv(w) && !w.server.stopped
    ensures Inv(Step(w, AddMember))
  {
    hide LinkOk, MemberLink, ScopeOk;
    NextKeeps(w.server, Add);
    NewLinkOk(w.server.added);
  }

  lemma NewLinkOk(id: nat)
    ensures LinkOk(NewLink()) && MemberLink(false, NewMember(id), NewLink())
  {
  }

  lemma ServeOneKeeps(w: World, k: nat, env: Env)
    requires Inv(w) && !w.server.stopped
    ensures Inv(Step(w, ServeOne(k, env)))
  {
    hide LinkOk, OpenLink, ScopeOk, Respond, Shaped;
    var s := w.server;
    if k < |s.members| && !s.members[k].closed && w.links[s.members[k].id].up != [] {
      var m := s.members[k];
      var q := w.links[m.id].up[0].request;
      var e := env.(reported := true);
      NextKeeps(s, Serve(k, q, e));
      ValidIsCoherent(s, k);
      ReplyShape(s.scope, m, q, e);
      RespondKeeps(s.scope, m, q, e);
      ServedKeeps(w.links[m.id], m, Respond(s.scope, m, q, e));
    }
  }

  lemma CloseLinkKeeps(w: World, k: nat)
    requires Inv(w) && !w.server.stopped
    ensures Inv(Step(w, Close(k)))
  {
    hide LinkOk, MemberLink, ScopeOk;
    NextKeeps(w.server, Hangup(k));
    if k < |w.server.members| {
      ClosedLink(w.server.members[k], w.links[w.server.members[k].id]);
    }
  }

  lemma SweepLinkKeeps(w: World)
    requires Inv(w) && !w.server.stopped
    ensures Inv(Step(w, SweepClosed))
  {
    hide LinkOk, MemberLink, ScopeOk, SweepScope, StillOpen;
    NextKeeps(w.server, Sweep);
    StillOpenKeeps(w.server.members, w.server.added);
    var left := StillOpen(w.server.members);
    forall k | 0 <= k < |left| ensures MemberLink(false, left[k], w.links[left[k].id]) {
      assert left[k] in w.server.members;
    }
  }

  lemma AcknowledgeKeeps(w: World, drained: set<nat>)
    requires Inv(w) && !w.server.stopped
    ensures Inv(Step(w, AcknowledgeSome(drained)))
  {
    hide LinkOk, MemberLink, ScopeOk;
    var s := w.server;
    if SomeActive(s.members) {
      NextKeeps(s, Acknowledge(drained));
      var scope := Next(s, Acknowledge(drained)).scope;
      AckLinksOk(w.links, s.members, s.added, scope);
      AckMembersOk(w.links, s.members, s.added, drained, scope);
    }
  }

  lemma StopKeeps(w: World, drained: set<nat>)
    requires Inv(w) && !w.server.stopped
    ensures Inv(Step(w, FinishStop(drained)))
  {
    hide LinkOk, MemberLink, ScopeOk;
    var s := w.server;
    NextKeeps(s, Stop(drained));
    var members := Cleaned(s.members);
    forall k | 0 <= k < |members| ensures MemberOk(members[k]) && MemberLink(false, members[k], w.links[members[k].id]) {
      CleanedLink(s.members[k], w.links[members[k].id]);
      assert MemberOk(s.members[k]);
    }
    AckLinksOk(w.links, members, s.added, None);
    AckMembersOk(w.links, members, s.added, drained, None);
    var after := AckLinks(w.links, members, None);
    forall k | 0 <= k < |members| ensures MemberLink(true, Acknowledged(members[k], drained), after[members[k].id]) {
      StoppedLink(Acknowledged(members[k], drained), after[members[k].id]);
    }
  }

  // Whole runs ------------------------------------------------------------------------------

  function RunWorld(actions: seq<Action>): (w: World)
    ensures Formed(w)
  {
    if actions == [] then Initially()
    else
      var before := RunWorld(actions[..|actions| - 1]);
      StepForms(before, actions[|actions| - 1]);
      Step(before, actions[|actions| - 1])
  }

  lemma StepForms(w: World, a: Action)
    requires Formed(w)
    ensures Formed(Step(w, a))
  {
    hide Respond, ScopeOk, AllOk, SweepScope, StillOpen, ClientNext;
    var s := w.server;
    match a {
      case AddMember => NextKeeps(s, Add);
      case ServeOne(k, e) =>
        if !s.stopped && k < |s.members| && w.links[s.members[k].id].up != [] {
          NextKeeps(s, Serve(k, w.links[s.members[k].id].up[0].request, e.(reported := true)));
        }
      case Close(k) => NextKeeps(s, Hangup(k));
      case SweepClosed => NextKeeps(s, Sweep);
      case AcknowledgeSome(drained) => NextKeeps(s, Acknowledge(drained));
      case Idle => NextKeeps(s, ReportIdle);
      case FinishStop(drained) => NextKeeps(s, Stop(drained));
      case Fail => NextKeeps(s, Exit);
      case _ =>
    }
  }

  lemma {:induction false} RunKeeps(actions: seq<Action>)
    ensures Inv(RunWorld(actions))
  {
    hide Inv, Step;
    if actions == [] {
      InitiallyOk();
    } else {
      RunKeeps(actions[..|actions| - 1]);
      StepKeeps(RunWorld(actions[..|actions| - 1]), actions[|actions| - 1]);
    }
  }

  lemma InitiallyOk()
    ensures Inv(Initially())
  {
  }

  /** In every run, with exchanges cancelled and streams cut anywhere, for every client and every
      frame that `exchange` or `finish_leave` took as an answer: a success is the answer to the
      request asked and of the kind expected. `Left` is no answer, and only an exchange begun after
      `begin_leave` takes it. An error is the answer to another request if and only if the Join had
      failed late and this is a later request, or the client was behind by one answer when it asked
      (an exchange had taken `Left`), or it had called `begin_leave` twice by then. */
  lemma RepliesMatch(actions: seq<Action>)
    ensures forall j, i ::
              0 <= j < |RunWorld(actions).links| && 0 <= i < |RunWorld(actions).links[j].client.takes| ==>
                var late := RunWorld(actions).links[j].late;
                var t := RunWorld(actions).links[j].client.takes[i];
                && (Success(t.answer.reply) ==> t.answer.tag == t.asked && Accepts(t.expected, t.answer.reply))
                && (t.answer.reply.Left? ==> t.answer.tag != t.asked && t.begun >= 1)
                && (t.answer.reply.Error? ==> (t.answer.tag != t.asked <==> (late.Some? && t.asked != 0) || t.slipped || t.begun >= 2))
  {
    hide RunWorld, Linked, Numbered, Matched, LeftPlaced, InStep, LateOk, Formed, Released;
    RunKeeps(actions);
    var w := RunWorld(actions);
    forall j, i | 0 <= j < |w.links| && 0 <= i < |w.links[j].client.takes| ensures RightTake(w.links[j].late, w.links[j].client.takes[i]) {
      assert LinkOk(w.links[j]);
    }
  }

  /** In every run, an open member's channel holds at most three frames its client has not heard:
      two answers and `Left`. */
  lemma FewUnread(actions: seq<Action>)
    ensures var w := RunWorld(actions);
            forall k :: 0 <= k < |w.server.members| && !w.server.stopped && !w.server.members[k].closed ==>
              |w.links[w.server.members[k].id].down| <= 3
  {
    hide RunWorld, Numbered, Matched, InStep, LateOk, Released, RightTake, Tags, Serials, Leaves, ScopeOk;
    RunKeeps(actions);
    var w := RunWorld(actions);
    forall k | 0 <= k < |w.server.members| && !w.server.stopped && !w.server.members[k].closed
      ensures |w.links[w.server.members[k].id].down| <= 3
    {
      var l := w.links[w.server.members[k].id];
      assert LinkOk(l) && MemberLink(false, w.server.members[k], l);
      assert |Tags(l.down)| <= |Debts(l.client)| <= 2;
    }
  }

  /** More than an error report or `Left` takes as a frame. */
  const REPORT: nat := 1024 * 1024

  /** The bytes of some frames, given the size of each. */
  function Weight(down: seq<Answer>, size: Answer -> nat): nat {
    if down == [] then 0 else size(down[0]) + Weight(down[1..], size)
  }

  /** So an error report always fits the open channel of a client of this protocol, in frames and in
      bytes, if everything it has not heard were still unwritten. */
  lemma ReportFits(actions: seq<Action>, size: Answer -> nat)
    requires forall a :: size(a) <= ChannelSpec.MAX_CONTROL_BODY + Framing.MAX_HEADER
    requires forall a: Answer :: !Success(a.reply) ==> size(a) <= REPORT
    ensures var w := RunWorld(actions);
            forall k :: 0 <= k < |w.server.members| && !w.server.stopped && !w.server.members[k].closed ==>
              var l := w.links[w.server.members[k].id];
              && |l.down| < ChannelSpec.MAX_QUEUED_FRAMES
              && Weight(l.down, size) + REPORT <= ChannelSpec.MAX_QUEUED_BYTES
              && (l.up != [] && l.up[0].request.Join? && !w.server.members[k].joined ==> l.down == [])
  {
    hide RunWorld, Numbered, InStep, LateOk, Released, RightTake, Tags, Serials, Leaves, ScopeOk, LeftPlaced;
    RunKeeps(actions);
    FewUnread(actions);
    var w := RunWorld(actions);
    forall k | 0 <= k < |w.server.members| && !w.server.stopped && !w.server.members[k].closed
      ensures var l := w.links[w.server.members[k].id];
              && Weight(l.down, size) + REPORT <= ChannelSpec.MAX_QUEUED_BYTES
              && (l.up != [] && l.up[0].request.Join? && !w.server.members[k].joined ==> l.down == [])
    {
      var l := w.links[w.server.members[k].id];
      assert LinkOk(l) && MemberLink(false, w.server.members[k], l) && MemberOk(w.server.members[k]);
      WeightBound(l.down, size);
    }
  }

  /** Only the first of three unheard frames can be large. */
  lemma WeightBound(down: seq<Answer>, size: Answer -> nat)
    requires |down| <= 3 && forall i :: 0 < i < |down| ==> !Success(down[i].reply)
    requires forall a :: size(a) <= ChannelSpec.MAX_CONTROL_BODY + Framing.MAX_HEADER
    requires forall a: Answer :: !Success(a.reply) ==> size(a) <= REPORT
    ensures Weight(down, size) <= ChannelSpec.MAX_CONTROL_BODY + Framing.MAX_HEADER + 2 * REPORT
  {
    if down != [] {
      var rest := down[1..];
      if rest != [] {
        assert rest[0] == down[1];
        if rest[1..] != [] {
          assert rest[1..][0] == down[2] && rest[1..][1..] == [];
          assert Weight(rest[1..], size) == size(down[2]) + Weight([], size);
        }
        assert Weight(rest, size) == size(down[1]) + Weight(rest[1..], size);
      }
    }
  }

  /** In every run, `finish_leave` succeeds only after `Left`, which was queued when the
      member's payloads were gone and its Docker use given back, and either another member was
      active or the scope had been dropped; the member keeps neither ever after. */
  lemma LeaveIsReleased(actions: seq<Action>)
    ensures var w := RunWorld(actions);
            forall j :: 0 <= j < |w.links| && w.links[j].client.left ==>
              && w.links[j].ack.Some?
              && w.links[j].ack.value.cleaned && w.links[j].ack.value.detached
              && (w.links[j].ack.value.others || w.links[j].ack.value.dropped)
              && (forall k :: 0 <= k < |w.server.members| && w.server.members[k].id == j ==>
                    w.server.members[k].leaving && !w.server.members[k].registered && !w.server.members[k].docker)
  {
    hide RunWorld, Numbered, Matched, InStep, LateOk, OpenLink, RightTake, ScopeOk;
    RunKeeps(actions);
    var w := RunWorld(actions);
    forall j | 0 <= j < |w.links| && w.links[j].client.left
      ensures w.links[j].ack.Some? && Released(w.links[j].ack.value)
      ensures forall k :: 0 <= k < |w.server.members| && w.server.members[k].id == j ==>
                w.server.members[k].leaving && !w.server.members[k].registered && !w.server.members[k].docker
    {
      assert LinkOk(w.links[j]) && LeftPlaced(w.links[j]);
      forall k | 0 <= k < |w.server.members| && w.server.members[k].id == j
        ensures w.server.members[k].leaving && !w.server.members[k].registered && !w.server.members[k].docker
      {
        assert MemberLink(w.server.stopped, w.server.members[k], w.links[j]) && MemberOk(w.server.members[k]);
      }
    }
  }

  lemma RunAppend(actions: seq<Action>, a: Action)
    ensures RunWorld(actions + [a]) == Step(RunWorld(actions), a)
  {
    assert (actions + [a])[..|actions + [a]| - 1] == actions;
  }

  function Working(): Env {
    Env(true, true, true, true, true, true, true, true, ScopeDocker.Foreign(true, true, true, None), true)
  }

  /** A run in which a Join fails late. */
  lemma LateRun() returns (actions: seq<Action>)
    ensures var w := RunWorld(actions);
            && |w.links| == 1 && w.links[0].down == [Answer(0, Joined), Answer(0, Error)]
            && w.links[0].client == NewClient().(pending := Some(ExpectJoined), waiting := true, next := 1)
  {
    hide RunWorld, Formed, Valid;
    var join := Join(JoinInfo(Definition(true, false, 0), false, false));
    var failing := Working().(pidCloned := false);
    var a1 := [AddMember];
    RunEmpty();
    assert [] + [AddMember] == a1;
    RunAppend([], AddMember);
    RunAppend(a1, Act(0, Ask(join)));
    var a2 := a1 + [Act(0, Ask(join))];
    RunAppend(a2, ServeOne(0, failing));
    actions := a2 + [ServeOne(0, failing)];
    assert RunWorld(actions).links[0].down == [Answer(0, Joined), Answer(0, Error)];
  }

  /** The exception is real: a Join whose last step fails answers twice, and a client that
      heard `Joined` takes the error for the answer to its next request. */
  lemma LateJoinIsMistaken()
    ensures exists actions ::
              && |RunWorld(actions).links| == 1 && |RunWorld(actions).links[0].client.takes| == 2
              && RunWorld(actions).links[0].client.takes[1] == Take(1, 0, false, ExpectRegistered, Answer(0, Error))
  {
    hide RunWorld, Formed, Valid;
    var a3 := LateRun();
    RunAppend(a3, Act(0, Hear));
    var a4 := a3 + [Act(0, Hear)];
    assert RunWorld(a4).links[0].down == [Answer(0, Error)];
    RunAppend(a4, Act(0, Ask(RegisterMember)));
    var a5 := a4 + [Act(0, Ask(RegisterMember))];
    RunAppend(a5, Act(0, Hear));
    var a6 := a5 + [Act(0, Hear)];
    assert RunWorld(a6).links[0].client.takes[1] == Take(1, 0, false, ExpectRegistered, Answer(0, Error));
  }

  lemma RunEmpty()
    ensures RunWorld([]) == Initially()
  {
  }

  /** A run in which the first of two members has joined. */
  lemma JoinedRun() returns (actions: seq<Action>)
    ensures var w := RunWorld(actions);
            && !w.server.stopped && w.server.members == [NewMember(0).(joined := true), NewMember(1)]
            && |w.links| == 2
            && w.links[0] == Link([], [Answer(0, Joined)], NewClient().(pending := Some(ExpectJoined), waiting := true, next := 1), None, None, None)
  {
    hide RunWorld, Formed, Valid;
    var join := Join(JoinInfo(Definition(false, false, 0), false, false));
    var a1 := [AddMember];
    RunEmpty();
    assert [] + [AddMember] == a1;
    RunAppend([], AddMember);
    RunAppend(a1, AddMember);
    var a2 := a1 + [AddMember];
    RunAppend(a2, Act(0, Ask(join)));
    var a3 := a2 + [Act(0, Ask(join))];
    RunAppend(a3, ServeOne(0, Working()));
    actions := a3 + [ServeOne(0, Working())];
    assert RunWorld(actions).links[0].down == [Answer(0, Joined)];
  }

  /** The same, with the first member now leaving. */
  lemma LeavingRun() returns (actions: seq<Action>)
    ensures var w := RunWorld(actions);
            && !w.server.stopped && w.server.members == [NewMember(0).(joined := true, leaving := true), NewMember(1)]
            && |w.links| == 2 && w.links[0].down == [] && w.links[0].leave == Some(1)
            && w.links[0].client.next == 2 && w.links[0].client.pending.None? && |w.links[0].client.takes| == 1 && w.links[0].client.joined
            && w.links[0].client.leaves == 1 && !w.links[0].client.slipped && !w.links[0].client.waiting && w.links[0].up == [] && w.links[0].late.None?
  {
    hide RunWorld, Formed, Valid;
    var a4 := JoinedRun();
    RunAppend(a4, Act(0, Hear));
    var a5 := a4 + [Act(0, Hear)];
    RunAppend(a5, Act(0, BeginLeave));
    var a6 := a5 + [Act(0, BeginLeave)];
    assert RunWorld(a6).links[0].up == [Sent(1, Leave)];
    RunAppend(a6, ServeOne(0, Working()));
    actions := a6 + [ServeOne(0, Working())];
  }

  /** The second condition is real: an exchange begun after `begin_leave` can take `Left`, */
  lemma LeftIsTakenRun() returns (actions: seq<Action>)
    ensures var w := RunWorld(actions);
            && |w.links| == 2 && |w.links[0].client.takes| == 2 && !w.server.stopped
            && w.links[0].client.takes[1] == Take(2, 1, false, ExpectDetached, Answer(1, Left))
            && w.server.members == [NewMember(0).(joined := true, leaving := true, leftSent := true), NewMember(1)]
            && w.links[0].up == [Sent(2, DetachDocker)] && w.links[0].down == [] && w.links[0].late.None?
            && w.links[0].client.slipped && w.links[0].client.pending.None? && w.links[0].client.next == 3
            && w.links[0].client.leaves == 1 && w.links[0].client.joined
  {
    hide RunWorld, Formed, Valid;
    var a7 := LeavingRun();
    var members := RunWorld(a7).server.members;
    assert OwedLeft(members[0]) && 0 in Owed(members) && SomeActive(members) by {
      assert !members[1].leaving && members[0].id == 0;
    }
    RunAppend(a7, AcknowledgeSome({}));
    var a8 := a7 + [AcknowledgeSome({})];
    assert RunWorld(a8).links[0].down == [Answer(1, Left)];
    RunAppend(a8, Act(0, Ask(DetachDocker)));
    var a9 := a8 + [Act(0, Ask(DetachDocker))];
    RunAppend(a9, Act(0, Hear));
    actions := a9 + [Act(0, Hear)];
    assert RunWorld(actions).links[0].client.takes[1] == Take(2, 1, false, ExpectDetached, Answer(1, Left));
  }

  /** and then the client's next exchange takes the error that answers this one. */
  lemma SlippedErrorIsMistaken()
    ensures exists actions ::
              && |RunWorld(actions).links| == 2 && |RunWorld(actions).links[0].client.takes| == 3
              && RunWorld(actions).links[0].late.None?
              && RunWorld(actions).links[0].client.takes[1] == Take(2, 1, false, ExpectDetached, Answer(1, Left))
              && RunWorld(actions).links[0].client.takes[2] == Take(3, 1, true, ExpectRegistered, Answer(2, Error))
  {
    hide RunWorld, Formed, Valid;
    var a10 := LeftIsTakenRun();
    RunAppend(a10, ServeOne(0, Working()));
    var a11 := a10 + [ServeOne(0, Working())];
    assert RunWorld(a11).links[0].down == [Answer(2, Error)];
    RunAppend(a11, Act(0, Ask(RegisterMember)));
    var a12 := a11 + [Act(0, Ask(RegisterMember))];
    RunAppend(a12, Act(0, Hear));
    var a13 := a12 + [Act(0, Hear)];
    assert RunWorld(a13).links[0].client.takes[2] == Take(3, 1, true, ExpectRegistered, Answer(2, Error));
  }

  /** So is the third: the error that answers a repeated `begin_leave` is taken by a later exchange. */
  lemma RepeatedLeaveIsMistaken()
    ensures exists actions ::
              && |RunWorld(actions).links| == 2 && |RunWorld(actions).links[0].client.takes| == 2
              && RunWorld(actions).links[0].late.None?
              && RunWorld(actions).links[0].client.takes[1] == Take(3, 2, false, ExpectDetached, Answer(2, Error))
  {
    hide RunWorld, Formed, Valid;
    var a7 := LeavingRun();
    RunAppend(a7, Act(0, BeginLeave));
    var a8 := a7 + [Act(0, BeginLeave)];
    assert RunWorld(a8).links[0].up == [Sent(2, Leave)];
    RunAppend(a8, ServeOne(0, Working()));
    var a9 := a8 + [ServeOne(0, Working())];
    assert RunWorld(a9).links[0].down == [Answer(2, Error)];
    RunAppend(a9, Act(0, Ask(DetachDocker)));
    var a10 := a9 + [Act(0, Ask(DetachDocker))];
    RunAppend(a10, Act(0, Hear));
    var a11 := a10 + [Act(0, Hear)];
    assert RunWorld(a11).links[0].client.takes[1] == Take(3, 2, false, ExpectDetached, Answer(2, Error));
  }
}
