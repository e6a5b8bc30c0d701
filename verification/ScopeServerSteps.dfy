/** What the server's steps keep of a member's stream. */
module ScopeServerSteps {
  import opened Bytes
  import opened ScopeServer
  import opened ScopeSession
  import ScopeDocker

  /** What the server answers to one request: the success that request expects, or an error if the
      channel takes the report; both for a Join that failed late; nothing yet to the Leave of an
      active member. */
  predicate Shaped(m: Member, q: Request, o: Outcome, reported: bool) {
    && (forall i :: 0 <= i < |o.replies| ==> !o.replies[i].Left?)
    && (reported && !q.Leave? ==> o.replies != [])
    && (|o.replies| <= 1 || (q.Join? && !o.ok && o.replies == [Joined, Error]))
    && (o.replies != [] && !o.replies[0].Error? ==>
          !m.leaving && ExpectedReply(q).Some? && Accepts(ExpectedReply(q).value, o.replies[0]))
    && (q.Leave? && m.joined && !m.leaving ==> o.replies == [] && o.ok && o.member.leaving)
    && (q.Leave? && m.leaving ==> o.replies == (if reported then [Error] else []) && !o.ok && o.member.closed)
    && (o.member.leaving && !m.leaving ==> q.Leave?)
    && (Joined in o.replies ==> q.Join? && (o.ok ==> o.member.joined) && (!o.ok ==> o.member.closed))
    && (m.joined ==> o.member.joined) && (m.leaving ==> o.member.leaving)
    && o.member.leftSent == m.leftSent
  }

  lemma ReplyShape(scope: Option<Scope>, m: Member, q: Request, e: Env)
    requires Coherent(scope, m) && MemberOk(m) && Sound(scope)
    ensures Shaped(m, q, Respond(scope, m, q, e), e.reported)
  {
    hide ScopeDocker.Valid, Handle;
    HandleKeeps(scope, m, q, e);
    HandleShape(scope, m, q, e);
  }

  lemma HandleShape(scope: Option<Scope>, m: Member, q: Request, e: Env)
    requires Coherent(scope, m) && MemberOk(m)
    ensures var o := Handle(scope, m, q, e);
            && |o.replies| <= 1
            && (o.ok && !q.Leave? ==> o.replies != [])
            && (o.replies != [] ==> !m.leaving && ExpectedReply(q).Some? && Accepts(ExpectedReply(q).value, o.replies[0]))
            && (!o.ok && o.replies != [] ==> q.Join?)
            && (q.Leave? ==> o.replies == [] && (o.ok <==> m.joined && !m.leaving) && (o.ok ==> o.member.leaving))
            && (o.member.leaving && !m.leaving ==> q.Leave?)
            && (m.joined ==> o.member.joined) && (q.Join? && o.ok ==> o.member.joined)
            && (!o.ok && q.Leave? ==> o.member == m)
  {
    hide HandleParts;
    match q {
      case AttachDocker(config, parts, more) =>
        if m.joined {
          PartsShape(scope, m, if m.pending.Some? then m.pending.value else ScopeDocker.Transaction(false, config, []), parts, more, e);
        }
      case ExtendDocker(parts, more) =>
        if m.joined {
          PartsShape(scope, m, if m.pending.Some? then m.pending.value else ScopeDocker.Transaction(true, None, []), parts, more, e);
        }
      case _ =>
    }
  }

  lemma PartsShape(scope: Option<Scope>, m: Member, pending: Transaction, parts: seq<ScopeDocker.Part>, more: bool, e: Env)
    requires scope.Some?
    ensures var o := HandleParts(scope, m, pending, parts, more, e);
            && (o.ok ==> o.replies == [if more then DockerPending else DockerAttached])
            && (!o.ok ==> o.replies == [])
            && o.member == m.(pending := o.member.pending, docker := o.member.docker)
  {
    hide ScopeDocker.Apply;
  }

  /** Serving the next request of a stream. */
  lemma ServedKeeps(l: Link, m: Member, o: Outcome)
    requires LinkOk(l) && OpenLink(m, l) && MemberOk(m) && !m.closed && l.up != [] && (l.ack.Some? ==> m.leftSent)
    requires Shaped(m, l.up[0].request, o, true)
    ensures LinkOk(ServedLink(l, o)) && MemberLink(false, o.member, ServedLink(l, o))
  {
    hide LinkOk, OpenLink, Shaped;
    ServedTags(l, m, o);
    ServedLinkOk(l, m, o);
    if !o.member.closed {
      ServedOpen(l, m, o);
    }
    assert o.member.leftSent == m.leftSent by { SameLeftSent(m, l.up[0].request, o); }
  }

  lemma SameLeftSent(m: Member, q: Request, o: Outcome)
    requires Shaped(m, q, o, true)
    ensures o.member.leftSent == m.leftSent
  {
  }

  /** How the lists of answers and requests move. */
  lemma ServedTags(l: Link, m: Member, o: Outcome)
    requires l.up != [] && Shaped(m, l.up[0].request, o, true)
    ensures var s := l.up[0].serial;
            var after := ServedLink(l, o);
            && Tags(after.down) == Tags(l.down) + Tags(Tagged(s, o.replies))
            && |Tags(Tagged(s, o.replies))| == |o.replies|
            && (forall i :: 0 <= i < |o.replies| ==> Tags(Tagged(s, o.replies))[i] == s)
            && Serials(l.up) == (if l.up[0].request.Leave? then [] else [s]) + Serials(after.up)
            && Leaves(l.up) == (if l.up[0].request.Leave? then 1 else 0) + Leaves(after.up)
  {
    var new_ := Tagged(l.up[0].serial, o.replies);
    TagsAppend(l.down, new_);
    if |new_| > 0 {
      assert Tags(new_) == [new_[0].tag] + Tags(new_[1..]);
      if |new_| > 1 {
        assert new_[1..] == [new_[1]] && new_[1..][1..] == [];
        assert Tags(new_[1..]) == [new_[1].tag] + Tags([]);
      }
    }
  }

  lemma ServedLinkOk(l: Link, m: Member, o: Outcome)
    requires LinkOk(l) && OpenLink(m, l) && MemberOk(m) && !m.closed && l.up != []
    requires Shaped(m, l.up[0].request, o, true)
    ensures LinkOk(ServedLink(l, o))
  {
    hide Tags, Serials, Leaves, RightTake, Released;
    var after := ServedLink(l, o);
    ServedTags(l, m, o);
    ServedNumbers(l, m, o);
    ServedMatched(l, m, o);
    ServedInStep(l, m, o);
    assert LeftPlaced(after);
    assert LateOk(after);
    assert after.late != l.late ==> l.client.takes == [];
  }

  lemma ServedNumbers(l: Link, m: Member, o: Outcome)
    requires LinkOk(l) && OpenLink(m, l) && MemberOk(m) && !m.closed && l.up != []
    requires Shaped(m, l.up[0].request, o, true)
    ensures Numbered(ServedLink(l, o))
  {
    hide Tags, Serials, Leaves, RightTake, Released, Matched, LeftPlaced, InStep, LateOk, Outstanding;
    ServedTags(l, m, o);
    var after := ServedLink(l, o);
    forall i | 0 <= i < |Tags(after.down)| ensures Tags(after.down)[i] < after.client.next {
      if i < |Tags(l.down)| {
        assert Tags(after.down)[i] == Tags(l.down)[i];
      } else {
        assert Tags(after.down)[i] == l.up[0].serial;
      }
    }
  }

  lemma ServedMatched(l: Link, m: Member, o: Outcome)
    requires LinkOk(l) && OpenLink(m, l) && MemberOk(m) && !m.closed && l.up != []
    requires Shaped(m, l.up[0].request, o, true)
    ensures Matched(ServedLink(l, o))
  {
    hide Tags, Serials, Leaves, RightTake, Released, LeftPlaced, InStep, LateOk, Numbered, Debts;
  }

  /** The first answer a served request adds is the next debt, or ends the stream. */
  lemma ServedInStep(l: Link, m: Member, o: Outcome)
    requires LinkOk(l) && OpenLink(m, l) && MemberOk(m) && !m.closed && l.up != []
    requires Shaped(m, l.up[0].request, o, true)
    ensures InStep(ServedLink(l, o))
  {
    hide Tags, Serials, RightTake, Released, LateOk, Matched, Outstanding, LeftPlaced;
    ServedTags(l, m, o);
    var after := ServedLink(l, o);
    var c, s := l.client, l.up[0].serial;
    if after.late.None? && o.replies != [] {
      assert |o.replies| == 1;
      if l.up[0].request.Leave? {
        assert m.leaving && c.leaves >= 2;
        if Tags(l.down) == [] && c.pending.Some? && !c.slipped {
          assert Serials(l.up) == Tags(l.down) + Serials(l.up) == [c.asked];
          var i := SerialStands(l.up);
          assert l.up[i].serial == c.asked && i > 0;
        }
      } else {
        assert (Tags(l.down) + Serials(l.up))[|Tags(l.down)|] == s;
        if Tags(l.down) == [] && c.pending.Some? && !c.slipped {
          assert s == c.asked;
          assert l.up[..0] == [];
          assert Leaves([]) == 0;
        }
      }
      if Tags(l.down) == [] {
        assert Tags(after.down)[0] == s;
      } else {
        assert Tags(after.down)[0] == Tags(l.down)[0];
      }
    } else if o.replies == [] {
      assert Tags(after.down) == Tags(l.down);
    }
  }

  lemma ServedOpen(l: Link, m: Member, o: Outcome)
    requires LinkOk(l) && OpenLink(m, l) && MemberOk(m) && !m.closed && l.up != []
    requires Shaped(m, l.up[0].request, o, true) && !o.member.closed
    ensures OpenLink(o.member, ServedLink(l, o))
  {
    hide Tags, Serials, RightTake, Released, LateOk, Matched, LeftPlaced, InStep;
    ServedTags(l, m, o);
    var after := ServedLink(l, o);
    var s := l.up[0].serial;
    assert l.up[0].request.Leave? ==> !m.leaving && o.replies == [];
    if l.up[0].request.Leave? {
      assert Tags(after.down) == Tags(l.down) && Serials(after.up) == Serials(l.up);
    } else {
      assert Tags(Tagged(s, o.replies)) == [s];
      Assoc(Tags(l.down), [s], Serials(after.up));
    }
    forall i | 0 <= i < |after.up| && !after.up[i].request.Leave? && after.client.pending.Some? && after.up[i].serial == after.client.asked
      ensures after.client.begun == (if o.member.leaving then 1 else 0) + Leaves(after.up[..i])
    {
      assert after.up[i] == l.up[i + 1];
      assert l.up[..i + 1][1..] == after.up[..i];
    }
    if !o.member.leaving {
      assert |Debts(l.client)| <= 1 by { NotSlipped(l, m); }
      assert |Serials(after.up)| == 0;
      OnlyLeaves(after.up);
      assert Outstanding(after);
    }
  }

  /** Before `Left`, a client is not behind. */
  lemma NotSlipped(l: Link, m: Member)
    requires LeftPlaced(l) && OpenLink(m, l) && !m.leaving
    ensures !l.client.slipped
  {
  }

  lemma {:induction false} OnlyLeaves(up: seq<Sent>)
    requires Serials(up) == []
    ensures forall i :: 0 <= i < |up| ==> up[i].request.Leave?
  {
    if up != [] {
      OnlyLeaves(up[1..]);
      assert up == [up[0]] + up[1..];
    }
  }

  lemma AckLinkKeeps(l: Link, m: Member, ack: Ack)
    requires LinkOk(l) && OpenLink(m, l) && OwedLeft(m) && l.ack.None? && Released(ack)
    ensures LinkOk(AckLink(l, ack)) && Tags(AckLink(l, ack).down) == Tags(l.down)
  {
    hide Tags, Serials, RightTake, Released;
    var after := AckLink(l, ack);
    LeftHasNoTag(l.down, after.down[|l.down|]);
    assert forall i :: 0 <= i < |l.down| ==> after.down[i] == l.down[i];
    assert Numbered(after) && Matched(after);
    if l.client.pending.Some? && l.client.begun == 0 && l.down == [] {
      // Its request would still be ahead of the Leave that was served.
      NoTags(l.down);
      assert Serials(l.up) == Tags(l.down) + Serials(l.up) == [l.client.asked];
      var i := SerialStands(l.up);
      assert false;
    }
    assert LeftPlaced(after) by { TagsBound(l.down); LeftIsFirst(l); }
    assert InStep(after);
  }

  lemma NoTags(down: seq<Answer>)
    requires down == []
    ensures Tags(down) == []
  {
  }

  lemma LeftHasNoTag(down: seq<Answer>, a: Answer)
    requires a.reply.Left?
    ensures Tags(down + [a]) == Tags(down)
  {
    TagsAppend(down, [a]);
    assert [a][1..] == [];
    assert Tags([a]) == [] + Tags([]);
  }

  /** Before `Left` is queued there is none. */
  lemma {:induction false} NoLeftYet(down: seq<Answer>)
    requires |Tags(down)| == |down|
    ensures forall i :: 0 <= i < |down| ==> !down[i].reply.Left?
  {
    if down != [] {
      TagsBound(down[1..]);
      NoLeftYet(down[1..]);
      assert down == [down[0]] + down[1..];
    }
  }

  lemma LeftIsFirst(l: Link)
    requires LeftPlaced(l) && l.ack.None?
    ensures forall i :: 0 <= i < |l.down| ==> !l.down[i].reply.Left?
  {
    NoLeftYet(l.down);
  }
}
