/** What a client's steps keep of its stream. */
module ScopeClientSteps {
  import opened Bytes
  import opened ScopeServer
  import opened ScopeSession

  lemma AskKeeps(l: Link, q: Request)
    requires LinkOk(l)
    ensures LinkOk(ClientNext(l, Ask(q)))
  {
    hide Tags, Serials, RightTake, Released;
  }

  lemma AskOpen(m: Member, l: Link, q: Request)
    requires LinkOk(l) && OpenLink(m, l)
    ensures OpenLink(m, ClientNext(l, Ask(q)))
  {
    hide Tags, Serials, Leaves, RightTake, Released, Matched, LateOk;
    var after := ClientNext(l, Ask(q));
    if after != l {
      SerialsAppend(l.up, Sent(l.client.next, q));
      Assoc(Tags(l.down), Serials(l.up), [l.client.next]);
      assert Debts(after.client) == Debts(l.client) + [l.client.next];
      AskPlace(m, l, after);
      if !m.leaving {
        NoDebtsLeft(l);
        assert Outstanding(after);
      }
    }
  }

  lemma AskPlace(m: Member, l: Link, after: Link)
    requires Numbered(l) && l.client.leaves == (if m.leaving then 1 else 0) + Leaves(l.up)
    requires |after.up| == |l.up| + 1 && after.up[..|l.up|] == l.up && after.client.asked == l.client.next && after.client.begun == l.client.leaves
    ensures forall i :: 0 <= i < |after.up| && after.up[i].serial == after.client.asked ==>
              after.client.begun == (if m.leaving then 1 else 0) + Leaves(after.up[..i])
  {
    hide Leaves, Tags;
    assert forall i :: 0 <= i < |l.up| ==> after.up[i] == l.up[i];
  }

  /** Without a debt, a stream that is being served carries no exchange and no answer. */
  lemma NoDebtsLeft(l: Link)
    requires Tags(l.down) + Serials(l.up) == [] && Outstanding(l) && l.client.pending.None?
    ensures l.down == [] && forall i :: 0 <= i < |l.up| ==> l.up[i].request.Leave?
  {
  }

  lemma CancelKeeps(l: Link)
    requires LinkOk(l)
    ensures LinkOk(ClientNext(l, Cancel))
    ensures forall m :: OpenLink(m, l) ==> OpenLink(m, ClientNext(l, Cancel))
  {
    hide Tags, Serials, Leaves, RightTake, Released;
    var after := ClientNext(l, Cancel);
    forall m | OpenLink(m, l) ensures OpenLink(m, after) {
      assert Outstanding(l) ==> Outstanding(after);
    }
  }

  lemma BeginLeaveKeeps(l: Link)
    requires LinkOk(l)
    ensures LinkOk(ClientNext(l, BeginLeave))
  {
    hide Tags, Serials, RightTake, Released;
  }

  lemma BeginLeaveOpen(m: Member, l: Link)
    requires LinkOk(l) && OpenLink(m, l)
    ensures OpenLink(m, ClientNext(l, BeginLeave))
  {
    hide Tags, Serials, Leaves, RightTake, Released, Matched, LateOk;
    var after := ClientNext(l, BeginLeave);
    if after != l {
      SerialsAppend(l.up, Sent(l.client.next, Leave));
      assert Serials(l.up) + [] == Serials(l.up);
      forall i | 0 <= i < |after.up| && !after.up[i].request.Leave? && after.client.pending.Some? && after.up[i].serial == after.client.asked
        ensures after.client.begun == (if m.leaving then 1 else 0) + Leaves(after.up[..i])
      {
        assert after.up[i] == l.up[i] && after.up[..i] == l.up[..i];
      }
    }
  }

  /** The head of a stream, as the lists of answers see it. */
  lemma PopTags(down: seq<Answer>)
    requires down != []
    ensures |Tags(down[1..])| <= |down| - 1
    ensures if down[0].reply.Left? then Tags(down[1..]) == Tags(down)
            else |Tags(down)| == |Tags(down[1..])| + 1 && Tags(down)[0] == down[0].tag && Tags(down)[1..] == Tags(down[1..])
    ensures forall i :: 0 <= i < |Tags(down[1..])| ==> Tags(down[1..])[i] in Tags(down)
  {
    TagsBound(down[1..]);
  }

  lemma PopBounds(down: seq<Answer>, next: nat)
    requires down != [] && forall i :: 0 <= i < |Tags(down)| ==> Tags(down)[i] < next
    ensures forall i :: 0 <= i < |Tags(down[1..])| ==> Tags(down[1..])[i] < next
  {
    hide Tags;
    PopTags(down);
    forall i | 0 <= i < |Tags(down[1..])| ensures Tags(down[1..])[i] < next {
      if !down[0].reply.Left? {
        assert Tags(down[1..])[i] == Tags(down)[i + 1];
      }
    }
  }

  /** A frame taken as an answer, by `exchange` or `finish_leave`. */
  lemma TakeKeeps(l: Link, joined: bool)
    requires LinkOk(l) && l.client.pending.Some? && l.down != [] && (l.client.joined ==> joined)
    ensures LinkOk(l.(down := l.down[1..], client := Taken(l.client, l.down[0]).(joined := joined)))
  {
    hide Tags, Released, RightTake;
    PopTags(l.down);
    TakeIsRight(l);
    var after := l.(down := l.down[1..], client := Taken(l.client, l.down[0]).(joined := joined));
    PopBounds(l.down, l.client.next);
    assert Numbered(after);
    assert forall i :: 0 <= i < |after.down| ==> after.down[i] == l.down[i + 1];
    assert Matched(after);
    assert LeftPlaced(after);
    assert InStep(after);
    forall i | 0 <= i < |after.client.takes| ensures RightTake(after.late, after.client.takes[i]) {
      if i < |l.client.takes| {
        assert after.client.takes[i] == l.client.takes[i];
      }
    }
  }

  lemma TakeIsRight(l: Link)
    requires LinkOk(l) && l.client.pending.Some? && l.down != []
    ensures RightTake(l.late, Take(l.client.asked, l.client.begun, l.client.slipped, l.client.pending.value, l.down[0]))
  {
    hide Tags, Released;
    PopTags(l.down);
  }

  lemma TakeOpen(m: Member, l: Link, joined: bool)
    requires LinkOk(l) && OpenLink(m, l) && l.client.pending.Some? && l.down != []
    requires joined ==> l.client.joined || l.down[0].reply.Joined?
    ensures OpenLink(m, l.(down := l.down[1..], client := Taken(l.client, l.down[0]).(joined := joined)))
  {
    hide Tags, Serials, Leaves, RightTake, Released;
    PopTags(l.down);
    var after := l.(down := l.down[1..], client := Taken(l.client, l.down[0]).(joined := joined));
    if l.down[0].reply.Left? {
      assert !l.client.slipped;
      assert Debts(after.client) == Debts(l.client);
    } else {
      assert Debts(l.client)[0] == l.down[0].tag by { assert Tags(l.down)[0] == l.down[0].tag; }
      assert Debts(after.client) == Debts(l.client)[1..];
      assert (Tags(l.down) + Serials(l.up))[1..] == Tags(l.down[1..]) + Serials(l.up);
    }
  }

  lemma HearKeeps(l: Link)
    requires LinkOk(l)
    ensures LinkOk(ClientNext(l, Hear))
    ensures forall m :: OpenLink(m, l) ==> OpenLink(m, ClientNext(l, Hear))
  {
    hide LinkOk, OpenLink;
    if l.client.waiting && l.client.pending.Some? && l.down != [] {
      var joined := l.client.joined || l.down[0].reply.Joined?;
      TakeKeeps(l, joined);
      forall m | OpenLink(m, l) ensures OpenLink(m, ClientNext(l, Hear)) {
        TakeOpen(m, l, joined);
      }
    }
  }

  lemma FinishHearKeeps(l: Link)
    requires LinkOk(l)
    ensures LinkOk(ClientNext(l, FinishHear))
    ensures forall m :: OpenLink(m, l) ==> OpenLink(m, ClientNext(l, FinishHear))
  {
    hide LinkOk, OpenLink;
    var after := ClientNext(l, FinishHear);
    if after != l {
      if l.client.pending.Some? {
        assert Taken(l.client, l.down[0]).(joined := l.client.joined) == Taken(l.client, l.down[0]);
        TakeKeeps(l, l.client.joined);
        forall m | OpenLink(m, l) ensures OpenLink(m, after) {
          TakeOpen(m, l, l.client.joined);
        }
      } else {
        PopKeeps(l);
        forall m | OpenLink(m, l) ensures OpenLink(m, after) {
          PopOpen(m, l);
        }
      }
    }
  }

  /** A frame `finish_leave` takes when nothing is owed: `Left`, or one answer fewer to come. */
  lemma PopKeeps(l: Link)
    requires LinkOk(l) && l.client.pending.None? && l.client.joined && l.down != []
    ensures LinkOk(ClientNext(l, FinishHear))
  {
    hide Tags, Released, RightTake;
    PopTags(l.down);
    PopBounds(l.down, l.client.next);
    var after := ClientNext(l, FinishHear);
    assert forall i :: 0 <= i < |after.down| && after != l ==> after.down[i] == l.down[i + 1];
    assert Numbered(after) && Matched(after) && LeftPlaced(after);
  }

  lemma PopOpen(m: Member, l: Link)
    requires LinkOk(l) && OpenLink(m, l) && l.client.pending.None? && l.client.joined && l.down != []
    ensures OpenLink(m, ClientNext(l, FinishHear))
  {
    hide Tags, Serials, Leaves, RightTake, Released;
    PopTags(l.down);
    var after := ClientNext(l, FinishHear);
    if !l.client.waiting {
      if !l.down[0].reply.Left? {
        assert Tags(l.down) + Serials(l.up) == [l.client.owed];
        assert Tags(l.down[1..]) + Serials(l.up) == (Tags(l.down) + Serials(l.up))[1..];
      }
    }
  }

  /** A client's step keeps its stream in order, whatever the server's side is doing. */
  lemma ClientKeeps(l: Link, step: ClientStep)
    requires LinkOk(l)
    ensures LinkOk(ClientNext(l, step)) && ClientNext(l, step).ack == l.ack
    ensures forall m :: OpenLink(m, l) ==> OpenLink(m, ClientNext(l, step))
  {
    hide LinkOk, OpenLink;
    match step {
      case Ask(q) =>
        AskKeeps(l, q);
        forall m | OpenLink(m, l) ensures OpenLink(m, ClientNext(l, step)) {
          AskOpen(m, l, q);
        }
      case Cancel => CancelKeeps(l);
      case Hear => HearKeeps(l);
      case BeginLeave =>
        BeginLeaveKeeps(l);
        forall m | OpenLink(m, l) ensures OpenLink(m, ClientNext(l, step)) {
          BeginLeaveOpen(m, l);
        }
      case FinishHear => FinishHearKeeps(l);
    }
  }
}
