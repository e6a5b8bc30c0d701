/** One member's connection to its scope: the receive loops of `exchange` and `finish_leave`. */
module ScopeClient {
  import opened Bytes
  import opened ScopeServer
  import opened ScopeSession
  import ScopeDocker
  import ChannelSpec

  // Storage --------------------------------------------------------------------------------

  lemma {:induction false} DistinctSize(names: seq<string>)
    requires Distinct(names)
    ensures |set n | n in names| == |names|
    decreases |names|
  {
    if names != [] {
      var init, last := names[..|names| - 1], names[|names| - 1];
      DistinctSize(init);
      assert names == init + [last];
      assert (set n | n in names) == (set n | n in init) + {last};
    }
  }

  /** A storage reply passes the client's check: as many directories as names asked, one for each. */
  lemma StorageAnswersNames(scope: Option<Scope>, m: Member, names: seq<string>, e: Env, directories: set<string>)
    requires Coherent(scope, m) && Handle(scope, m, OpenStorage(names), e).replies == [Storage(directories)]
    ensures |directories| == |names| && (forall n :: n in directories <==> n in names) && |names| <= ChannelSpec.MAX_FDS
  {
    DistinctSize(names);
  }

  // The connection ------------------------------------------------------------------------

  /** What one turn of a receive loop meets: a cancellation or deadline, no frame yet, a
      frame, or a closed channel. */
  datatype Turn = Interrupted | Quiet | Frame(reply: Reply) | Gone

  datatype Failure = AlreadyPending | InvalidRequest | Refused | InvalidReply | Stopped

  /** The first turn that is not quiet. */
  function First(turns: seq<Turn>): (n: nat)
    ensures n <= |turns| && (n < |turns| ==> !turns[n].Quiet?) && forall i :: 0 <= i < n ==> turns[i].Quiet?
  {
    if turns == [] || !turns[0].Quiet? then 0 else 1 + First(turns[1..])
  }

  /** The frames among some turns. */
  function Frames(turns: seq<Turn>): seq<Reply> {
    if turns == [] then []
    else
      var last := turns[|turns| - 1];
      Frames(turns[..|turns| - 1]) + (if last.Frame? then [last.reply] else [])
  }

  lemma FramesAppend(turns: seq<Turn>, t: Turn)
    ensures Frames(turns + [t]) == Frames(turns) + (if t.Frame? then [t.reply] else [])
  {
    assert (turns + [t])[..|turns + [t]| - 1] == turns;
  }

  class Connection {
    var pending: Option<Expected>

    constructor ()
      ensures pending == None
    {
      pending := None;
    }

    /** `exchange`: refused while a reply is owed; otherwise the first frame, if one comes
        before an interruption, settles it. An interrupted exchange still owes its reply. */
    method Exchange(q: Request, turns: seq<Turn>) returns (sent: bool, r: Result<Reply, Failure>)
      modifies this
      ensures sent <==> old(pending).None? && ExpectedReply(q).Some?
      ensures !sent ==> r.Err? && pending == old(pending)
      ensures sent && First(turns) < |turns| && turns[First(turns)].Frame? ==>
                pending.None? && (r.Ok? <==> Accepts(ExpectedReply(q).value, turns[First(turns)].reply))
      ensures sent && !(First(turns) < |turns| && turns[First(turns)].Frame?) ==> r.Err? && pending == ExpectedReply(q)
      ensures r.Ok? ==> First(turns) < |turns| && turns[First(turns)] == Frame(r.value)
    {
      if pending.Some? {
        return false, Err(AlreadyPending);
      }
      var expected := ExpectedReply(q);
      if expected.None? {
        return false, Err(InvalidRequest);
      }
      sent := true;
      pending := expected;
      for i := 0 to |turns|
        invariant pending == expected && i <= First(turns)
      {
        match turns[i] {
          case Quiet =>
          case Frame(reply) =>
            pending := None;
            if reply.Error? {
              return true, Err(Refused);
            }
            if !Accepts(expected.value, reply) {
              return true, Err(InvalidReply);
            }
            return true, Ok(reply);
          case _ =>
            return true, Err(Stopped);
        }
      }
      r := Err(Stopped);
    }

    /** `finish_leave`: succeeds exactly when the frames that came are the owed reply, if one
        was owed, and then `Left`. */
    method FinishLeave(turns: seq<Turn>) returns (ok: bool, used: nat)
      modifies this
      ensures used <= |turns|
      ensures ok ==> pending.None?
      ensures ok <==> (var frames := Frames(turns[..used]);
                       if old(pending).None? then frames == [Left]
                       else |frames| == 2 && (Accepts(old(pending).value, frames[0]) || frames[0].Error?) && frames[1] == Left)
    {
      assert turns[..0] == [];
      for i := 0 to |turns|
        invariant if pending == old(pending) then Frames(turns[..i]) == []
                  else pending.None? && old(pending).Some? && exists r :: Frames(turns[..i]) == [r] && (Accepts(old(pending).value, r) || r.Error?)
      {
        FramesAppend(turns[..i], turns[i]);
        assert turns[..i + 1] == turns[..i] + [turns[i]];
        match turns[i] {
          case Frame(reply) =>
            if pending.Some? {
              var expected := pending.value;
              pending := None;
              if !Accepts(expected, reply) && !reply.Error? {
                return false, i + 1;
              }
            } else if !reply.Left? {
              ghost var frames := Frames(turns[..i + 1]);
              assert frames[|frames| - 1] == reply;
              return false, i + 1;
            } else {
              return true, i + 1;
            }
          case Quiet =>
          case _ =>
            return false, i + 1;
        }
      }
      assert turns[..|turns|] == turns;
      return false, |turns|;
    }
  }
}
