/** The resource lease protocol: shared locks on a directory, and the last holder's
    cleanup, as a state machine over the system calls of any number of holders. */
module Lease {
  import opened Bytes

  /** A resources directory; names are never reused, so it also names its lock inode. */
  type Dir = nat
  type Ofd = nat
  type Id = nat

  datatype Lock = Unlocked | Shared | Exclusive

  /** An open file description of `.gc-lease`, with the number of descriptors on it. */
  datatype Description = Description(dir: Dir, lock: Lock, copies: nat)

  /** A lease, from `share` through transfer to the steps of its `Drop`. */
  datatype Agent =
    | Opening(dir: Dir, ofd: Ofd, parent: Id)  // share: opened, not locked yet
    | Held(dir: Dir, ofd: Ofd)
    | Flight(dir: Dir, ofd: Ofd)               // into_parts: the descriptor is in a message
    | Released(dir: Dir)                       // drop: own descriptor closed
    | Reopened(dir: Dir, ofd: Ofd)             // drop: opened again
    | Owner(dir: Dir, ofd: Ofd)                // drop: holds the exclusive lock
    | Removed(dir: Dir, ofd: Ofd)              // drop: directory removed
    | Finished

  /** `tested` records the directories whose exclusive lock was tried when no shared lock was left. */
  datatype World = World(dirs: set<Dir>, ofds: map<Ofd, Description>, agents: map<Id, Agent>, tested: set<Dir>)

  datatype Action =
    | ShareOpen(parent: Id, id: Id, ofd: Ofd)
    | ShareLock(id: Id)
    | Send(id: Id)
    | Adopt(id: Id, directory: Dir)
    | Abandon(id: Id)
    | DropClose(id: Id)
    | DropOpen(id: Id, ofd: Ofd)
    | DropLock(id: Id)
    | DropRemove(id: Id)
    | DropEnd(id: Id)
    | CopyRaw(ofd: Ofd)
    | CloseRaw(ofd: Ofd)

  /** Close one descriptor; the last one releases the lock. */
  function Close(ofds: map<Ofd, Description>, o: Ofd): map<Ofd, Description>
    requires o in ofds
  {
    if ofds[o].copies <= 1 then ofds - {o} else ofds[o := ofds[o].(copies := ofds[o].copies - 1)]
  }

  predicate NoOtherLock(w: World, o: Ofd, dir: Dir) {
    forall p :: p in w.ofds && p != o && w.ofds[p].dir == dir ==> w.ofds[p].lock == Unlocked
  }

  predicate NoShared(w: World, dir: Dir) {
    forall p :: p in w.ofds && w.ofds[p].dir == dir ==> w.ofds[p].lock != Shared
  }

  predicate NoExclusive(w: World, dir: Dir) {
    forall p :: p in w.ofds && w.ofds[p].dir == dir ==> w.ofds[p].lock != Exclusive
  }

  /** A lease may not be dropped or moved while it is being shared. */
  predicate Borrowed(w: World, id: Id) {
    exists i :: i in w.agents && w.agents[i].Opening? && w.agents[i].parent == id
  }

  /** One system call of one holder; an action that does not apply leaves the world alone. */
  function Step(w: World, a: Action): World {
    match a
    case ShareOpen(parent, id, ofd) =>
      if parent in w.agents && w.agents[parent].Held? && id !in w.agents && ofd !in w.ofds && w.agents[parent].dir in w.dirs
      then w.(ofds := w.ofds[ofd := Description(w.agents[parent].dir, Unlocked, 1)],
              agents := w.agents[id := Opening(w.agents[parent].dir, ofd, parent)])
      else w
    case ShareLock(id) =>
      if id in w.agents && w.agents[id].Opening? && w.agents[id].ofd in w.ofds then
        var o := w.agents[id].ofd;
        if NoExclusive(w, w.agents[id].dir)
        then w.(ofds := w.ofds[o := w.ofds[o].(lock := Shared)], agents := w.agents[id := Held(w.agents[id].dir, o)])
        else w.(ofds := Close(w.ofds, o), agents := w.agents[id := Finished])
      else w
    case Send(id) =>
      if id in w.agents && w.agents[id].Held? && !Borrowed(w, id)
      then w.(agents := w.agents[id := Flight(w.agents[id].dir, w.agents[id].ofd)])
      else w
    case Adopt(id, directory) =>
      // from_parts: the directory's lock inode must be that of the descriptor received.
      if id in w.agents && w.agents[id].Flight? && w.agents[id].ofd in w.ofds then
        var o := w.agents[id].ofd;
        if directory in w.dirs && w.ofds[o].dir == directory
        then w.(agents := w.agents[id := Held(directory, o)])
        else w.(ofds := Close(w.ofds, o), agents := w.agents[id := Finished])
      else w
    case Abandon(id) =>
      if id in w.agents && w.agents[id].Flight? && w.agents[id].ofd in w.ofds
      then w.(ofds := Close(w.ofds, w.agents[id].ofd), agents := w.agents[id := Finished])
      else w
    case DropClose(id) =>
      if id in w.agents && w.agents[id].Held? && w.agents[id].ofd in w.ofds && !Borrowed(w, id)
      then w.(ofds := Close(w.ofds, w.agents[id].ofd), agents := w.agents[id := Released(w.agents[id].dir)])
      else w
    case DropOpen(id, ofd) =>
      if id in w.agents && w.agents[id].Released? && ofd !in w.ofds then
        var dir := w.agents[id].dir;
        if dir in w.dirs
        then w.(ofds := w.ofds[ofd := Description(dir, Unlocked, 1)], agents := w.agents[id := Reopened(dir, ofd)])
        else w.(agents := w.agents[id := Finished])
      else w
    case DropLock(id) =>
      if id in w.agents && w.agents[id].Reopened? && w.agents[id].ofd in w.ofds then
        var Reopened(dir, o) := w.agents[id];
        var tested := if NoShared(w, dir) then w.tested + {dir} else w.tested;
        if NoOtherLock(w, o, dir)
        then w.(ofds := w.ofds[o := w.ofds[o].(lock := Exclusive)], agents := w.agents[id := Owner(dir, o)], tested := tested)
        else w.(ofds := Close(w.ofds, o), agents := w.agents[id := Finished], tested := tested)
      else w
    case DropRemove(id) =>
      if id in w.agents && w.agents[id].Owner?
      then w.(dirs := w.dirs - {w.agents[id].dir}, agents := w.agents[id := Removed(w.agents[id].dir, w.agents[id].ofd)])
      else w
    case DropEnd(id) =>
      if id in w.agents && w.agents[id].Removed? && w.agents[id].ofd in w.ofds
      then w.(ofds := Close(w.ofds, w.agents[id].ofd), agents := w.agents[id := Finished])
      else w
    case CopyRaw(ofd) =>
      if ofd in w.ofds && w.ofds[ofd].lock == Shared
      then w.(ofds := w.ofds[ofd := w.ofds[ofd].(copies := w.ofds[ofd].copies + 1)])
      else w
    case CloseRaw(ofd) =>
      // A copy outside every lease: closing it runs no cleanup.
      if ofd in w.ofds && w.ofds[ofd].lock == Shared && (Owned(w, ofd) ==> w.ofds[ofd].copies > 1)
      then w.(ofds := Close(w.ofds, ofd))
      else w
  }

  /** Some agent owns a descriptor of this description. */
  predicate Owned(w: World, o: Ofd) {
    exists i :: i in w.agents && Owns(w.agents[i], o)
  }

  predicate Owns(a: Agent, o: Ofd) {
    (a.Opening? || a.Held? || a.Flight? || a.Reopened? || a.Owner? || a.Removed?) && a.ofd == o
  }

  // The invariant -----------------------------------------------------------------------

  /** What an agent's description must be. */
  predicate Backed(w: World, a: Agent) {
    match a
    case Opening(dir, o, parent) =>
      o in w.ofds && w.ofds[o] == Description(dir, Unlocked, 1)
      && parent in w.agents && w.agents[parent].Held? && w.agents[parent].dir == dir
    case Held(dir, o) => o in w.ofds && w.ofds[o].dir == dir && w.ofds[o].lock == Shared && w.ofds[o].copies > 0
    case Flight(dir, o) => o in w.ofds && w.ofds[o].dir == dir && w.ofds[o].lock == Shared && w.ofds[o].copies > 0
    case Reopened(dir, o) => o in w.ofds && w.ofds[o] == Description(dir, Unlocked, 1)
    case Owner(dir, o) => o in w.ofds && w.ofds[o] == Description(dir, Exclusive, 1)
    case Removed(dir, o) => o in w.ofds && w.ofds[o] == Description(dir, Exclusive, 1) && dir !in w.dirs
    case _ => true
  }

  predicate AllBacked(w: World) {
    forall i :: i in w.agents ==> Backed(w, w.agents[i])
  }

  /** No description has two owners. */
  ghost predicate Separate(w: World) {
    forall i, j, o :: i in w.agents && j in w.agents && Owns(w.agents[i], o) && Owns(w.agents[j], o) ==> i == j
  }

  /** An exclusive lock excludes every other lock on the directory. */
  predicate Compatible(w: World) {
    forall p, q :: p in w.ofds && q in w.ofds && p != q && w.ofds[p].dir == w.ofds[q].dir && w.ofds[p].lock == Exclusive
                   ==> w.ofds[q].lock == Unlocked
  }

  /** A held or travelling lock keeps its directory; so does a raw copy of it. */
  predicate Kept(w: World) {
    forall o :: o in w.ofds && w.ofds[o].lock == Shared ==> w.ofds[o].dir in w.dirs
  }

  ghost predicate Invariant(w: World) {
    AllBacked(w) && Separate(w) && Compatible(w) && Kept(w)
  }

  /** Two worlds agree on every description but those agent `id` owns. */
  ghost predicate SameElsewhere(w: World, v: World, id: Id)
    requires id in w.agents
  {
    forall p :: Owns(w.agents[id], p)
                || ((p in w.ofds <==> p in v.ofds) && (p in w.ofds && p in v.ofds ==> v.ofds[p] == w.ofds[p]))
  }

  /** A step of one agent on its own descriptor leaves every other agent backed and separate. */
  lemma Frame(w: World, v: World, id: Id, a: Agent)
    requires Invariant(w) && id in w.agents
    requires v.agents == w.agents[id := a] && v.dirs == w.dirs && SameElsewhere(w, v, id)
    requires w.agents[id].Held? && !(a.Held? && a.dir == w.agents[id].dir) ==> !Borrowed(w, id)
    requires forall p :: Owns(a, p) ==> Owns(w.agents[id], p)
    ensures forall j :: j in v.agents && j != id ==> Backed(v, v.agents[j])
    ensures Separate(v)
  {
    forall j | j in v.agents && j != id ensures Backed(v, v.agents[j]) {
      var b := w.agents[j];
      assert Backed(w, b);
      if b.Opening? || b.Held? || b.Flight? || b.Reopened? || b.Owner? || b.Removed? {
        assert Owns(b, b.ofd);
        assert !Owns(w.agents[id], b.ofd);
        assert v.ofds[b.ofd] == w.ofds[b.ofd];
      }
      if b.Opening? && b.parent == id {
        assert Borrowed(w, id);
      }
    }
  }

  lemma ShareKeeps(w: World, parent: Id, id: Id, ofd: Ofd)
    requires Invariant(w)
    ensures Invariant(Step(w, ShareOpen(parent, id, ofd)))
  {
    var v := Step(w, ShareOpen(parent, id, ofd));
    if v != w {
      forall j | j in v.agents ensures Backed(v, v.agents[j]) {
        if j != id {
          assert Backed(w, w.agents[j]);
        }
      }
    }
  }

  lemma ShareLockKeeps(w: World, id: Id)
    requires Invariant(w)
    ensures Invariant(Step(w, ShareLock(id)))
  {
    var v := Step(w, ShareLock(id));
    if v != w {
      assert Backed(w, w.agents[id]);
      assert Backed(w, w.agents[w.agents[id].parent]);
      Frame(w, v, id, v.agents[id]);
    }
  }

  lemma SendKeeps(w: World, id: Id)
    requires Invariant(w)
    ensures Invariant(Step(w, Send(id)))
  {
    var v := Step(w, Send(id));
    if v != w {
      assert Backed(w, w.agents[id]);
      Frame(w, v, id, v.agents[id]);
    }
  }

  lemma AdoptKeeps(w: World, id: Id, directory: Dir)
    requires Invariant(w)
    ensures Invariant(Step(w, Adopt(id, directory)))
  {
    var v := Step(w, Adopt(id, directory));
    if v != w {
      assert Backed(w, w.agents[id]);
      Frame(w, v, id, v.agents[id]);
    }
  }

  lemma AbandonKeeps(w: World, id: Id)
    requires Invariant(w)
    ensures Invariant(Step(w, Abandon(id)))
  {
    var v := Step(w, Abandon(id));
    if v != w {
      Frame(w, v, id, v.agents[id]);
    }
  }

  lemma DropCloseKeeps(w: World, id: Id)
    requires Invariant(w)
    ensures Invariant(Step(w, DropClose(id)))
  {
    var v := Step(w, DropClose(id));
    if v != w {
      Frame(w, v, id, v.agents[id]);
    }
  }

  lemma DropOpenKeeps(w: World, id: Id, ofd: Ofd)
    requires Invariant(w)
    ensures Invariant(Step(w, DropOpen(id, ofd)))
  {
    hide Invariant;
    if id in w.agents && w.agents[id].Released? && ofd !in w.ofds {
      var dir := w.agents[id].dir;
      OpenedKeeps(w, w.(ofds := w.ofds[ofd := Description(dir, Unlocked, 1)], agents := w.agents[id := Reopened(dir, ofd)]), id, ofd);
      GivenUpKeeps(w, w.(agents := w.agents[id := Finished]), id);
    }
  }

  /** A drop opens the lock file again: a new description of its own. */
  lemma OpenedKeeps(w: World, v: World, id: Id, ofd: Ofd)
    requires Invariant(w) && id in w.agents && w.agents[id].Released? && ofd !in w.ofds
    requires v == w.(ofds := w.ofds[ofd := Description(w.agents[id].dir, Unlocked, 1)], agents := w.agents[id := Reopened(w.agents[id].dir, ofd)])
    ensures Invariant(v)
  {
    forall j | j in v.agents ensures Backed(v, v.agents[j]) {
      if j != id {
        assert Backed(w, w.agents[j]);
      }
    }
    forall j, k, o | j in v.agents && k in v.agents && Owns(v.agents[j], o) && Owns(v.agents[k], o) ensures j == k {
      if j != id && k != id {
        assert Owns(w.agents[j], o) && Owns(w.agents[k], o);
      } else if j != id {
        assert Backed(w, w.agents[j]);
      } else if k != id {
        assert Backed(w, w.agents[k]);
      }
    }
  }

  /** A drop that finds no lock file is over. */
  lemma GivenUpKeeps(w: World, v: World, id: Id)
    requires Invariant(w) && id in w.agents && w.agents[id].Released? && v == w.(agents := w.agents[id := Finished])
    ensures Invariant(v)
  {
    forall j | j in v.agents ensures Backed(v, v.agents[j]) {
      if j != id {
        assert Backed(w, w.agents[j]);
      }
    }
  }

  lemma DropLockKeeps(w: World, id: Id)
    requires Invariant(w)
    ensures Invariant(Step(w, DropLock(id)))
  {
    hide Invariant, NoShared;
    if id in w.agents && w.agents[id].Reopened? && w.agents[id].ofd in w.ofds {
      var Reopened(dir, o) := w.agents[id];
      var v := Step(w, DropLock(id));
      if NoOtherLock(w, o, dir) {
        LockedKeeps(w, v, id);
      } else {
        RefusedKeeps(w, v, id);
      }
    }
  }

  /** The only lock on the directory becomes exclusive. */
  lemma LockedKeeps(w: World, v: World, id: Id)
    requires Invariant(w) && id in w.agents && w.agents[id].Reopened? && w.agents[id].ofd in w.ofds
    requires NoOtherLock(w, w.agents[id].ofd, w.agents[id].dir)
    requires var o := w.agents[id].ofd;
             v == w.(ofds := w.ofds[o := w.ofds[o].(lock := Exclusive)], agents := w.agents[id := Owner(w.agents[id].dir, o)], tested := v.tested)
    ensures Invariant(v)
  {
    assert Backed(w, w.agents[id]);
    Frame(w, v, id, v.agents[id]);
    hide Separate;
  }

  /** A refused attempt closes the description again. */
  lemma RefusedKeeps(w: World, v: World, id: Id)
    requires Invariant(w) && id in w.agents && w.agents[id].Reopened? && w.agents[id].ofd in w.ofds
    requires v == w.(ofds := Close(w.ofds, w.agents[id].ofd), agents := w.agents[id := Finished], tested := v.tested)
    ensures Invariant(v)
  {
    assert Backed(w, w.agents[id]);
    Frame(w, v, id, v.agents[id]);
    hide Separate;
  }

  lemma DropRemoveKeeps(w: World, id: Id)
    requires Invariant(w)
    ensures Invariant(Step(w, DropRemove(id)))
  {
    var v := Step(w, DropRemove(id));
    if v != w {
      assert Backed(w, w.agents[id]);
      forall j | j in v.agents ensures Backed(v, v.agents[j]) {
        assert Backed(w, w.agents[j]);
      }
      assert Owns(w.agents[id], w.agents[id].ofd);
    }
  }

  lemma DropEndKeeps(w: World, id: Id)
    requires Invariant(w)
    ensures Invariant(Step(w, DropEnd(id)))
  {
    var v := Step(w, DropEnd(id));
    if v != w {
      assert Backed(w, w.agents[id]);
      Frame(w, v, id, v.agents[id]);
    }
  }

  lemma CopyKeeps(w: World, ofd: Ofd)
    requires Invariant(w)
    ensures Invariant(Step(w, CopyRaw(ofd)))
  {
    var v := Step(w, CopyRaw(ofd));
    if v != w {
      forall j | j in v.agents ensures Backed(v, v.agents[j]) {
        assert Backed(w, w.agents[j]);
      }
    }
  }

  lemma CloseRawKeeps(w: World, ofd: Ofd)
    requires Invariant(w)
    ensures Invariant(Step(w, CloseRaw(ofd)))
  {
    var v := Step(w, CloseRaw(ofd));
    if v != w {
      forall j | j in v.agents ensures Backed(v, v.agents[j]) {
        assert Backed(w, w.agents[j]);
        if Owns(w.agents[j], ofd) {
          assert Owned(w, ofd);
        }
      }
    }
  }

  lemma StepKeeps(w: World, a: Action)
    requires Invariant(w)
    ensures Invariant(Step(w, a))
  {
    hide Invariant, Step;
    match a
    case ShareOpen(parent, id, ofd) => ShareKeeps(w, parent, id, ofd);
    case ShareLock(id) => ShareLockKeeps(w, id);
    case Send(id) => SendKeeps(w, id);
    case Adopt(id, directory) => AdoptKeeps(w, id, directory);
    case Abandon(id) => AbandonKeeps(w, id);
    case DropClose(id) => DropCloseKeeps(w, id);
    case DropOpen(id, ofd) => DropOpenKeeps(w, id, ofd);
    case DropLock(id) => DropLockKeeps(w, id);
    case DropRemove(id) => DropRemoveKeeps(w, id);
    case DropEnd(id) => DropEndKeeps(w, id);
    case CopyRaw(ofd) => CopyKeeps(w, ofd);
    case CloseRaw(ofd) => CloseRawKeeps(w, ofd);
  }

  // Whole runs -----------------------------------------------------------------------------

  function Run(w: World, actions: seq<Action>): World
    decreases |actions|
  {
    if actions == [] then w else Run(Step(w, actions[0]), actions[1..])
  }

  /** One lease on one directory, as `ResourceLease::new` leaves it. */
  function Start(dir: Dir): World {
    World({dir}, map[0 := Description(dir, Shared, 1)], map[0 := Held(dir, 0)], {})
  }

  /** A directory in `tested` is gone, or its remover is on the way; every remover and
      every missing directory is in `tested`; exclusive locks belong to removers. */
  ghost predicate Accounted(w: World, all: set<Dir>) {
    && (forall d :: d in w.tested && d in w.dirs ==> exists i :: i in w.agents && w.agents[i].Owner? && w.agents[i].dir == d)
    && (forall i :: i in w.agents && w.agents[i].Owner? ==> w.agents[i].dir in w.tested)
    && (forall d :: d in all && d !in w.dirs ==> d in w.tested)
    && (forall o :: o in w.ofds && w.ofds[o].lock == Exclusive ==>
                      exists i :: i in w.agents && (w.agents[i].Owner? || w.agents[i].Removed?) && w.agents[i].ofd == o)
  }

  lemma AccountedStep(w: World, a: Action, all: set<Dir>)
    requires Invariant(w) && Accounted(w, all)
    ensures Accounted(Step(w, a), all)
  {
    hide Invariant, Accounted;
    match a
    case DropLock(id) => AccountedLock(w, id, all);
    case DropEnd(id) => AccountedEnd(w, id, all);
    case DropRemove(id) => AccountedRemove(w, id, all);
    case CopyRaw(ofd) => AccountedRaw(w, ofd, all);
    case CloseRaw(ofd) => AccountedRaw(w, ofd, all);
    case ShareOpen(parent, id, ofd) => AccountedPlain(w, Step(w, a), id, all);
    case ShareLock(id) => AccountedPlain(w, Step(w, a), id, all);
    case Send(id) => AccountedPlain(w, Step(w, a), id, all);
    case Adopt(id, directory) => AccountedPlain(w, Step(w, a), id, all);
    case Abandon(id) => AccountedPlain(w, Step(w, a), id, all);
    case DropClose(id) => AccountedPlain(w, Step(w, a), id, all);
    case DropOpen(id, ofd) => AccountedPlain(w, Step(w, a), id, all);
  }

  /** A step of an agent that is no remover, before or after. */
  lemma AccountedPlain(w: World, v: World, id: Id, all: set<Dir>)
    requires Accounted(w, all) && v.dirs == w.dirs && v.tested == w.tested
    requires v == w || (
               && id in v.agents && !v.agents[id].Owner? && !v.agents[id].Removed?
               && (id in w.agents ==> !w.agents[id].Owner? && !w.agents[id].Removed?))
    requires forall i :: i in w.agents && i != id ==> i in v.agents && v.agents[i] == w.agents[i]
    requires forall i :: i in v.agents && i != id ==> i in w.agents
    requires forall o :: o in v.ofds && v.ofds[o].lock == Exclusive ==> o in w.ofds && w.ofds[o].lock == Exclusive
    ensures Accounted(v, all)
  {
    if v != w {
      forall d | d in v.tested && d in v.dirs ensures exists i :: i in v.agents && v.agents[i].Owner? && v.agents[i].dir == d {
        var i :| i in w.agents && w.agents[i].Owner? && w.agents[i].dir == d;
        assert v.agents[i] == w.agents[i];
      }
      forall o | o in v.ofds && v.ofds[o].lock == Exclusive
        ensures exists i :: i in v.agents && (v.agents[i].Owner? || v.agents[i].Removed?) && v.agents[i].ofd == o
      {
        var i :| i in w.agents && (w.agents[i].Owner? || w.agents[i].Removed?) && w.agents[i].ofd == o;
        assert v.agents[i] == w.agents[i];
      }
    }
  }

  lemma AccountedRaw(w: World, ofd: Ofd, all: set<Dir>)
    requires Accounted(w, all)
    ensures Accounted(Step(w, CopyRaw(ofd)), all)
    ensures Accounted(Step(w, CloseRaw(ofd)), all)
  {
  }

  lemma AccountedRemove(w: World, id: Id, all: set<Dir>)
    requires Accounted(w, all)
    ensures Accounted(Step(w, DropRemove(id)), all)
  {
    var v := Step(w, DropRemove(id));
    if v != w {
      forall d | d in v.tested && d in v.dirs ensures exists i :: i in v.agents && v.agents[i].Owner? && v.agents[i].dir == d {
        var i :| i in w.agents && w.agents[i].Owner? && w.agents[i].dir == d;
        assert v.agents[i] == w.agents[i];
      }
      forall o | o in v.ofds && v.ofds[o].lock == Exclusive
        ensures exists i :: i in v.agents && (v.agents[i].Owner? || v.agents[i].Removed?) && v.agents[i].ofd == o
      {
        var i :| i in w.agents && (w.agents[i].Owner? || w.agents[i].Removed?) && w.agents[i].ofd == o;
        assert v.agents[i].ofd == o;
      }
    }
  }

  /** A directory that is exclusively locked has been tested, or is gone. */
  lemma ExclusiveIsTested(w: World, p: Ofd, all: set<Dir>)
    requires Invariant(w) && Accounted(w, all) && p in w.ofds && w.ofds[p].lock == Exclusive
    ensures w.ofds[p].dir in w.tested || w.ofds[p].dir !in w.dirs
  {
    var i :| i in w.agents && (w.agents[i].Owner? || w.agents[i].Removed?) && w.agents[i].ofd == p;
    assert Backed(w, w.agents[i]);
  }

  lemma AccountedLock(w: World, id: Id, all: set<Dir>)
    requires Invariant(w) && Accounted(w, all)
    ensures Accounted(Step(w, DropLock(id)), all)
  {
    hide Compatible, Kept, Separate, Borrowed;
    var v := Step(w, DropLock(id));
    if v != w {
      var Reopened(dir, o) := w.agents[id];
      assert Backed(w, w.agents[id]);
      if NoShared(w, dir) && !NoOtherLock(w, o, dir) {
        // No shared lock, yet refused: another remover holds the exclusive lock.
        var p :| p in w.ofds && p != o && w.ofds[p].dir == dir && w.ofds[p].lock != Unlocked;
        ExclusiveIsTested(w, p, all);
      }
      forall d | d in v.tested && d in v.dirs
        ensures exists i :: i in v.agents && v.agents[i].Owner? && v.agents[i].dir == d
      {
        if d in w.tested {
          var i :| i in w.agents && w.agents[i].Owner? && w.agents[i].dir == d;
          assert v.agents[i] == w.agents[i];
        } else {
          assert v.agents[id] == Owner(dir, o);
        }
      }
      forall p | p in v.ofds && v.ofds[p].lock == Exclusive
        ensures exists i :: i in v.agents && (v.agents[i].Owner? || v.agents[i].Removed?) && v.agents[i].ofd == p
      {
        if p == o {
          assert v.agents[id] == Owner(dir, o);
        } else {
          var i :| i in w.agents && (w.agents[i].Owner? || w.agents[i].Removed?) && w.agents[i].ofd == p;
          assert v.agents[i] == w.agents[i];
        }
      }
    }
  }

  lemma AccountedEnd(w: World, id: Id, all: set<Dir>)
    requires Invariant(w) && Accounted(w, all)
    ensures Accounted(Step(w, DropEnd(id)), all)
  {
    hide Compatible, Kept, Borrowed, NoOtherLock;
    var v := Step(w, DropEnd(id));
    if v != w {
      assert Backed(w, w.agents[id]);
      forall d | d in v.tested && d in v.dirs ensures exists i :: i in v.agents && v.agents[i].Owner? && v.agents[i].dir == d {
        var i :| i in w.agents && w.agents[i].Owner? && w.agents[i].dir == d;
        assert v.agents[i] == w.agents[i];
      }
      forall p | p in v.ofds && v.ofds[p].lock == Exclusive
        ensures exists i :: i in v.agents && (v.agents[i].Owner? || v.agents[i].Removed?) && v.agents[i].ofd == p
      {
        var i :| i in w.agents && (w.agents[i].Owner? || w.agents[i].Removed?) && w.agents[i].ofd == p;
        assert i != id;
        assert v.agents[i] == w.agents[i];
      }
    }
  }

  lemma {:induction false} RunKeeps(w: World, actions: seq<Action>, all: set<Dir>)
    requires Invariant(w) && Accounted(w, all)
    ensures Invariant(Run(w, actions)) && Accounted(Run(w, actions), all)
    decreases |actions|
  {
    hide Invariant, Accounted, Step;
    if actions != [] {
      StepKeeps(w, actions[0]);
      AccountedStep(w, actions[0], all);
      RunKeeps(Step(w, actions[0]), actions[1..], all);
    }
  }

  lemma StartHolds(dir: Dir)
    ensures Invariant(Start(dir)) && Accounted(Start(dir), {dir})
  {
  }

  /** Safety, for every interleaving: a directory exists while any lease on it is held or in
      flight, and while a raw copy of its lock is open. */
  lemma HeldDirectoriesExist(dir: Dir, actions: seq<Action>)
    ensures var w := Run(Start(dir), actions);
            && (forall i :: i in w.agents && (w.agents[i].Held? || w.agents[i].Flight?) ==> w.agents[i].dir in w.dirs)
            && (forall o :: o in w.ofds && w.ofds[o].lock == Shared ==> w.ofds[o].dir in w.dirs)
  {
    StartHolds(dir);
    RunKeeps(Start(dir), actions, {dir});
    var w := Run(Start(dir), actions);
    forall i | i in w.agents && (w.agents[i].Held? || w.agents[i].Flight?) ensures w.agents[i].dir in w.dirs {
      assert Backed(w, w.agents[i]);
    }
  }

  /** Every lease on the directory has finished its drop. */
  predicate Quiet(w: World, dir: Dir) {
    forall i :: i in w.agents ==> w.agents[i].Finished? || w.agents[i].dir != dir
  }

  /** Once every drop has finished, the directory is gone if and only if some drop tried the
      exclusive lock when no shared lock was left. */
  lemma GoneIffTested(w: World, dir: Dir, all: set<Dir>)
    requires Accounted(w, all) && dir in all && Quiet(w, dir)
    ensures dir !in w.dirs <==> dir in w.tested
  {
  }

  /** No lock is shared on the directory any more, and nobody is left who could share one. */
  predicate Unheld(w: World, dir: Dir) {
    && NoShared(w, dir)
    && (forall i :: i in w.agents ==>
                      !((w.agents[i].Held? || w.agents[i].Flight? || w.agents[i].Opening?) && w.agents[i].dir == dir))
  }

  /** A drop on the directory that has not given up or removed it yet. */
  predicate Dropping(w: World, dir: Dir) {
    exists i :: i in w.agents && (w.agents[i].Released? || w.agents[i].Reopened? || w.agents[i].Owner?) && w.agents[i].dir == dir
  }

  /** The last drop has begun: nothing shared is left on the directory and nothing can
      become shared again, and a drop will still try the lock, or one has. */
  ghost predicate Doomed(w: World, dir: Dir) {
    && Unheld(w, dir)
    && (dir !in w.dirs || dir in w.tested
        || exists i :: i in w.agents && (w.agents[i].Released? || w.agents[i].Reopened?) && w.agents[i].dir == dir)
  }

  lemma DoomedStep(w: World, a: Action, dir: Dir)
    requires Invariant(w) && Doomed(w, dir)
    ensures Doomed(Step(w, a), dir)
  {
    UnheldStep(w, a, dir);
    hide Step, Invariant;
    var v := Step(w, a);
    if dir in v.dirs && dir !in v.tested {
      var i :| i in w.agents && (w.agents[i].Released? || w.agents[i].Reopened?) && w.agents[i].dir == dir;
      PendingStays(w, a, dir, i);
      assert i in v.agents && (v.agents[i].Released? || v.agents[i].Reopened?) && v.agents[i].dir == dir;
    }
  }

  /** A drop that has not tried the lock yet still has to, unless its own try was the test. */
  lemma PendingStays(w: World, a: Action, dir: Dir, i: Id)
    requires NoShared(w, dir) && dir in w.dirs
    requires i in w.agents && (w.agents[i].Released? || w.agents[i].Reopened?) && w.agents[i].dir == dir
    ensures var v := Step(w, a);
            dir in v.tested || (i in v.agents && (v.agents[i].Released? || v.agents[i].Reopened?) && v.agents[i].dir == dir)
  {
    hide Borrowed, NoOtherLock, NoExclusive, Owned;
  }

  /** No step shares a lock, or makes a holder, on a directory without a holder. */
  lemma UnheldStep(w: World, a: Action, dir: Dir)
    requires Invariant(w) && Unheld(w, dir)
    ensures var v := Step(w, a);
            Unheld(v, dir) && v.dirs <= w.dirs && w.tested <= v.tested
  {
    hide Separate, Compatible, Kept;
    match a
    case ShareLock(id) => if id in w.agents { assert Backed(w, w.agents[id]); }
    case Adopt(id, directory) => if id in w.agents { assert Backed(w, w.agents[id]); }
    case DropLock(id) => if id in w.agents { assert Backed(w, w.agents[id]); }
    case _ =>
  }

  lemma {:induction false} DoomedRun(w: World, actions: seq<Action>, dir: Dir)
    requires Invariant(w) && Doomed(w, dir)
    ensures Doomed(Run(w, actions), dir)
    decreases |actions|
  {
    hide Invariant, Doomed, Step;
    if actions != [] {
      StepKeeps(w, actions[0]);
      DoomedStep(w, actions[0], dir);
      DoomedRun(Step(w, actions[0]), actions[1..], dir);
    }
  }

  /** Nobody holds the directory, nobody is dropping it, and it is there: nobody will remove it. */
  predicate Stranded(w: World, dir: Dir) {
    Unheld(w, dir) && !Dropping(w, dir) && dir in w.dirs
  }

  lemma StrandedStep(w: World, a: Action, dir: Dir)
    requires Invariant(w) && Stranded(w, dir)
    ensures Stranded(Step(w, a), dir)
  {
    UnheldStep(w, a, dir);
    StrandedIsIdle(w, a, dir);
  }

  /** No step begins a drop on a directory without a holder, or removes it without one. */
  lemma StrandedIsIdle(w: World, a: Action, dir: Dir)
    requires Unheld(w, dir) && !Dropping(w, dir) && dir in w.dirs
    ensures !Dropping(Step(w, a), dir) && dir in Step(w, a).dirs
  {
    hide NoShared, NoOtherLock, NoExclusive, Owned, Borrowed, Close;
  }

  lemma {:induction false} StrandedRun(w: World, actions: seq<Action>, dir: Dir)
    requires Invariant(w) && Stranded(w, dir)
    ensures Stranded(Run(w, actions), dir)
    decreases |actions|
  {
    hide Invariant, Stranded, Step;
    if actions != [] {
      StepKeeps(w, actions[0]);
      StrandedStep(w, actions[0], dir);
      StrandedRun(Step(w, actions[0]), actions[1..], dir);
    }
  }

  /** Cleanup, exactly. At any moment when no lock is shared on the directory and nobody is left
      who could share one: the directory will be gone once every drop has finished, however the
      steps interleave, if and only if it is gone already or a drop on it is then under way. */
  lemma GoneIffDropping(dir: Dir, before: seq<Action>, after: seq<Action>)
    ensures var w := Run(Start(dir), before);
            var v := Run(w, after);
            Unheld(w, dir) && Quiet(v, dir) ==> (dir !in v.dirs <==> dir !in w.dirs || Dropping(w, dir))
  {
    hide Invariant, Accounted, Step, Unheld, NoShared;
    StartHolds(dir);
    RunKeeps(Start(dir), before, {dir});
    var w := Run(Start(dir), before);
    RunKeeps(w, after, {dir});
    var v := Run(w, after);
    if Unheld(w, dir) && Quiet(v, dir) {
      if dir !in w.dirs || Dropping(w, dir) {
        DroppingIsDoomed(w, dir, {dir});
        DoomedRun(w, after, dir);
        GoneIffTested(v, dir, {dir});
      } else {
        StrandedRun(w, after, dir);
      }
    }
  }

  lemma DroppingIsDoomed(w: World, dir: Dir, all: set<Dir>)
    requires Accounted(w, all) && Unheld(w, dir) && (dir !in w.dirs || Dropping(w, dir))
    ensures Doomed(w, dir)
  {
  }

  /** The only lock left on the directory is this lease's own, with no copy of it. */
  predicate LastHolder(w: World, id: Id) {
    && id in w.agents && w.agents[id].Held? && w.agents[id].ofd in w.ofds && !Borrowed(w, id)
    && w.ofds[w.agents[id].ofd].copies == 1
    && forall p :: p in w.ofds && w.ofds[p].dir == w.agents[id].dir && w.ofds[p].lock == Shared ==> p == w.agents[id].ofd
  }

  /** The promise: if a lease is dropped when it is the last holder and no raw copy of its
      lock is left, the directory is gone once every drop has finished, however the steps
      of all drops interleave. */
  lemma LastDropRemoves(dir: Dir, before: seq<Action>, id: Id, after: seq<Action>)
    requires var w := Run(Start(dir), before);
             LastHolder(w, id) && w.agents[id].dir == dir
    ensures var v := Run(Step(Run(Start(dir), before), DropClose(id)), after);
            Quiet(v, dir) ==> dir !in v.dirs
  {
    StartHolds(dir);
    RunKeeps(Start(dir), before, {dir});
    var w := Run(Start(dir), before);
    var u := Step(w, DropClose(id));
    DropIsDoom(w, id);
    StepKeeps(w, DropClose(id));
    AccountedStep(w, DropClose(id), {dir});
    DoomedRun(u, after, dir);
    RunKeeps(u, after, {dir});
    if Quiet(Run(u, after), dir) {
      GoneIffTested(Run(u, after), dir, {dir});
    }
  }

  lemma DropIsDoom(w: World, id: Id)
    requires Invariant(w) && LastHolder(w, id)
    ensures Doomed(Step(w, DropClose(id)), w.agents[id].dir)
  {
    var o := w.agents[id].ofd;
    var dir := w.agents[id].dir;
    var v := Step(w, DropClose(id));
    assert Backed(w, w.agents[id]);
    assert v.agents[id] == Released(dir);
    forall i | i in v.agents
      ensures !((v.agents[i].Held? || v.agents[i].Flight? || v.agents[i].Opening?) && v.agents[i].dir == dir)
    {
      if i != id {
        var a := w.agents[i];
        assert Backed(w, a);
        if a.Held? || a.Flight? {
          assert Owns(a, a.ofd) && Owns(w.agents[id], o);
        } else if a.Opening? && a.dir == dir {
          assert Backed(w, w.agents[a.parent]);
          assert Owns(w.agents[a.parent], w.agents[a.parent].ofd) && Owns(w.agents[id], o);
        }
      }
    }
  }

  /** A lease that is last and dies in a message leaves the directory behind: its descriptor is
      closed without a drop. */
  lemma AbandonLeavesDirectory()
    ensures var w := Run(Start(7), [Send(0), Abandon(0)]);
            Quiet(w, 7) && w.ofds == map[] && 7 in w.dirs
  {
    var w := Start(7);
    var actions := [Send(0), Abandon(0)];
    var u := Step(w, Send(0));
    assert u.agents[0] == Flight(7, 0) && u.ofds == w.ofds;
    assert Close(u.ofds, 0) == map[];
    assert actions[1..] == [Abandon(0)] && [Abandon(0)][1..] == [];
    assert Run(u, [Abandon(0)]) == Run(Step(u, Abandon(0)), []);
    assert Run(w, actions) == Step(u, Abandon(0));
  }

  /** So does one that is last and is adopted for another directory. */
  lemma RefusedAdoptionLeavesDirectory()
    ensures var w := Run(Start(7), [Send(0), Adopt(0, 8)]);
            Quiet(w, 7) && w.ofds == map[] && 7 in w.dirs
  {
    var w := Start(7);
    var actions := [Send(0), Adopt(0, 8)];
    var u := Step(w, Send(0));
    assert u.agents[0] == Flight(7, 0) && u.ofds == w.ofds;
    assert Close(u.ofds, 0) == map[];
    assert actions[1..] == [Adopt(0, 8)] && [Adopt(0, 8)][1..] == [];
    assert Run(u, [Adopt(0, 8)]) == Run(Step(u, Adopt(0, 8)), []);
    assert Run(w, actions) == Step(u, Adopt(0, 8));
  }

  /** A raw copy that is closed last leaves the directory behind: no drop tries the lock after it. */
  lemma RawCopyLeavesDirectory()
    ensures var w := Run(Start(7), [CopyRaw(0), DropClose(0), DropOpen(0, 1), DropLock(0), CloseRaw(0)]);
            Quiet(w, 7) && w.ofds == map[] && 7 in w.dirs
  {
    var w := Start(7);
    RunFive(w, CopyRaw(0), DropClose(0), DropOpen(0, 1), DropLock(0), CloseRaw(0));
    var w2 := World({7}, map[0 := Description(7, Shared, 1)], map[0 := Released(7)], {});
    var w4 := World({7}, map[0 := Description(7, Shared, 1)], map[0 := Finished], {});
    CopiedThenDropped(w, w2);
    RefusedAttempt(w2, w4);
    ClosedLast(w4);
    hide Run, Step;
  }

  lemma ClosedLast(w: World)
    requires w == World({7}, map[0 := Description(7, Shared, 1)], map[0 := Finished], {})
    ensures Step(w, CloseRaw(0)) == World({7}, map[], map[0 := Finished], {})
  {
    assert Close(w.ofds, 0) == map[];
  }

  lemma CopiedThenDropped(w: World, v: World)
    requires w == Start(7)
    requires v == World({7}, map[0 := Description(7, Shared, 1)], map[0 := Released(7)], {})
    ensures Step(Step(w, CopyRaw(0)), DropClose(0)) == v
  {
    var u := Step(w, CopyRaw(0));
    assert u == World({7}, map[0 := Description(7, Shared, 2)], map[0 := Held(7, 0)], {});
    assert Close(u.ofds, 0) == v.ofds;
    assert u.agents[0 := Released(7)] == v.agents;
  }

  /** A drop that finds another shared lock gives up. */
  lemma RefusedAttempt(w: World, v: World)
    requires w == World({7}, map[0 := Description(7, Shared, 1)], map[0 := Released(7)], {})
    requires v == World({7}, map[0 := Description(7, Shared, 1)], map[0 := Finished], {})
    ensures Step(Step(w, DropOpen(0, 1)), DropLock(0)) == v
  {
    var u := Step(w, DropOpen(0, 1));
    assert u.agents[0] == Reopened(7, 1);
    assert u.ofds[0] == Description(7, Shared, 1) && u.ofds[1] == Description(7, Unlocked, 1);
    assert !NoOtherLock(u, 1, 7) && !NoShared(u, 7);
    assert Close(u.ofds, 1) == w.ofds;
    assert u.agents[0 := Finished] == v.agents;
  }

  lemma RunFive(w: World, a: Action, b: Action, c: Action, d: Action, e: Action)
    ensures Run(w, [a, b, c, d, e]) == Step(Step(Step(Step(Step(w, a), b), c), d), e)
  {
    hide Step;
    var actions := [a, b, c, d, e];
    assert actions[1..] == [b, c, d, e] && actions[1..][1..] == [c, d, e];
    assert [c, d, e][1..] == [d, e] && [d, e][1..] == [e] && [e][1..] == [];
    assert Run(Step(w, a), [b, c, d, e]) == Run(Step(Step(w, a), b), [c, d, e]);
    assert [b, c, d, e][1..] == [c, d, e];
    var x := Step(Step(w, a), b);
    assert Run(x, [c, d, e]) == Run(Step(x, c), [d, e]);
    var y := Step(x, c);
    assert Run(y, [d, e]) == Run(Step(y, d), [e]);
    var z := Step(y, d);
    assert Run(z, [e]) == Run(Step(z, e), []);
  }
}
