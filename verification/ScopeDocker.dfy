/** The scope's Docker engine: reference counting, retained leases and granted mounts. */
module ScopeDocker {
  import opened Bytes

  /** A path as its components, so `starts_with` is "is a prefix of". */
  type Path = seq<string>

  /** A mount the engine has: source inode, destination, access mode. */
  datatype Grant = Grant(source: (nat, nat), dest: Path, readonly: bool)

  type LeaseId = nat

  datatype Part = Arguments | Mount | Store | GrantPart(grant: Grant) | LeasePart(lease: LeaseId)

  /** A configuration, and whether its paths are absolute. */
  datatype Config = Config(absolute: bool)

  datatype Transaction = Transaction(extending: bool, config: Option<Config>, parts: seq<Part>)

  datatype State = State(engine: bool, config: Option<Config>, grants: seq<Grant>, leases: seq<LeaseId>, users: nat)

  function Initial(): State {
    State(false, None, [], [], 0)
  }

  /** What system calls and helpers answer: preparing and starting an engine, retaining
      leases in a live one, and which bind (by position) fails, if any. */
  datatype Foreign = Foreign(prepared: bool, started: bool, retained: bool, failing: Option<nat>)

  function Grants(parts: seq<Part>): seq<Grant> {
    if parts == [] then []
    else (if parts[0].GrantPart? then [parts[0].grant] else []) + Grants(parts[1..])
  }

  function Leases(parts: seq<Part>): seq<LeaseId> {
    if parts == [] then []
    else (if parts[0].LeasePart? then [parts[0].lease] else []) + Leases(parts[1..])
  }

  predicate OnlyTransfers(parts: seq<Part>) {
    forall i :: 0 <= i < |parts| ==> parts[i].GrantPart? || parts[i].LeasePart?
  }

  /** `check`: the same destination needs the same source and mode; others must not overlap. */
  predicate Check(grants: seq<Grant>, g: Grant) {
    forall i :: 0 <= i < |grants| ==> Agree(grants[i], g)
  }

  predicate Agree(have: Grant, g: Grant) {
    if have.dest == g.dest then have == g else !(have.dest <= g.dest) && !(g.dest <= have.dest)
  }

  /** The check of a whole transaction, including conflicts within it. */
  predicate CheckAll(checked: seq<Grant>, grants: seq<Grant>)
    decreases |grants|
  {
    grants == [] || (Check(checked, grants[0]) && CheckAll(checked + [grants[0]], grants[1..]))
  }

  predicate HasDest(grants: seq<Grant>, dest: Path) {
    exists i :: 0 <= i < |grants| && grants[i].dest == dest
  }

  function Add(grants: seq<Grant>, g: Grant): seq<Grant> {
    if HasDest(grants, g.dest) then grants else grants + [g]
  }

  /** Bind in order, skipping destinations already there, until the failing position. */
  function BindAll(grants: seq<Grant>, wanted: seq<Grant>, failing: Option<nat>): (seq<Grant>, bool)
    decreases |wanted|
  {
    if wanted == [] then (grants, true)
    else if failing == Some(0) && !HasDest(grants, wanted[0].dest) then (grants, false)
    else
      var later := if failing.Some? && failing.value > 0 then Some(failing.value - 1) else None;
      BindAll(Add(grants, wanted[0]), wanted[1..], later)
  }

  /** `apply`. */
  function Apply(d: State, t: Transaction, f: Foreign): (State, bool) {
    var grants := Grants(t.parts);
    var leases := Leases(t.parts);
    if t.extending && !OnlyTransfers(t.parts) then (d, false)
    else if leases == [] || !CheckAll(d.grants, grants) then (d, false)
    else if !d.engine then
      if t.extending || t.config.None? || !t.config.value.absolute || !f.prepared || !f.started then (d, false)
      else
        (State(true, t.config, BindAll(d.grants, grants, None).0, d.leases + leases, d.users + 1), true)
    else if !f.retained then (d, false)
    else
      var (bound, ok) := BindAll(d.grants, grants, f.failing);
      var e := d.(leases := d.leases + leases, grants := bound);
      if !ok then (e, false)
      else (e.(grants := BindAll(bound, grants, None).0, users := if t.extending then d.users else d.users + 1), true)
  }

  function Detach(d: State): State
    requires d.users > 0
  {
    if d.users == 1 then Initial() else d.(users := d.users - 1)
  }

  // Invariants ------------------------------------------------------------------------

  /** Granted destinations are pairwise distinct and not nested. */
  predicate Disjoint(grants: seq<Grant>) {
    forall i, j :: 0 <= i < j < |grants| ==> !(grants[i].dest <= grants[j].dest) && !(grants[j].dest <= grants[i].dest)
  }

  /** The engine runs exactly while it has users, and keeps nothing after. */
  predicate Valid(d: State) {
    && (d.engine <==> d.users > 0)
    && (!d.engine ==> d == Initial())
    && Disjoint(d.grants)
  }

  predicate AllAgree(grants: seq<Grant>) {
    forall i, j :: 0 <= i < |grants| && 0 <= j < |grants| ==> Agree(grants[i], grants[j])
  }

  /** A checked transaction agrees with everything granted and with itself. */
  lemma {:induction false} CheckAllAgrees(checked: seq<Grant>, grants: seq<Grant>)
    requires AllAgree(checked) && CheckAll(checked, grants)
    ensures AllAgree(checked + grants)
    decreases |grants|
  {
    if grants == [] {
      assert checked + grants == checked;
    } else {
      CheckAllAgrees(checked + [grants[0]], grants[1..]);
      assert checked + grants == (checked + [grants[0]]) + grants[1..];
    }
  }

  predicate Within(small: seq<Grant>, all: seq<Grant>) {
    forall i :: 0 <= i < |small| ==> small[i] in all
  }

  /** Binding, complete or cut short anywhere, keeps what was there, adds only what was
      wanted, and keeps destinations disjoint. */
  lemma {:induction false} BindKeeps(grants: seq<Grant>, wanted: seq<Grant>, failing: Option<nat>, all: seq<Grant>)
    requires Disjoint(grants) && AllAgree(all) && Within(grants, all) && Within(wanted, all)
    ensures var (bound, ok) := BindAll(grants, wanted, failing);
            && Disjoint(bound) && grants <= bound && Within(bound, all)
            && (ok ==> forall i :: 0 <= i < |wanted| ==> wanted[i] in bound)
            && (failing.None? ==> ok)
    decreases |wanted|
  {
    if wanted != [] && !(failing == Some(0) && !HasDest(grants, wanted[0].dest)) {
      var g := wanted[0];
      assert g in all;
      var next := Add(grants, g);
      AddKeeps(grants, g, all);
      BindKeeps(next, wanted[1..], if failing.Some? && failing.value > 0 then Some(failing.value - 1) else None, all);
      assert wanted == [g] + wanted[1..];
    }
  }

  lemma AddKeeps(grants: seq<Grant>, g: Grant, all: seq<Grant>)
    requires Disjoint(grants) && AllAgree(all) && Within(grants, all) && g in all
    ensures var next := Add(grants, g);
            Disjoint(next) && grants <= next && Within(next, all) && g in next
  {
    if HasDest(grants, g.dest) {
      var i :| 0 <= i < |grants| && grants[i].dest == g.dest;
      assert Agree(grants[i], g);
    } else {
      forall i | 0 <= i < |grants| ensures !(grants[i].dest <= g.dest) && !(g.dest <= grants[i].dest) {
        assert grants[i].dest != g.dest;
        assert Agree(grants[i], g);
      }
    }
  }

  lemma DisjointAgrees(grants: seq<Grant>)
    requires Disjoint(grants)
    ensures AllAgree(grants)
  {
    forall i, j | 0 <= i < |grants| && 0 <= j < |grants| ensures Agree(grants[i], grants[j]) {
      if grants[i].dest == grants[j].dest {
        assert grants[i].dest <= grants[j].dest;
      }
    }
  }

  /** `apply`, succeeding or failing at any point: the invariant is kept, earlier grants and
      leases stay, a failure changes neither engine nor user count, and a success has every
      wanted grant in place with the wanted source and mode. */
  lemma ApplyKeeps(d: State, t: Transaction, f: Foreign)
    requires Valid(d)
    ensures var (e, ok) := Apply(d, t, f);
            && Valid(e)
            && d.grants <= e.grants && d.leases <= e.leases
            && (ok ==> e.engine && e.users == (if t.extending then d.users else d.users + 1)
                       && (forall i :: 0 <= i < |Grants(t.parts)| ==> Grants(t.parts)[i] in e.grants)
                       && e.leases == d.leases + Leases(t.parts))
            && (!ok ==> e.engine == d.engine && e.users == d.users)
            && (!CheckAll(d.grants, Grants(t.parts)) ==> !ok && e == d)
  {
    hide BindAll;
    var wanted := Grants(t.parts);
    if CheckAll(d.grants, wanted) {
      DisjointAgrees(d.grants);
      CheckAllAgrees(d.grants, wanted);
      var all := d.grants + wanted;
      BindKeeps(d.grants, wanted, f.failing, all);
      BindKeeps(d.grants, wanted, None, all);
      BindKeeps(BindAll(d.grants, wanted, f.failing).0, wanted, None, all);
    }
  }

  lemma DetachKeeps(d: State)
    requires Valid(d) && d.users > 0
    ensures Valid(Detach(d)) && Detach(d).users == d.users - 1
  {
  }

  /** The object the scope process keeps. */
  class Docker {
    var engine: bool
    var config: Option<Config>
    var grants: seq<Grant>
    var leases: seq<LeaseId>
    var users: nat

    ghost function View(): State
      reads this
    {
      State(engine, config, grants, leases, users)
    }

    constructor ()
      ensures View() == Initial()
    {
      engine, config, grants, leases, users := false, None, [], [], 0;
    }

    /** Apply one transaction. */
    method ApplyTransaction(t: Transaction, f: Foreign) returns (ok: bool)
      requires Valid(View())
      modifies this
      ensures (View(), ok) == Apply(old(View()), t, f)
      ensures Valid(View())
    {
      hide BindAll, Grants, Leases, CheckAll, Disjoint;
      ApplyKeeps(View(), t, f);
      var wanted, kept, allowed := Sort(t);
      if !allowed || kept == [] {
        return false;
      }
      var fits := CheckTransaction(wanted);
      if !fits {
        return false;
      }
      if !engine {
        if t.extending || t.config.None? || !t.config.value.absolute || !f.prepared || !f.started {
          return false;
        }
        engine := true;
        config := t.config;
      } else {
        if !f.retained {
          return false;
        }
        leases := leases + kept;
        kept := [];
        ok := Bind(wanted, f.failing);
        if !ok {
          return false;
        }
      }
      assert leases + [] == leases;
      leases := leases + kept;
      var done := Bind(wanted, None);
      if !t.extending {
        users := users + 1;
      }
      ok := true;
    }

    /** Sort the parts of a transaction. */
    method Sort(t: Transaction) returns (wanted: seq<Grant>, kept: seq<LeaseId>, allowed: bool)
      ensures allowed <==> !(t.extending && !OnlyTransfers(t.parts))
      ensures allowed ==> wanted == Grants(t.parts) && kept == Leases(t.parts)
    {
      wanted, kept := [], [];
      assert t.parts[..0] == [];
      for i := 0 to |t.parts|
        invariant wanted == Grants(t.parts[..i]) && kept == Leases(t.parts[..i])
        invariant t.extending ==> OnlyTransfers(t.parts[..i])
      {
        PartsAppend(t.parts[..i], t.parts[i]);
        assert t.parts[..i + 1] == t.parts[..i] + [t.parts[i]];
        match t.parts[i] {
          case GrantPart(g) => wanted := wanted + [g];
          case LeasePart(l) => kept := kept + [l];
          case _ =>
            if t.extending {
              return [], [], false;
            }
        }
      }
      assert t.parts[..|t.parts|] == t.parts;
      allowed := true;
    }

    method CheckTransaction(wanted: seq<Grant>) returns (fits: bool)
      ensures fits <==> CheckAll(grants, wanted)
    {
      var checked := grants;
      assert wanted[0..] == wanted;
      for i := 0 to |wanted|
        invariant CheckAll(grants, wanted) <==> CheckAll(checked, wanted[i..])
      {
        assert wanted[i..][0] == wanted[i] && wanted[i..][1..] == wanted[i + 1..];
        if !Check(checked, wanted[i]) {
          return false;
        }
        checked := checked + [wanted[i]];
      }
      fits := true;
    }

    /** Bind the wanted grants; partial bindings are retained when a later one fails. */
    method Bind(wanted: seq<Grant>, failing: Option<nat>) returns (ok: bool)
      modifies this`grants
      ensures (grants, ok) == BindAll(old(grants), wanted, failing)
    {
      var left := failing;
      assert wanted[0..] == wanted;
      for i := 0 to |wanted|
        invariant BindAll(old(grants), wanted, failing) == BindAll(grants, wanted[i..], left)
      {
        assert wanted[i..][0] == wanted[i] && wanted[i..][1..] == wanted[i + 1..];
        if left == Some(0) && !HasDest(grants, wanted[i].dest) {
          return false;
        }
        left := if left.Some? && left.value > 0 then Some(left.value - 1) else None;
        if !HasDest(grants, wanted[i].dest) {
          grants := grants + [wanted[i]];
        }
      }
      ok := true;
    }

    /** One user less; the last one stops the engine and drops everything it kept. */
    method DetachUser()
      requires Valid(View()) && users > 0
      modifies this
      ensures View() == Detach(old(View())) && Valid(View())
    {
      users := users - 1;
      if users == 0 {
        engine, leases, grants, config := false, [], [], None;
      }
    }
  }

  lemma {:induction false} PartsAppend(parts: seq<Part>, p: Part)
    ensures Grants(parts + [p]) == Grants(parts) + (if p.GrantPart? then [p.grant] else [])
    ensures Leases(parts + [p]) == Leases(parts) + (if p.LeasePart? then [p.lease] else [])
  {
    if parts == [] {
      assert parts + [p] == [p] && [p][1..] == [];
      assert Grants([p]) == (if p.GrantPart? then [p.grant] else []) + Grants([]);
      assert Leases([p]) == (if p.LeasePart? then [p.lease] else []) + Leases([]);
    } else {
      assert (parts + [p])[0] == parts[0] && (parts + [p])[1..] == parts[1..] + [p];
      PartsAppend(parts[1..], p);
    }
  }
}
