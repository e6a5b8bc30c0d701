/** Descriptor references in a control message: `{"$fd": n}` objects. */
module References {
  import opened Bytes

  /** A JSON value as far as the walk looks: numbers carry their `as_u64` reading. */
  datatype Json =
    | Scalar
    | Number(unsigned: Option<nat>)
    | Array(items: seq<Json>)
    | Object(fields: seq<Field>)

  datatype Field = Field(key: string, value: Json)

  const FD_KEY: string := "$fd"

  /** The index of the first `$fd` field, or the number of fields. */
  function FdField(fields: seq<Field>): (i: nat)
    ensures i <= |fields|
    ensures i < |fields| ==> fields[i].key == FD_KEY
    ensures forall j :: 0 <= j < i ==> fields[j].key != FD_KEY
  {
    if fields == [] || fields[0].key == FD_KEY then 0 else 1 + FdField(fields[1..])
  }

  /** The descriptor index an object with a `$fd` key names; None when it is malformed. */
  function Reference(fields: seq<Field>): Option<nat>
    requires FdField(fields) < |fields|
  {
    var v := fields[FdField(fields)].value;
    if |fields| == 1 && v.Number? then v.unsigned else None
  }

  /** Record one reference; None refuses it. */
  function Note(reference: Option<nat>, count: nat, seen: set<nat>): Option<set<nat>> {
    if reference.None? || reference.value >= count || reference.value in seen then None
    else Some(seen + {reference.value})
  }

  /** The recursive walk of `references`, filling the set of seen indices. */
  function Visit(v: Json, count: nat, seen: set<nat>): Option<set<nat>>
    decreases v, 0
  {
    match v
    case Object(fields) =>
      if FdField(fields) < |fields| then Note(Reference(fields), count, seen) else VisitFields(fields, count, seen)
    case Array(items) => VisitItems(items, count, seen)
    case _ => Some(seen)
  }

  function VisitItems(items: seq<Json>, count: nat, seen: set<nat>): Option<set<nat>>
    decreases items, 1
  {
    if items == [] then Some(seen)
    else
      match Visit(items[0], count, seen)
      case None => None
      case Some(more) => VisitItems(items[1..], count, more)
  }

  function VisitFields(fields: seq<Field>, count: nat, seen: set<nat>): Option<set<nat>>
    decreases fields, 1
  {
    if fields == [] then Some(seen)
    else
      match Visit(fields[0].value, count, seen)
      case None => None
      case Some(more) => VisitFields(fields[1..], count, more)
  }

  predicate Accepted(v: Json, count: nat) {
    match Visit(v, count, {})
    case Some(seen) => |seen| == count
    case None => false
  }

  // The independent reading: list the references, then look at the list ------

  /** Every outermost `$fd` object of a value, in document order. */
  function Listed(v: Json): seq<Option<nat>>
    decreases v, 0
  {
    match v
    case Object(fields) => if FdField(fields) < |fields| then [Reference(fields)] else ListedFields(fields)
    case Array(items) => ListedItems(items)
    case _ => []
  }

  function ListedItems(items: seq<Json>): seq<Option<nat>>
    decreases items, 1
  {
    if items == [] then [] else Listed(items[0]) + ListedItems(items[1..])
  }

  function ListedFields(fields: seq<Field>): seq<Option<nat>>
    decreases fields, 1
  {
    if fields == [] then [] else Listed(fields[0].value) + ListedFields(fields[1..])
  }

  /** The references are a bijection onto 0..count. */
  ghost predicate Bijection(refs: seq<Option<nat>>, count: nat) {
    && |refs| == count
    && (forall i :: 0 <= i < |refs| ==> refs[i].Some? && refs[i].value < count)
    && (forall i, j :: 0 <= i < j < |refs| ==> refs[i] != refs[j])
    && (forall n :: 0 <= n < count ==> Some(n) in refs)
  }

  function NoteAll(refs: seq<Option<nat>>, count: nat, seen: set<nat>): Option<set<nat>>
    decreases |refs|
  {
    if refs == [] then Some(seen)
    else
      match Note(refs[0], count, seen)
      case None => None
      case Some(more) => NoteAll(refs[1..], count, more)
  }

  lemma {:induction false} NoteAllSplit(a: seq<Option<nat>>, b: seq<Option<nat>>, count: nat, seen: set<nat>)
    ensures NoteAll(a + b, count, seen) ==
            match NoteAll(a, count, seen)
            case None => None
            case Some(more) => NoteAll(b, count, more)
    decreases |a|
  {
    if a == [] {
      assert a + b == b;
    } else {
      assert (a + b)[0] == a[0] && (a + b)[1..] == a[1..] + b;
      match Note(a[0], count, seen)
      case Some(more) => NoteAllSplit(a[1..], b, count, more);
      case None =>
    }
  }

  /** The walk visits the listed references, each once and in order. */
  lemma {:induction false} VisitIsNoteAll(v: Json, count: nat, seen: set<nat>)
    ensures Visit(v, count, seen) == NoteAll(Listed(v), count, seen)
    decreases v, 0
  {
    match v
    case Object(fields) =>
      if FdField(fields) < |fields| {
        assert [Reference(fields)][1..] == [];
      } else {
        VisitFieldsIsNoteAll(fields, count, seen);
      }
    case Array(items) => VisitItemsIsNoteAll(items, count, seen);
    case _ =>
  }

  lemma {:induction false} VisitItemsIsNoteAll(items: seq<Json>, count: nat, seen: set<nat>)
    ensures VisitItems(items, count, seen) == NoteAll(ListedItems(items), count, seen)
    decreases items, 1
  {
    if items != [] {
      VisitIsNoteAll(items[0], count, seen);
      NoteAllSplit(Listed(items[0]), ListedItems(items[1..]), count, seen);
      match Visit(items[0], count, seen)
      case Some(more) => VisitItemsIsNoteAll(items[1..], count, more);
      case None =>
    }
  }

  lemma {:induction false} VisitFieldsIsNoteAll(fields: seq<Field>, count: nat, seen: set<nat>)
    ensures VisitFields(fields, count, seen) == NoteAll(ListedFields(fields), count, seen)
    decreases fields, 1
  {
    if fields != [] {
      VisitIsNoteAll(fields[0].value, count, seen);
      NoteAllSplit(Listed(fields[0].value), ListedFields(fields[1..]), count, seen);
      match Visit(fields[0].value, count, seen)
      case Some(more) => VisitFieldsIsNoteAll(fields[1..], count, more);
      case None =>
    }
  }

  /** Which lists are noted without refusal, and what set they leave. */
  predicate Unseen(refs: seq<Option<nat>>, count: nat, seen: set<nat>) {
    && (forall i :: 0 <= i < |refs| ==> refs[i].Some? && refs[i].value < count && refs[i].value !in seen)
    && (forall i, j :: 0 <= i < j < |refs| ==> refs[i] != refs[j])
  }

  lemma {:induction false} NoteAllExact(refs: seq<Option<nat>>, count: nat, seen: set<nat>)
    ensures NoteAll(refs, count, seen).Some? <==> Unseen(refs, count, seen)
    ensures NoteAll(refs, count, seen).Some? ==>
              (forall n :: n in NoteAll(refs, count, seen).value <==> n in seen || Some(n) in refs)
              && |NoteAll(refs, count, seen).value| == |seen| + |refs|
    decreases |refs|
  {
    if refs != [] {
      var rest := refs[1..];
      assert refs == [refs[0]] + rest;
      match Note(refs[0], count, seen) {
        case Some(more) =>
          NoteAllExact(rest, count, more);
          if Unseen(rest, count, more) {
            forall i, j | 0 <= i < j < |refs| ensures refs[i] != refs[j] {
              if i == 0 {
                assert rest[j - 1].value !in more;
              } else {
                assert rest[i - 1] != rest[j - 1];
              }
            }
            forall i | 0 <= i < |refs| ensures refs[i].Some? && refs[i].value < count && refs[i].value !in seen {
              if i > 0 {
                assert rest[i - 1].value !in more;
              }
            }
          }
          if Unseen(refs, count, seen) {
            forall i | 0 <= i < |rest| ensures rest[i].Some? && rest[i].value < count && rest[i].value !in more {
              assert refs[0] != refs[i + 1];
            }
          }
        case None =>
      }
    }
  }

  function UpTo(count: nat): (s: set<nat>)
    ensures |s| == count
    ensures forall n: nat :: n in s <==> n < count
  {
    if count == 0 then {} else UpTo(count - 1) + {count - 1}
  }

  lemma FullSet(s: set<nat>, count: nat)
    requires forall n :: n in s ==> n < count
    ensures |s| == count <==> forall n: nat :: n < count ==> n in s
  {
    if |s| == count {
      SubsetOfSameSize(s, UpTo(count));
    } else {
      assert s != UpTo(count);
    }
  }

  lemma {:induction false} SubsetOfSameSize(a: set<nat>, b: set<nat>)
    requires a <= b && |a| == |b|
    ensures a == b
    decreases |a|
  {
    if a == {} {
    } else {
      var x :| x in a;
      SubsetOfSameSize(a - {x}, b - {x});
      assert a == a - {x} + {x} && b == b - {x} + {x};
    }
  }

  /** Exactness: a message is accepted with `count` descriptors if and only if its
      references are a bijection onto 0..count. */
  lemma AcceptedIsBijection(v: Json, count: nat)
    ensures Accepted(v, count) <==> Bijection(Listed(v), count)
  {
    var refs := Listed(v);
    VisitIsNoteAll(v, count, {});
    NoteAllExact(refs, count, {});
    match Visit(v, count, {})
    case Some(seen) =>
      forall n | n in seen ensures n < count {
        assert Some(n) in refs;
      }
      FullSet(seen, count);
    case None =>
  }
}
