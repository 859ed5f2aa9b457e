/** JSON values as the kernel's payloads use them, and Python's dictionaries:
    an object is its members in insertion order. */
module Json {
  import opened Text

  datatype Json =
    | Null
    | Bool(b: bool)
    | Int(n: int)
    | Str(s: string)
    | Arr(items: seq<Json>)
    | Obj(members: seq<Member>)

  datatype Member = Member(key: string, value: Json)

  /** Where `key` stands in the members, or their number when it is absent. */
  function IndexOf(ms: seq<Member>, key: string): (i: nat)
    ensures i <= |ms|
    ensures i < |ms| ==> ms[i].key == key
    ensures forall k | 0 <= k < i :: ms[k].key != key
  {
    if ms == [] then 0
    else if ms[0].key == key then 0
    else 1 + IndexOf(ms[1..], key)
  }

  predicate Has(ms: seq<Member>, key: string) {
    IndexOf(ms, key) < |ms|
  }

  function Get(ms: seq<Member>, key: string): Json
    requires Has(ms, key)
  {
    ms[IndexOf(ms, key)].value
  }

  function Lookup(ms: seq<Member>, key: string): Option<Json> {
    if Has(ms, key) then Some(Get(ms, key)) else None
  }

  /** `d[key] = value`: replace in place, or append. */
  function Set(ms: seq<Member>, key: string, value: Json): (r: seq<Member>)
    ensures Lookup(r, key) == Some(value)
    ensures forall other | other != key :: Lookup(r, other) == Lookup(ms, other)
  {
    var i := IndexOf(ms, key);
    var r := if i < |ms| then ms[i := Member(key, value)] else ms + [Member(key, value)];
    SetLooksUp(ms, key, value, r);
    r
  }

  lemma SetLooksUp(ms: seq<Member>, key: string, value: Json, r: seq<Member>)
    requires r == var i := IndexOf(ms, key); if i < |ms| then ms[i := Member(key, value)] else ms + [Member(key, value)]
    ensures Lookup(r, key) == Some(value)
    ensures forall other | other != key :: Lookup(r, other) == Lookup(ms, other)
  {
    IndexIs(r, key, IndexOf(ms, key));
    forall other | other != key
      ensures Lookup(r, other) == Lookup(ms, other)
    {
      var i := IndexOf(ms, other);
      if i < |ms| {
        IndexIs(r, other, i);
      } else {
        assert forall k | 0 <= k < |ms| :: ms[k].key != other;
        assert forall k | 0 <= k < |r| :: r[k].key != other;
      }
    }
  }

  lemma IndexIs(ms: seq<Member>, key: string, i: nat)
    requires i < |ms| && ms[i].key == key
    requires forall k | 0 <= k < i :: ms[k].key != key
    ensures IndexOf(ms, key) == i
  {
  }

  /** `d.update(e)`. */
  function Update(ms: seq<Member>, es: seq<Member>): seq<Member>
    decreases |es|
  {
    if es == [] then ms else Update(Set(ms, es[0].key, es[0].value), es[1..])
  }

  ghost predicate DistinctKeys(ms: seq<Member>) {
    forall i, j | 0 <= i < j < |ms| :: ms[i].key != ms[j].key
  }

  /** Every object inside the value has distinct keys, as a Python dictionary does. */
  ghost predicate WellFormed(j: Json) {
    match j
    case Arr(items) => forall i | 0 <= i < |items| :: WellFormed(items[i])
    case Obj(ms) => DistinctKeys(ms) && forall i | 0 <= i < |ms| :: WellFormed(ms[i].value)
    case _ => true
  }

  ghost predicate WellFormedMembers(ms: seq<Member>) {
    DistinctKeys(ms) && forall i | 0 <= i < |ms| :: WellFormed(ms[i].value)
  }

  /** A dictionary: members with distinct keys, at every level. */
  type Dict = ms: seq<Member> | WellFormedMembers(ms) witness []

  lemma SetWellFormed(ms: Dict, key: string, value: Json)
    requires WellFormed(value)
    ensures WellFormedMembers(Set(ms, key, value))
  {
  }

  lemma {:induction false} UpdateWellFormed(ms: Dict, es: Dict)
    ensures WellFormedMembers(Update(ms, es))
    decreases |es|
  {
    if es != [] {
      SetWellFormed(ms, es[0].key, es[0].value);
      UpdateWellFormed(Set(ms, es[0].key, es[0].value), es[1..]);
    }
  }

  lemma LookupCons(es: seq<Member>, key: string)
    requires es != []
    ensures Lookup(es, key) == if key == es[0].key then Some(es[0].value) else Lookup(es[1..], key)
  {
  }

  lemma NotAgain(es: seq<Member>)
    requires es != [] && DistinctKeys(es)
    ensures Lookup(es[1..], es[0].key) == None && DistinctKeys(es[1..])
  {
    forall i | 0 <= i < |es| - 1
      ensures es[1..][i].key != es[0].key
    {
      assert es[1..][i] == es[i + 1];
    }
  }

  /** An update: the new members win, and the others stay. */
  lemma {:induction false} UpdateLooksUp(out: seq<Member>, es: seq<Member>, key: string)
    requires DistinctKeys(es)
    ensures Lookup(Update(out, es), key) == if Lookup(es, key).Some? then Lookup(es, key) else Lookup(out, key)
    decreases |es|
  {
    if es != [] {
      NotAgain(es);
      LookupCons(es, key);
      UpdateLooksUp(Set(out, es[0].key, es[0].value), es[1..], key);
    }
  }

  /** The same value: the order of an object's members does not matter, at any level.
      Unlike Python's `==`, which takes `True` for `1`, it tells every kind of value
      from the others, as their texts do. */
  ghost predicate Same(a: Json, b: Json)
    decreases a
  {
    match (a, b)
    case (Arr(xs), Arr(ys)) =>
      |xs| == |ys| && forall i | 0 <= i < |xs| :: Same(xs[i], ys[i])
    case (Obj(ms), Obj(ns)) =>
      |ms| == |ns| && forall i | 0 <= i < |ms| :: Has(ns, ms[i].key) && Same(ms[i].value, Get(ns, ms[i].key))
    case _ => a == b
  }
}
