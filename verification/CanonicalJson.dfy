/** Canonical JSON: keys sorted at every level, compact separators. Two payloads
    have the same canonical text exactly when they are the same value, whatever the
    order of the keys. */
module CanonicalJson {
  import opened Text
  import opened Json
  import opened JsonText

  // ------------------------------------------------------------------ sorting

  /** Put a member in front of the first one whose key is not smaller. */
  function Insert(m: Member, ms: seq<Member>): (r: seq<Member>)
    ensures multiset(r) == multiset(ms) + multiset{m}
  {
    if ms == [] then [m]
    else if LexLeq(m.key, ms[0].key) then [m] + ms
    else
      assert ms == [ms[0]] + ms[1..];
      [ms[0]] + Insert(m, ms[1..])
  }

  function Sort(ms: seq<Member>): (r: seq<Member>)
    ensures multiset(r) == multiset(ms)
  {
    if ms == [] then [] else
      assert ms == [ms[0]] + ms[1..];
      Insert(ms[0], Sort(ms[1..]))
  }

  ghost predicate Sorted(ms: seq<Member>) {
    forall i, j | 0 <= i < j < |ms| :: LexLeq(ms[i].key, ms[j].key)
  }

  lemma {:induction false} InsertSorted(m: Member, ms: seq<Member>)
    requires Sorted(ms)
    ensures Sorted(Insert(m, ms))
  {
    if ms == [] {
    } else if LexLeq(m.key, ms[0].key) {
      forall j | 0 <= j < |ms|
        ensures LexLeq(m.key, ms[j].key)
      {
        if j > 0 {
          LexTransitive(m.key, ms[0].key, ms[j].key);
        }
      }
    } else {
      InsertSorted(m, ms[1..]);
      var r := Insert(m, ms[1..]);
      forall j | 0 <= j < |r|
        ensures LexLeq(ms[0].key, r[j].key)
      {
        assert r[j] in multiset(r);
        LexTotal(m.key, ms[0].key);
      }
    }
  }

  lemma {:induction false} SortSorted(ms: seq<Member>)
    ensures Sorted(Sort(ms))
  {
    if ms != [] {
      SortSorted(ms[1..]);
      InsertSorted(ms[0], Sort(ms[1..]));
    }
  }

  lemma SameHead(ms: seq<Member>, ns: seq<Member>)
    requires Sorted(ms) && Sorted(ns)
    requires DistinctKeys(ms)
    requires ms != [] && multiset(ms) == multiset(ns)
    ensures ns != [] && ms[0] == ns[0]
  {
    assert |multiset(ms)| == |multiset(ns)|;
    assert ms[0] in multiset(ns) && ns[0] in multiset(ms);
    var i :| 0 <= i < |ns| && ns[i] == ms[0];
    var k :| 0 <= k < |ms| && ms[k] == ns[0];
    if i != 0 && k != 0 {
      LexAntisymmetric(ms[0].key, ns[0].key);
    }
  }

  /** Among members with distinct keys, sorted order is the only order. */
  lemma {:induction false} SortedUnique(ms: seq<Member>, ns: seq<Member>)
    requires Sorted(ms) && Sorted(ns)
    requires DistinctKeys(ms) && DistinctKeys(ns)
    requires multiset(ms) == multiset(ns)
    ensures ms == ns
  {
    assert |multiset(ms)| == |multiset(ns)|;
    if ms != [] {
      SameHead(ms, ns);
      Tail(ms);
      Tail(ns);
      SortedUnique(ms[1..], ns[1..]);
    }
  }

  lemma Tail(ms: seq<Member>)
    requires Sorted(ms) && DistinctKeys(ms) && ms != []
    ensures Sorted(ms[1..]) && DistinctKeys(ms[1..])
    ensures multiset(ms[1..]) == multiset(ms) - multiset{ms[0]}
    ensures ms == [ms[0]] + ms[1..]
  {
    assert ms == [ms[0]] + ms[1..];
  }

  // -------------------------------------------------------------- normal form

  /** The value with every object's members in key order. */
  function Normal(j: Json): Json
    decreases j, 1
  {
    match j
    case Arr(items) => Arr(NormalItems(items))
    case Obj(ms) => Obj(Sort(NormalMembers(ms)))
    case _ => j
  }

  function NormalItems(items: seq<Json>): (r: seq<Json>)
    ensures |r| == |items|
    ensures forall i | 0 <= i < |items| :: r[i] == Normal(items[i])
    decreases items, 0
  {
    if items == [] then [] else [Normal(items[0])] + NormalItems(items[1..])
  }

  function NormalMembers(ms: seq<Member>): (r: seq<Member>)
    ensures |r| == |ms|
    ensures forall i | 0 <= i < |ms| :: r[i] == Member(ms[i].key, Normal(ms[i].value))
    decreases ms, 0
  {
    if ms == [] then [] else
      assert ms[0] in ms;
      [Member(ms[0].key, Normal(ms[0].value))] + NormalMembers(ms[1..])
  }

  /** `canonical_json`: sorted keys, compact separators. */
  function Canonical(j: Json): string {
    Print(Normal(j))
  }

  // ------------------------------------------------ canonical text = equality

  lemma SortDistinct(ms: seq<Member>)
    requires DistinctKeys(ms)
    ensures DistinctKeys(Sort(ms))
  {
    var r := Sort(ms);
    assert |multiset(r)| == |multiset(ms)|;
    forall i, j | 0 <= i < j < |r|
      ensures r[i].key != r[j].key
    {
      assert r[i] in multiset(ms) && r[j] in multiset(ms);
      if r[i] == r[j] {
        Twice(r, i, j);
        OnceOnly(ms, r[i]);
        assert false;
      }
    }
  }

  lemma Twice(ms: seq<Member>, i: nat, j: nat)
    requires i < j < |ms| && ms[i] == ms[j]
    ensures multiset(ms)[ms[i]] >= 2
  {
    assert ms == ms[..j] + [ms[j]] + ms[j + 1..];
    assert ms[i] in ms[..j];
  }

  lemma {:induction false} OnceOnly(ms: seq<Member>, m: Member)
    requires DistinctKeys(ms)
    ensures multiset(ms)[m] <= 1
  {
    if ms != [] {
      OnceOnly(ms[1..], m);
      assert ms == [ms[0]] + ms[1..];
      if ms[0] == m {
        assert m !in ms[1..];
      }
    }
  }

  lemma {:induction false} SameNormal(a: Json, b: Json)
    requires WellFormed(a) && WellFormed(b)
    requires Same(a, b)
    ensures Normal(a) == Normal(b)
    decreases a
  {
    match a
    case Arr(xs) =>
      forall i | 0 <= i < |xs|
        ensures Normal(xs[i]) == Normal(b.items[i])
      {
        SameNormal(xs[i], b.items[i]);
      }
      assert NormalItems(xs) == NormalItems(b.items);
    case Obj(ms) =>
      var ns := b.members;
      var p, q := NormalMembers(ms), NormalMembers(ns);
      forall i | 0 <= i < |ms|
        ensures p[i] in q
      {
        var k := IndexOf(ns, ms[i].key);
        assert ms[i] in ms;
        SameNormal(ms[i].value, ns[k].value);
        assert q[k] == p[i];
      }
      SubsetOfSameSize(p, q);
      SortSorted(p);
      SortSorted(q);
      SortDistinct(p);
      SortDistinct(q);
      SortedUnique(Sort(p), Sort(q));
    case _ =>
  }

  /** Distinct-keyed members that all lie among as many others are those others. */
  lemma {:induction false} SubsetOfSameSize(ms: seq<Member>, ns: seq<Member>)
    requires DistinctKeys(ms) && |ms| == |ns|
    requires forall i | 0 <= i < |ms| :: ms[i] in ns
    ensures multiset(ms) == multiset(ns)
  {
    forall m | m in multiset(ms)
      ensures multiset(ms)[m] <= multiset(ns)[m]
    {
      OnceOnly(ms, m);
    }
    assert multiset(ms) <= multiset(ns);
    assert |multiset(ns) - multiset(ms)| == 0;
  }

  lemma {:induction false} NormalSame(a: Json, b: Json)
    requires WellFormed(a) && WellFormed(b)
    requires Normal(a) == Normal(b)
    ensures Same(a, b)
    decreases a
  {
    match a
    case Arr(xs) =>
      var ys := b.items;
      assert NormalItems(xs) == NormalItems(ys);
      forall i | 0 <= i < |xs|
        ensures Same(xs[i], ys[i])
      {
        assert NormalItems(xs)[i] == NormalItems(ys)[i];
        NormalSame(xs[i], ys[i]);
      }
    case Obj(ms) =>
      var ns := b.members;
      var p, q := NormalMembers(ms), NormalMembers(ns);
      assert multiset(p) == multiset(Sort(p)) == multiset(Sort(q)) == multiset(q);
      assert |multiset(p)| == |multiset(q)|;
      forall i | 0 <= i < |ms|
        ensures Has(ns, ms[i].key) && Same(ms[i].value, Get(ns, ms[i].key))
      {
        assert p[i] in multiset(q);
        var k :| 0 <= k < |q| && q[k] == p[i];
        IndexIs(ns, ms[i].key, k);
        assert ms[i] in ms;
        NormalSame(ms[i].value, ns[k].value);
      }
    case _ =>
  }

  /** The canonical text forgets the order of keys and nothing else. */
  lemma CanonicalIff(a: Json, b: Json)
    requires WellFormed(a) && WellFormed(b)
    ensures Canonical(a) == Canonical(b) <==> Same(a, b)
  {
    if Canonical(a) == Canonical(b) {
      PrintInjective(Normal(a), Normal(b));
      NormalSame(a, b);
    }
    if Same(a, b) {
      SameNormal(a, b);
    }
  }

  /** Listing the same members in another order does not change the text. */
  lemma OrderInsensitive(ms: Dict, ns: Dict)
    requires multiset(ms) == multiset(ns)
    ensures Canonical(Obj(ms)) == Canonical(Obj(ns))
  {
    assert |multiset(ms)| == |multiset(ns)|;
    forall i | 0 <= i < |ms|
      ensures Has(ns, ms[i].key) && Same(ms[i].value, Get(ns, ms[i].key))
    {
      assert ms[i] in multiset(ns);
      var k :| 0 <= k < |ns| && ns[k] == ms[i];
      IndexIs(ns, ms[i].key, k);
      CanonicalIff(ms[i].value, ms[i].value);
    }
    CanonicalIff(Obj(ms), Obj(ns));
  }
}
