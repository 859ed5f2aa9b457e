/** The rewriting of references in exported schemas: a reference to a model with a
    slug becomes the model's public id, any other definition is embedded where it
    is referred to. */
module SchemaRefs {
  import opened Text
  import opened Json

  const DEFS_PREFIX := "#/$defs/"
  const REF := "$ref"

  /** The slugs, the definitions, and a rank that falls from a definition to the
      definitions it embeds; it exists when the embedding is acyclic. */
  datatype Env = Env(slugs: map<string, string>, defs: seq<Member>, rank: string -> nat)

  /** A reference into the definitions of the document. */
  predicate IsRef(m: Member) {
    m.key == REF && m.value.Str? && HasPrefix(m.value.s, DEFS_PREFIX)
  }

  /** `value.split("/")[-1]`. */
  function Target(m: Member): string
    requires IsRef(m)
  {
    var parts := Split(m.value.s, '/');
    parts[|parts| - 1]
  }

  function PublicId(slug: string): string {
    "seasi/" + slug + "/v1"
  }

  /** The names that a document refers to. */
  function Refs(j: Json): set<string>
    decreases j
  {
    match j
    case Arr(items) => ItemRefs(items)
    case Obj(ms) => MemberRefs(ms)
    case _ => {}
  }

  function ItemRefs(items: seq<Json>): set<string>
    decreases items
  {
    if items == [] then {} else Refs(items[0]) + ItemRefs(items[1..])
  }

  function MemberRefs(ms: seq<Member>): set<string>
    decreases ms
  {
    if ms == [] then {} else (if IsRef(ms[0]) then {Target(ms[0])} else Refs(ms[0].value)) + MemberRefs(ms[1..])
  }

  predicate Embedded(env: Env, name: string) {
    name !in env.slugs && Has(env.defs, name)
  }

  /** What is embedded for these names ranks below the bound. */
  predicate Below(env: Env, names: set<string>, bound: nat) {
    forall n | n in names && Embedded(env, n) :: env.rank(n) < bound
  }

  predicate Acyclic(env: Env) {
    forall i | 0 <= i < |env.defs| :: Below(env, Refs(env.defs[i].value), env.rank(env.defs[i].key))
  }

  /** The rewritten document; nothing when a reference has no definition, or has one
      that is not an object. */
  function Rewrite(env: Env, bound: nat, j: Json): Option<Json>
    requires Acyclic(env) && Below(env, Refs(j), bound)
    decreases bound, j
  {
    match j
    case Arr(items) =>
      var rewritten := RewriteItems(env, bound, items);
      if rewritten.None? then None else Some(Arr(rewritten.value))
    case Obj(ms) =>
      var rewritten := RewriteMembers(env, bound, [], ms);
      if rewritten.None? then None else Some(Obj(rewritten.value))
    case _ => Some(j)
  }

  function RewriteItems(env: Env, bound: nat, items: seq<Json>): Option<seq<Json>>
    requires Acyclic(env) && Below(env, ItemRefs(items), bound)
    decreases bound, items
  {
    if items == [] then Some([])
    else
      var first, rest := Rewrite(env, bound, items[0]), RewriteItems(env, bound, items[1..]);
      if first.None? || rest.None? then None else Some([first.value] + rest.value)
  }

  /** The loop over a dictionary, with what it has put out so far. */
  function RewriteMembers(env: Env, bound: nat, out: seq<Member>, ms: seq<Member>): Option<seq<Member>>
    requires Acyclic(env) && Below(env, MemberRefs(ms), bound)
    decreases bound, ms
  {
    if ms == [] then Some(out)
    else
      var m := ms[0];
      if IsRef(m) then
        var name := Target(m);
        assert name in MemberRefs(ms);
        if name in env.slugs then RewriteMembers(env, bound, Set(out, m.key, Str(PublicId(env.slugs[name]))), ms[1..])
        else if Has(env.defs, name) then
          var definition := Rewrite(env, env.rank(name), Get(env.defs, name));
          if definition.None? || !definition.value.Obj? then None
          else RewriteMembers(env, bound, Update(out, definition.value.members), ms[1..])
        else None
      else
        var value := Rewrite(env, bound, m.value);
        if value.None? then None else RewriteMembers(env, bound, Set(out, m.key, value.value), ms[1..])
  }

  // -------------------------------------------------------- no reference is left

  /** No reference into the definitions anywhere in the document. */
  ghost predicate Clean(j: Json) {
    match j
    case Arr(items) => forall i | 0 <= i < |items| :: Clean(items[i])
    case Obj(ms) => forall i | 0 <= i < |ms| :: !IsRef(ms[i]) && Clean(ms[i].value)
    case _ => true
  }

  ghost predicate CleanMembers(ms: seq<Member>) {
    forall i | 0 <= i < |ms| :: !IsRef(ms[i]) && Clean(ms[i].value)
  }

  lemma SetClean(out: seq<Member>, key: string, value: Json)
    requires CleanMembers(out) && Clean(value) && !IsRef(Member(key, value))
    ensures CleanMembers(Set(out, key, value))
  {
  }

  lemma {:induction false} UpdateClean(out: seq<Member>, es: seq<Member>)
    requires CleanMembers(out) && CleanMembers(es)
    ensures CleanMembers(Update(out, es))
    decreases |es|
  {
    if es != [] {
      SetClean(out, es[0].key, es[0].value);
      UpdateClean(Set(out, es[0].key, es[0].value), es[1..]);
    }
  }

  /** Rewriting leaves no reference into the definitions. */
  lemma {:induction false} NoRefsLeft(env: Env, bound: nat, j: Json)
    requires Acyclic(env) && Below(env, Refs(j), bound)
    ensures var r := Rewrite(env, bound, j); r.Some? ==> Clean(r.value)
    decreases bound, j
  {
    match j {
      case Arr(items) => NoItemRefsLeft(env, bound, items);
      case Obj(ms) => NoMemberRefsLeft(env, bound, [], ms);
      case _ =>
    }
  }

  lemma {:induction false} NoItemRefsLeft(env: Env, bound: nat, items: seq<Json>)
    requires Acyclic(env) && Below(env, ItemRefs(items), bound)
    ensures var r := RewriteItems(env, bound, items); r.Some? ==> forall i | 0 <= i < |r.value| :: Clean(r.value[i])
    decreases bound, items
  {
    if items != [] {
      NoRefsLeft(env, bound, items[0]);
      NoItemRefsLeft(env, bound, items[1..]);
    }
  }

  lemma {:induction false} NoMemberRefsLeft(env: Env, bound: nat, out: seq<Member>, ms: seq<Member>)
    requires Acyclic(env) && Below(env, MemberRefs(ms), bound) && CleanMembers(out)
    ensures var r := RewriteMembers(env, bound, out, ms); r.Some? ==> CleanMembers(r.value)
    decreases bound, ms
  {
    if ms != [] {
      var m := ms[0];
      if IsRef(m) {
        var name := Target(m);
        assert name in MemberRefs(ms);
        if name in env.slugs {
          var id := Str(PublicId(env.slugs[name]));
          assert id.s[0] == 's' && DEFS_PREFIX[0] == '#';
          SetClean(out, m.key, id);
          NoMemberRefsLeft(env, bound, Set(out, m.key, id), ms[1..]);
        } else if Has(env.defs, name) {
          NoRefsLeft(env, env.rank(name), Get(env.defs, name));
          var definition := Rewrite(env, env.rank(name), Get(env.defs, name));
          if definition.Some? && definition.value.Obj? {
            UpdateClean(out, definition.value.members);
            NoMemberRefsLeft(env, bound, Update(out, definition.value.members), ms[1..]);
          }
        }
      } else {
        NoRefsLeft(env, bound, m.value);
        var value := Rewrite(env, bound, m.value);
        if value.Some? {
          SetClean(out, m.key, value.value);
          NoMemberRefsLeft(env, bound, Set(out, m.key, value.value), ms[1..]);
        }
      }
    }
  }

  // ------------------------------------------------------------- idempotence

  lemma {:induction false} CleanHasNoRefs(j: Json)
    requires Clean(j)
    ensures Refs(j) == {}
    decreases j
  {
    match j {
      case Arr(items) => CleanItemsHaveNoRefs(items);
      case Obj(ms) => CleanMembersHaveNoRefs(ms);
      case _ =>
    }
  }

  lemma {:induction false} CleanItemsHaveNoRefs(items: seq<Json>)
    requires forall i | 0 <= i < |items| :: Clean(items[i])
    ensures ItemRefs(items) == {}
    decreases items
  {
    if items != [] {
      CleanHasNoRefs(items[0]);
      CleanItemsHaveNoRefs(items[1..]);
    }
  }

  lemma {:induction false} CleanMembersHaveNoRefs(ms: seq<Member>)
    requires CleanMembers(ms)
    ensures MemberRefs(ms) == {}
    decreases ms
  {
    if ms != [] {
      CleanHasNoRefs(ms[0].value);
      CleanMembersHaveNoRefs(ms[1..]);
    }
  }

  /** A document without references is left as it is. */
  lemma {:induction false} CleanUnchanged(env: Env, bound: nat, j: Json)
    requires Acyclic(env) && Below(env, Refs(j), bound) && Clean(j) && WellFormed(j)
    ensures Rewrite(env, bound, j) == Some(j)
    decreases j
  {
    match j {
      case Arr(items) => CleanItemsUnchanged(env, bound, items);
      case Obj(ms) =>
        assert [] + ms == ms;
        CleanMembersUnchanged(env, bound, [], ms);
      case _ =>
    }
  }

  lemma {:induction false} CleanItemsUnchanged(env: Env, bound: nat, items: seq<Json>)
    requires Acyclic(env) && Below(env, ItemRefs(items), bound)
    requires forall i | 0 <= i < |items| :: Clean(items[i]) && WellFormed(items[i])
    ensures RewriteItems(env, bound, items) == Some(items)
    decreases items
  {
    if items != [] {
      CleanUnchanged(env, bound, items[0]);
      CleanItemsUnchanged(env, bound, items[1..]);
      assert [items[0]] + items[1..] == items;
    }
  }

  lemma {:induction false} CleanMembersUnchanged(env: Env, bound: nat, out: seq<Member>, ms: seq<Member>)
    requires Acyclic(env) && Below(env, MemberRefs(ms), bound) && CleanMembers(ms)
    requires DistinctKeys(out + ms) && forall i | 0 <= i < |ms| :: WellFormed(ms[i].value)
    ensures RewriteMembers(env, bound, out, ms) == Some(out + ms)
    decreases ms
  {
    if ms == [] {
      assert out + ms == out;
    } else {
      CleanUnchanged(env, bound, ms[0].value);
      SetAppends(out, ms, ms[0].value);
      assert (out + [ms[0]]) + ms[1..] == out + ms;
      CleanMembersUnchanged(env, bound, out + [ms[0]], ms[1..]);
      assert RewriteMembers(env, bound, out, ms) == RewriteMembers(env, bound, out + [ms[0]], ms[1..]);
    }
  }

  /** Rewriting keeps the keys of every object distinct. */
  lemma {:induction false} RewriteWellFormed(env: Env, bound: nat, j: Json)
    requires Acyclic(env) && Below(env, Refs(j), bound) && WellFormed(j) && WellFormedMembers(env.defs)
    ensures var r := Rewrite(env, bound, j); r.Some? ==> WellFormed(r.value)
    decreases bound, j
  {
    match j {
      case Arr(items) => ItemsWellFormed(env, bound, items);
      case Obj(ms) => MembersWellFormed(env, bound, [], ms);
      case _ =>
    }
  }

  lemma {:induction false} ItemsWellFormed(env: Env, bound: nat, items: seq<Json>)
    requires Acyclic(env) && Below(env, ItemRefs(items), bound) && WellFormedMembers(env.defs)
    requires forall i | 0 <= i < |items| :: WellFormed(items[i])
    ensures var r := RewriteItems(env, bound, items); r.Some? ==> forall i | 0 <= i < |r.value| :: WellFormed(r.value[i])
    decreases bound, items
  {
    if items != [] {
      RewriteWellFormed(env, bound, items[0]);
      ItemsWellFormed(env, bound, items[1..]);
    }
  }

  lemma {:induction false} MembersWellFormed(env: Env, bound: nat, out: Dict, ms: seq<Member>)
    requires Acyclic(env) && Below(env, MemberRefs(ms), bound) && WellFormedMembers(env.defs)
    requires forall i | 0 <= i < |ms| :: WellFormed(ms[i].value)
    ensures var r := RewriteMembers(env, bound, out, ms); r.Some? ==> WellFormedMembers(r.value)
    decreases bound, ms
  {
    if ms != [] {
      var m := ms[0];
      if IsRef(m) {
        var name := Target(m);
        assert name in MemberRefs(ms);
        if name in env.slugs {
          var id := Str(PublicId(env.slugs[name]));
          SetWellFormed(out, m.key, id);
          MembersWellFormed(env, bound, Set(out, m.key, id), ms[1..]);
        } else if Has(env.defs, name) {
          RewriteWellFormed(env, env.rank(name), Get(env.defs, name));
          var definition := Rewrite(env, env.rank(name), Get(env.defs, name));
          if definition.Some? && definition.value.Obj? {
            UpdateWellFormed(out, definition.value.members);
            MembersWellFormed(env, bound, Update(out, definition.value.members), ms[1..]);
          }
        }
      } else {
        RewriteWellFormed(env, bound, m.value);
        var value := Rewrite(env, bound, m.value);
        if value.Some? {
          SetWellFormed(out, m.key, value.value);
          MembersWellFormed(env, bound, Set(out, m.key, value.value), ms[1..]);
        }
      }
    }
  }

  /** Rewriting twice is rewriting once. */
  lemma RewriteIdempotent(env: Env, bound: nat, j: Json, again: nat)
    requires Acyclic(env) && Below(env, Refs(j), bound) && WellFormed(j) && WellFormedMembers(env.defs)
    requires Rewrite(env, bound, j).Some?
    ensures var r := Rewrite(env, bound, j).value;
      Refs(r) == {} && Rewrite(env, again, r) == Some(r)
  {
    var r := Rewrite(env, bound, j).value;
    NoRefsLeft(env, bound, j);
    RewriteWellFormed(env, bound, j);
    CleanHasNoRefs(r);
    CleanUnchanged(env, again, r);
  }

  // ------------------------------------------------------- what replaces what

  /** Every name reached from these has a slug, or a definition that is an object. */
  predicate Known(env: Env, bound: nat, names: set<string>)
    requires Acyclic(env) && Below(env, names, bound)
    decreases bound
  {
    forall n | n in names ::
      n in env.slugs || (Has(env.defs, n) && Get(env.defs, n).Obj? && Known(env, env.rank(n), Refs(Get(env.defs, n))))
  }

  lemma KnownUnion(env: Env, bound: nat, names: set<string>, more: set<string>)
    requires Acyclic(env) && Below(env, names + more, bound)
    ensures Known(env, bound, names + more) <==> Known(env, bound, names) && Known(env, bound, more)
  {
  }

  /** Rewriting succeeds exactly when every reference it meets, in the document or in
      a definition it embeds, can be resolved. */
  lemma {:induction false} RewriteIff(env: Env, bound: nat, j: Json)
    requires Acyclic(env) && Below(env, Refs(j), bound)
    ensures Rewrite(env, bound, j).Some? <==> Known(env, bound, Refs(j))
    decreases bound, j
  {
    match j {
      case Arr(items) => RewriteItemsIff(env, bound, items);
      case Obj(ms) => RewriteMembersIff(env, bound, [], ms);
      case _ =>
    }
  }

  lemma {:induction false} RewriteItemsIff(env: Env, bound: nat, items: seq<Json>)
    requires Acyclic(env) && Below(env, ItemRefs(items), bound)
    ensures RewriteItems(env, bound, items).Some? <==> Known(env, bound, ItemRefs(items))
    decreases bound, items
  {
    if items != [] {
      RewriteIff(env, bound, items[0]);
      RewriteItemsIff(env, bound, items[1..]);
      KnownUnion(env, bound, Refs(items[0]), ItemRefs(items[1..]));
    }
  }

  lemma {:induction false} RewriteMembersIff(env: Env, bound: nat, out: seq<Member>, ms: seq<Member>)
    requires Acyclic(env) && Below(env, MemberRefs(ms), bound)
    ensures RewriteMembers(env, bound, out, ms).Some? <==> Known(env, bound, MemberRefs(ms))
    decreases bound, ms
  {
    if ms != [] {
      var m := ms[0];
      var first := if IsRef(m) then {Target(m)} else Refs(m.value);
      assert MemberRefs(ms) == first + MemberRefs(ms[1..]);
      KnownUnion(env, bound, first, MemberRefs(ms[1..]));
      if IsRef(m) {
        var name := Target(m);
        assert name in MemberRefs(ms);
        if name in env.slugs {
          RewriteMembersIff(env, bound, Set(out, m.key, Str(PublicId(env.slugs[name]))), ms[1..]);
        } else if Has(env.defs, name) {
          RewriteIff(env, env.rank(name), Get(env.defs, name));
          var definition := Rewrite(env, env.rank(name), Get(env.defs, name));
          if definition.Some? && definition.value.Obj? {
            RewriteMembersIff(env, bound, Update(out, definition.value.members), ms[1..]);
          }
        }
      } else {
        RewriteIff(env, bound, m.value);
        var value := Rewrite(env, bound, m.value);
        if value.Some? {
          RewriteMembersIff(env, bound, Set(out, m.key, value.value), ms[1..]);
        }
      }
    }
  }

  lemma SetAppends(out: seq<Member>, ms: seq<Member>, value: Json)
    requires ms != [] && DistinctKeys(out + ms)
    ensures Set(out, ms[0].key, value) == out + [Member(ms[0].key, value)]
    ensures DistinctKeys(out + [Member(ms[0].key, value)] + ms[1..])
  {
    forall k | 0 <= k < |out|
      ensures out[k].key != ms[0].key
    {
      assert (out + ms)[k] == out[k] && (out + ms)[|out|] == ms[0];
    }
    SameKeys(out + ms, out + [Member(ms[0].key, value)] + ms[1..]);
  }

  lemma SameKeys(ms: seq<Member>, ns: seq<Member>)
    requires |ms| == |ns| && DistinctKeys(ms) && forall i | 0 <= i < |ms| :: ms[i].key == ns[i].key
    ensures DistinctKeys(ns)
  {
  }

  /** The names that one member refers to. */
  function RefsOf(m: Member): set<string> {
    if IsRef(m) then {Target(m)} else Refs(m.value)
  }

  lemma {:induction false} RefsOfMember(ms: seq<Member>, i: nat)
    requires i < |ms|
    ensures RefsOf(ms[i]) <= MemberRefs(ms)
  {
    if i > 0 {
      RefsOfMember(ms[1..], i - 1);
    }
  }

  /** What a member puts under a key: a plain member its rewritten value, a reference
      to a model with a slug the public id, and any other reference whatever its
      definition has there. */
  function Writes(env: Env, bound: nat, m: Member, key: string): Option<Json>
    requires Acyclic(env) && Below(env, RefsOf(m), bound)
  {
    if !IsRef(m) then (if key == m.key then Rewrite(env, bound, m.value) else None)
    else if Target(m) in env.slugs then (if key == m.key then Some(Str(PublicId(env.slugs[Target(m)]))) else None)
    else if Has(env.defs, Target(m)) then
      var definition := Rewrite(env, env.rank(Target(m)), Get(env.defs, Target(m)));
      if definition.Some? && definition.value.Obj? then Lookup(definition.value.members, key) else None
    else None
  }

  /** What stands under the key after the members have been written in order. */
  function LastWritten(env: Env, bound: nat, ms: seq<Member>, key: string, before: Option<Json>): Option<Json>
    requires Acyclic(env) && Below(env, MemberRefs(ms), bound)
  {
    if ms == [] then before
    else
      var written := Writes(env, bound, ms[0], key);
      LastWritten(env, bound, ms[1..], key, if written.Some? then written else before)
  }

  lemma {:induction false} MembersLookUp(env: Env, bound: nat, out: seq<Member>, ms: seq<Member>, key: string)
    requires Acyclic(env) && Below(env, MemberRefs(ms), bound) && WellFormedMembers(env.defs)
    requires RewriteMembers(env, bound, out, ms).Some?
    ensures Lookup(RewriteMembers(env, bound, out, ms).value, key) == LastWritten(env, bound, ms, key, Lookup(out, key))
    decreases |ms|
  {
    if ms != [] {
      var m := ms[0];
      if IsRef(m) && Target(m) !in env.slugs {
        var name := Target(m);
        assert env.defs[IndexOf(env.defs, name)].key == name;
        RewriteWellFormed(env, env.rank(name), Get(env.defs, name));
        var definition := Rewrite(env, env.rank(name), Get(env.defs, name)).value.members;
        UpdateLooksUp(out, definition, key);
        MembersLookUp(env, bound, Update(out, definition), ms[1..], key);
      } else {
        var value := if IsRef(m) then Str(PublicId(env.slugs[Target(m)])) else Rewrite(env, bound, m.value).value;
        MembersLookUp(env, bound, Set(out, m.key, value), ms[1..], key);
      }
    }
  }

  lemma {:induction false} LastWrittenIs(env: Env, bound: nat, ms: seq<Member>, i: nat, key: string, before: Option<Json>)
    requires Acyclic(env) && Below(env, MemberRefs(ms), bound) && i <= |ms|
    requires forall j | 0 <= j < |ms| :: Below(env, RefsOf(ms[j]), bound)
    requires forall j | i < j < |ms| :: Writes(env, bound, ms[j], key) == None
    requires i < |ms| ==> Writes(env, bound, ms[i], key).Some?
    requires i == |ms| ==> forall j | 0 <= j < |ms| :: Writes(env, bound, ms[j], key) == None
    ensures LastWritten(env, bound, ms, key, before) == if i < |ms| then Writes(env, bound, ms[i], key) else before
    decreases |ms|
  {
    if ms != [] {
      var written := Writes(env, bound, ms[0], key);
      var next := if written.Some? then written else before;
      assert forall j | 0 <= j < |ms| - 1 :: ms[1..][j] == ms[j + 1];
      LastWrittenIs(env, bound, ms[1..], if i == 0 then |ms| - 1 else i - 1, key, next);
    }
  }

  /** The last writer wins, for every object and every key: a sibling that stands
      after a reference over the embedded definition, the definition over a sibling
      that stands before. A key that nobody writes is not in the result. */
  lemma LastWriterWins(env: Env, bound: nat, ms: Dict, key: string)
    requires Acyclic(env) && Below(env, Refs(Obj(ms)), bound) && WellFormedMembers(env.defs)
    requires Rewrite(env, bound, Obj(ms)).Some?
    ensures forall i | 0 <= i < |ms| :: Below(env, RefsOf(ms[i]), bound)
    ensures Rewrite(env, bound, Obj(ms)).value.Obj?
    ensures var r := Rewrite(env, bound, Obj(ms)).value.members;
      && (forall i | 0 <= i < |ms| && Writes(env, bound, ms[i], key).Some?
                     && (forall j | i < j < |ms| :: Writes(env, bound, ms[j], key) == None) ::
            Lookup(r, key) == Writes(env, bound, ms[i], key))
      && ((forall i | 0 <= i < |ms| :: Writes(env, bound, ms[i], key) == None) ==> Lookup(r, key) == None)
  {
    forall i | 0 <= i < |ms|
      ensures Below(env, RefsOf(ms[i]), bound)
    {
      RefsOfMember(ms, i);
    }
    MembersLookUp(env, bound, [], ms, key);
    forall i | 0 <= i < |ms| && Writes(env, bound, ms[i], key).Some?
               && forall j | i < j < |ms| :: Writes(env, bound, ms[j], key) == None
      ensures LastWritten(env, bound, ms, key, None) == Writes(env, bound, ms[i], key)
    {
      LastWrittenIs(env, bound, ms, i, key, None);
    }
    if forall i | 0 <= i < |ms| :: Writes(env, bound, ms[i], key) == None {
      LastWrittenIs(env, bound, ms, |ms|, key, None);
    }
  }

  /** A reference to a definition without a slug is replaced by the definition. */
  lemma EmbedsDefinition(env: Env, bound: nat, m: Member)
    requires Acyclic(env) && IsRef(m) && Embedded(env, Target(m)) && env.rank(Target(m)) < bound && WellFormedMembers(env.defs)
    ensures Below(env, Refs(Obj([m])), bound) && Below(env, Refs(Get(env.defs, Target(m))), env.rank(Target(m)))
    ensures var definition := Rewrite(env, env.rank(Target(m)), Get(env.defs, Target(m)));
      definition.Some? && definition.value.Obj? ==> Rewrite(env, bound, Obj([m])) == definition
  {
    var name := Target(m);
    assert MemberRefs([m]) == {name};
    assert env.defs[IndexOf(env.defs, name)].key == name;
    var definition := Rewrite(env, env.rank(name), Get(env.defs, name));
    if definition.Some? && definition.value.Obj? {
      RewriteWellFormed(env, env.rank(name), Get(env.defs, name));
      assert [] + definition.value.members == definition.value.members;
      UpdateFresh([], definition.value.members);
      assert [m][1..] == [];
      assert RewriteMembers(env, bound, [], [m]) == Some(Update([], definition.value.members));
    }
  }

  lemma {:induction false} UpdateFresh(out: seq<Member>, es: seq<Member>)
    requires DistinctKeys(out + es)
    ensures Update(out, es) == out + es
    decreases |es|
  {
    if es == [] {
      assert out + es == out;
    } else {
      SetAppends(out, es, es[0].value);
      assert (out + [es[0]]) + es[1..] == out + es;
      UpdateFresh(out + [es[0]], es[1..]);
    }
  }

  // ---------------------------------------------------- references, spelled out

  /** A joined text ends with its last part, and with a separator before it if there
      are others. */
  lemma {:induction false} JoinEnds(parts: seq<string>, sep: char)
    requires parts != []
    ensures var s, last := Join(parts, sep), parts[|parts| - 1];
      && |last| <= |s| && s[|s| - |last|..] == last
      && (if |parts| == 1 then s == last else |last| < |s| && s[|s| - |last| - 1] == sep)
  {
    if |parts| > 1 {
      JoinEnds(parts[1..], sep);
      EndsStay(parts[0], sep, Join(parts[1..], sep), parts[|parts| - 1]);
    }
  }

  lemma EndsStay(first: string, sep: char, rest: string, last: string)
    requires |last| <= |rest| && rest[|rest| - |last|..] == last
    requires |last| == |rest| || rest[|rest| - |last| - 1] == sep
    ensures var s := first + [sep] + rest; s[|s| - |last|..] == last && s[|s| - |last| - 1] == sep
  {
    var s := first + [sep] + rest;
    assert forall i | 0 <= i < |rest| :: s[|first| + 1 + i] == rest[i];
  }

  lemma LastPart(s: string, sep: char)
    ensures var parts := Split(s, sep); var last := parts[|parts| - 1];
      && sep !in last && |last| <= |s| && s[|s| - |last|..] == last
      && (sep in s ==> |last| < |s| && s[|s| - |last| - 1] == sep)
  {
    SplitIs(s, sep);
    JoinEnds(Split(s, sep), sep);
  }

  /** What is a reference, and the name in it: what follows the last slash. */
  lemma ReferenceIs(m: Member)
    ensures IsRef(m) <==> m.key == "$ref" && m.value.Str? && "#/$defs/" <= m.value.s
    ensures IsRef(m) ==>
      var s, name := m.value.s, Target(m);
      '/' !in name && |name| < |s| && s[|s| - |name|..] == name && s[|s| - |name| - 1] == '/'
  {
    if IsRef(m) {
      LastPart(m.value.s, '/');
      assert m.value.s[1] == DEFS_PREFIX[1];
    }
  }

  /** A reference to a model with a slug. */
  lemma SlugReference(env: Env, bound: nat, name: string)
    requires Acyclic(env) && '/' !in name && name in env.slugs
    requires Below(env, Refs(Obj([Member("$ref", Str("#/$defs/" + name))])), bound)
    ensures Rewrite(env, bound, Obj([Member("$ref", Str("#/$defs/" + name))])) ==
      Some(Obj([Member("$ref", Str("seasi/" + env.slugs[name] + "/v1"))]))
  {
    var m := Member("$ref", Str("#/$defs/" + name));
    assert HasPrefix(m.value.s, DEFS_PREFIX);
    ReferenceIs(m);
    NamedLast(m.value.s, name, Target(m));
    assert [m][1..] == [];
    var one := Set([], REF, Str(PublicId(env.slugs[name])));
    assert RewriteMembers(env, bound, one, []) == Some(one);
    assert RewriteMembers(env, bound, [], [m]) == Some(one);
    assert one == [Member(REF, Str(PublicId(env.slugs[name])))];
  }

  lemma NamedLast(s: string, name: string, target: string)
    requires s == "#/$defs/" + name && '/' !in name && '/' !in target
    requires |target| < |s| && s[|s| - |target|..] == target && s[|s| - |target| - 1] == '/'
    ensures target == name
  {
    var p := |s| - |target| - 1;
    assert s[7] == '/' && s[8..] == name;
    assert forall i | 8 <= i < |s| :: s[i] == name[i - 8];
    assert forall i | p < i < |s| :: s[i] == target[i - p - 1];
    assert p <= 7 <= p;
  }

  /** Items are rewritten one by one, in order; a value that is no container stays. */
  lemma {:induction false} ItemsInOrder(env: Env, bound: nat, items: seq<Json>)
    requires Acyclic(env) && Below(env, ItemRefs(items), bound)
    ensures forall i | 0 <= i < |items| :: Below(env, Refs(items[i]), bound)
    ensures var r := RewriteItems(env, bound, items);
      && (r.Some? ==> |r.value| == |items| && forall i | 0 <= i < |items| :: Rewrite(env, bound, items[i]) == Some(r.value[i]))
      && (r.None? ==> exists i | 0 <= i < |items| :: Rewrite(env, bound, items[i]) == None)
  {
    if items != [] {
      ItemsInOrder(env, bound, items[1..]);
      assert forall i | 1 <= i < |items| :: items[i] == items[1..][i - 1];
    }
  }

  lemma ContainersOnly(env: Env, bound: nat, j: Json)
    requires Acyclic(env) && Below(env, Refs(j), bound)
    ensures !j.Arr? && !j.Obj? ==> Rewrite(env, bound, j) == Some(j)
    ensures j.Arr? ==> var items := RewriteItems(env, bound, j.items);
      Rewrite(env, bound, j) == if items.None? then None else Some(Arr(items.value))
  {
  }
}
