/** What a canonical text looks like: read back it is the same value with the keys of
    every object in ascending order, and the texts that are hashed are spelled out. */
module CanonicalText {
  import opened Text
  import opened Json
  import opened JsonText
  import opened JsonRead
  import opened CanonicalJson
  import opened IntentBinding

  /** Code-point order by the first difference; a prefix comes first. */
  ghost predicate Precedes(a: string, b: string) {
    a < b || exists k | 0 <= k < |a| && k < |b| :: a[..k] == b[..k] && a[k] < b[k]
  }

  /** The keys of every object inside the value ascend. */
  ghost predicate Ascending(j: Json) {
    match j
    case Arr(items) => forall i | 0 <= i < |items| :: Ascending(items[i])
    case Obj(ms) =>
      && (forall i, j | 0 <= i < j < |ms| :: Precedes(ms[i].key, ms[j].key))
      && forall i | 0 <= i < |ms| :: Ascending(ms[i].value)
    case _ => true
  }

  lemma {:induction false} NormalAscends(j: Json)
    requires WellFormed(j)
    ensures Ascending(Normal(j))
    decreases j
  {
    match j
    case Arr(items) =>
      forall i | 0 <= i < |items|
        ensures Ascending(NormalItems(items)[i])
      {
        NormalAscends(items[i]);
      }
    case Obj(ms) =>
      var p := NormalMembers(ms);
      forall i | 0 <= i < |ms|
        ensures Ascending(p[i].value)
      {
        assert ms[i] in ms;
        NormalAscends(ms[i].value);
      }
      SortAscends(p);
    case _ =>
  }

  lemma SortAscends(ms: seq<Member>)
    requires DistinctKeys(ms) && forall i | 0 <= i < |ms| :: Ascending(ms[i].value)
    ensures Ascending(Obj(Sort(ms)))
  {
    SortedKeys(ms);
    forall i | 0 <= i < |Sort(ms)|
      ensures Ascending(Sort(ms)[i].value)
    {
      Kept(ms, i);
    }
  }

  lemma Kept(ms: seq<Member>, i: nat)
    requires i < |Sort(ms)|
    ensures exists k | 0 <= k < |ms| :: ms[k] == Sort(ms)[i]
  {
    assert Sort(ms)[i] in multiset(ms);
  }

  lemma SortedKeys(ms: seq<Member>)
    requires DistinctKeys(ms)
    ensures forall i, j | 0 <= i < j < |Sort(ms)| :: Precedes(Sort(ms)[i].key, Sort(ms)[j].key)
  {
    var r := Sort(ms);
    SortSorted(ms);
    SortDistinct(ms);
    forall i, j | 0 <= i < j < |r|
      ensures Precedes(r[i].key, r[j].key)
    {
      LexLeqIff(r[i].key, r[j].key);
    }
  }

  lemma {:induction false} NormalIsSame(j: Json)
    requires WellFormed(j)
    ensures Same(j, Normal(j))
    decreases j
  {
    match j
    case Arr(items) =>
      forall i | 0 <= i < |items|
        ensures Same(items[i], NormalItems(items)[i])
      {
        NormalIsSame(items[i]);
      }
    case Obj(ms) =>
      var p, r := NormalMembers(ms), Sort(NormalMembers(ms));
      assert |multiset(r)| == |multiset(p)|;
      SortDistinct(p);
      forall i | 0 <= i < |ms|
        ensures Has(r, ms[i].key) && Same(ms[i].value, Get(r, ms[i].key))
      {
        assert p[i] in multiset(r);
        var k :| 0 <= k < |r| && r[k] == p[i];
        IndexIs(r, ms[i].key, k);
        assert ms[i] in ms;
        NormalIsSame(ms[i].value);
      }
    case _ =>
  }

  /** The canonical text of a value is JSON: a reader gets back the same value, with
      ascending keys at every level and nothing left over. */
  lemma CanonicalReads(j: Json)
    requires WellFormed(j)
    ensures var r := ReadValue(Canonical(j)); r.Good? && Same(j, r.value) && Ascending(r.value) && r.rest == ""
  {
    ReadsBack(Normal(j));
    NormalIsSame(j);
    NormalAscends(j);
  }

  // ------------------------------------------------------- texts, spelled out

  ghost predicate Stepwise(ms: seq<Member>) {
    forall i | 0 <= i < |ms| - 1 :: LexLeq(ms[i].key, ms[i + 1].key) && ms[i].key != ms[i + 1].key
  }

  /** The same members in another order. */
  ghost predicate Relists(ms: seq<Member>, ns: seq<Member>) {
    && |ms| == |ns|
    && (forall i | 0 <= i < |ms| :: ms[i] in ns)
    && forall i | 0 <= i < |ns| :: ns[i] in ms
  }

  /** An object whose members come in ascending order when listed as `ns`. */
  lemma SortedText(ms: Dict, ns: seq<Member>)
    requires Relists(ms, ns) && Stepwise(ns)
    ensures Canonical(Obj(ms)) == "{" + Join(Entries(ns), ',') + "}"
  {
    var q := NormalMembers(ns);
    StepwiseSorted(ns);
    assert WellFormedMembers(ns);
    RelistedSame(ms, ns);
    CanonicalIff(Obj(ms), Obj(ns));
    EntriesText(ns);
    SortSorted(q);
    SortDistinct(q);
    SortedUnique(Sort(q), q);
  }

  lemma RelistedSame(ms: Dict, ns: Dict)
    requires Relists(ms, ns)
    ensures Same(Obj(ms), Obj(ns))
  {
    forall i | 0 <= i < |ms|
      ensures Has(ns, ms[i].key) && Same(ms[i].value, Get(ns, ms[i].key))
    {
      assert ms[i] in ns;
      var k :| 0 <= k < |ns| && ns[k] == ms[i];
      IndexIs(ns, ms[i].key, k);
      CanonicalIff(ms[i].value, ms[i].value);
    }
  }

  lemma {:induction false} StepwiseSorted(ms: seq<Member>)
    requires Stepwise(ms)
    ensures Sorted(ms) && DistinctKeys(ms)
  {
    forall i, j | 0 <= i < j < |ms|
      ensures LexLeq(ms[i].key, ms[j].key) && ms[i].key != ms[j].key
    {
      Chain(ms, i, j);
      if i + 1 < j && ms[i].key == ms[j].key {
        Chain(ms, i + 1, j);
        LexAntisymmetric(ms[i].key, ms[i + 1].key);
      }
    }
  }

  lemma {:induction false} Chain(ms: seq<Member>, i: nat, j: nat)
    requires Stepwise(ms)
    requires i < j < |ms|
    ensures LexLeq(ms[i].key, ms[j].key)
    decreases j - i
  {
    if i + 1 < j {
      Chain(ms, i, j - 1);
      LexTransitive(ms[i].key, ms[j - 1].key, ms[j].key);
    }
  }

  function Entries(ms: seq<Member>): (r: seq<string>)
    ensures |r| == |ms|
    ensures forall i | 0 <= i < |r| :: r[i] == Quoted(ms[i].key) + ":" + Canonical(ms[i].value)
  {
    seq(|ms|, i requires 0 <= i < |ms| => Quoted(ms[i].key) + ":" + Canonical(ms[i].value))
  }

  lemma {:induction false} EntriesText(ms: seq<Member>)
    ensures PrintMembers(NormalMembers(ms)) == Join(Entries(ms), ',')
  {
    if |ms| > 1 {
      EntriesText(ms[1..]);
      var p := NormalMembers(ms);
      assert p[1..] == NormalMembers(ms[1..]) && Entries(ms)[1..] == Entries(ms[1..]);
      assert [','] == ",";
    }
  }

  /** A text without control characters, quotes and backslashes is quoted as it is. */
  lemma {:induction false} PlainText(s: string)
    requires forall i | 0 <= i < |s| :: s[i] >= ' ' && s[i] != '\"' && s[i] != '\\'
    ensures EscapeAll(s) == s
  {
    if s != "" {
      PlainText(s[1..]);
    }
  }

  /** A field of an object as a text. */
  function Field(name: string, text: string): string {
    "\"" + name + "\":" + text
  }

  predicate Plain(name: string) {
    forall k | 0 <= k < |name| :: name[k] == '_' || 'a' <= name[k] <= 'z'
  }

  lemma PlainKey(ms: seq<Member>, i: nat)
    requires i < |ms| && Plain(ms[i].key)
    ensures Entries(ms)[i] == Field(ms[i].key, Canonical(ms[i].value))
  {
    PlainText(ms[i].key);
    Assoc3("\"" + ms[i].key, "\"", ":");
  }

  lemma Assoc3(a: string, b: string, c: string)
    ensures a + b + c == a + (b + c)
  {
  }

  function FieldOf(m: Member): string {
    Field(m.key, Canonical(m.value))
  }

  function FieldsOf(ms: seq<Member>): (r: seq<string>)
    ensures |r| == |ms| && forall i | 0 <= i < |r| :: r[i] == FieldOf(ms[i])
  {
    seq(|ms|, i requires 0 <= i < |ms| => FieldOf(ms[i]))
  }

  ghost predicate PlainKeys(ms: seq<Member>) {
    forall i | 0 <= i < |ms| :: Plain(ms[i].key)
  }

  /** An object's text, field by field: `ns` lists the members in ascending order. */
  lemma FieldsText(ms: Dict, ns: seq<Member>)
    requires Relists(ms, ns) && Stepwise(ns) && PlainKeys(ns)
    ensures Canonical(Obj(ms)) == "{" + Join(FieldsOf(ns), ',') + "}"
  {
    SortedText(ms, ns);
    forall i | 0 <= i < |ns|
      ensures Entries(ns)[i] == FieldOf(ns[i])
    {
      PlainKey(ns, i);
    }
    assert Entries(ns) == FieldsOf(ns);
  }

  predicate Follows(a: string, b: string) {
    LexLeq(a, b) && a != b
  }

  lemma Differ(a: string, b: string, k: nat)
    requires k < |a| && k < |b| && a[..k] == b[..k] && a[k] < b[k]
    ensures Follows(a, b)
  {
    LexLeqIff(a, b);
  }

  function RefText(ref: Option<string>): string {
    if ref.None? then "null" else Quoted(ref.value)
  }

  lemma FiveStepwise(a: Member, b: Member, c: Member, d: Member, e: Member)
    requires Follows(a.key, b.key) && Follows(b.key, c.key) && Follows(c.key, d.key) && Follows(d.key, e.key)
    requires Plain(a.key) && Plain(b.key) && Plain(c.key) && Plain(d.key) && Plain(e.key)
    ensures Stepwise([a, b, c, d, e]) && PlainKeys([a, b, c, d, e])
    ensures FieldsOf([a, b, c, d, e]) == [FieldOf(a), FieldOf(b), FieldOf(c), FieldOf(d), FieldOf(e)]
  {
  }

  lemma FiveFields(ms: Dict, a: Member, b: Member, c: Member, d: Member, e: Member)
    requires Relists(ms, [a, b, c, d, e])
    requires Follows(a.key, b.key) && Follows(b.key, c.key) && Follows(c.key, d.key) && Follows(d.key, e.key)
    requires Plain(a.key) && Plain(b.key) && Plain(c.key) && Plain(d.key) && Plain(e.key)
    ensures Canonical(Obj(ms)) == "{" + Join([FieldOf(a), FieldOf(b), FieldOf(c), FieldOf(d), FieldOf(e)], ',') + "}"
  {
    FiveStepwise(a, b, c, d, e);
    FieldsText(ms, [a, b, c, d, e]);
  }

  lemma ScalarTexts(s: string, n: int, ref: Option<string>)
    ensures Canonical(Str(s)) == Quoted(s) && Canonical(Int(n)) == IntText(n) && Canonical(RefJson(ref)) == RefText(ref)
  {
  }

  /** The text behind every seal, spelled out. */
  lemma MaterialText(tenant: Tenant, capabilityId: string, payload: Dict)
    ensures Material(tenant, capabilityId, payload) == "{" + Join([
      Field("capability_id", Quoted(capabilityId)),
      Field("case_ref", RefText(tenant.caseRef)),
      Field("payload", Canonical(Obj(payload))),
      Field("project_ref", RefText(tenant.projectRef)),
      Field("tenant_id", Quoted(tenant.tenantId))], ',') + "}"
  {
    var ms := Binding(tenant, capabilityId, payload);
    BindingOrder();
    BindingNames();
    ScalarTexts(capabilityId, 0, tenant.caseRef);
    ScalarTexts(tenant.tenantId, 0, tenant.projectRef);
    FiveFields(ms, ms[3], ms[1], ms[4], ms[2], ms[0]);
  }

  lemma BindingNames()
    ensures Plain("capability_id") && Plain("case_ref") && Plain("payload") && Plain("project_ref") && Plain("tenant_id")
  {
  }

  lemma BindingOrder()
    ensures Follows("capability_id", "case_ref") && Follows("case_ref", "payload")
    ensures Follows("payload", "project_ref") && Follows("project_ref", "tenant_id")
  {
    Differ("capability_id", "case_ref", 2);
    Differ("case_ref", "payload", 0);
    Differ("payload", "project_ref", 1);
    Differ("project_ref", "tenant_id", 0);
  }

  /** One text, character by character: keys in order, no spaces, an escape, a
      character that stands for itself, a negative number, and words. */
  lemma CanonicalExample()
    ensures Canonical(Obj([Member("b", Arr([Bool(true), Null, Int(-12)])), Member("a", Str("\"\U{E9}"))])) ==
      "{\"a\":\"\\\"\U{E9}\",\"b\":[true,null,-12]}"
  {
    var a, b := Member("a", Str("\"\U{E9}")), Member("b", Arr([Bool(true), Null, Int(-12)]));
    Differ("a", "b", 0);
    StringExample();
    ListExample();
    TwoFields(a, b);
    FieldExamples();
    Glued();
  }

  lemma FieldExamples()
    ensures Field("a", "\"\\\"\U{E9}\"") == "\"a\":\"\\\"\U{E9}\""
    ensures Field("b", "[true,null,-12]") == "\"b\":[true,null,-12]"
  {
  }

  lemma Glued()
    ensures "{" + ("\"a\":\"\\\"\U{E9}\"" + "," + "\"b\":[true,null,-12]") + "}" == "{\"a\":\"\\\"\U{E9}\",\"b\":[true,null,-12]}"
  {
  }

  /** The escapes that are written, of those a reader accepts. */
  lemma EscapesSpelled(c: char)
    ensures EscapeAll("\"\\\n\r\t") == "\\\"\\\\\\n\\r\\t" && EscapeAll("\U{08}\U{0C}\U{1F}") == "\\b\\f\\u001f"
    ensures c >= ' ' && c != '\"' && c != '\\' ==> EscapeAll([c]) == [c]
  {
    assert "\"\\\n\r\t"[1..] == "\\\n\r\t" && "\\\n\r\t"[1..] == "\n\r\t" && "\n\r\t"[1..] == "\r\t" && "\r\t"[1..] == "\t";
    assert EscapeAll("\t") == "\\t";
    assert EscapeAll("\r\t") == "\\r\\t";
    assert EscapeAll("\n\r\t") == "\\n\\r\\t";
    assert EscapeAll("\\\n\r\t") == "\\\\\\n\\r\\t";
    assert "\U{08}\U{0C}\U{1F}"[1..] == "\U{0C}\U{1F}" && "\U{0C}\U{1F}"[1..] == "\U{1F}";
    assert EscapeAll("\U{1F}") == "\\u001f";
    assert EscapeAll("\U{0C}\U{1F}") == "\\f\\u001f";
  }

  lemma TwoFields(a: Member, b: Member)
    requires WellFormed(a.value) && WellFormed(b.value)
    requires Follows(a.key, b.key) && Plain(a.key) && Plain(b.key)
    ensures Canonical(Obj([b, a])) == "{" + (FieldOf(a) + "," + FieldOf(b)) + "}"
  {
    var fields := FieldsOf([a, b]);
    FieldsText([b, a], [a, b]);
    assert fields == [FieldOf(a), FieldOf(b)] && fields[1..] == [FieldOf(b)];
    assert [','] == ",";
  }

  lemma StringExample()
    ensures Canonical(Str("\"\U{E9}")) == "\"\\\"\U{E9}\""
  {
    assert "\"\U{E9}"[1..] == "\U{E9}" && "\U{E9}"[1..] == "";
    assert EscapeAll("\U{E9}") == "\U{E9}";
    assert EscapeAll("\"\U{E9}") == "\\\"\U{E9}";
  }

  lemma ListExample()
    ensures Canonical(Arr([Bool(true), Null, Int(-12)])) == "[true,null,-12]"
  {
    var items := [Bool(true), Null, Int(-12)];
    assert NormalItems(items) == items;
    assert items[1..] == [Null, Int(-12)] && items[1..][1..] == [Int(-12)];
    assert Digits(12) == "12";
    assert Print(Int(-12)) == "-12";
    assert PrintItems([Int(-12)]) == "-12";
    assert PrintItems([Null, Int(-12)]) == "null,-12";
  }
}
