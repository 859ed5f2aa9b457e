/** The append-only registries of the kernel: capabilities, workflows, and the
    manifests of the modules that brought them. */
module Registries {
  import opened Text
  import opened Workflows

  datatype RegistryError = BlankKey | Duplicate(key: string) | UnknownKey(key: string)

  datatype Result<+T, +E> = Ok(value: T) | Err(error: E)

  /** Keys are trimmed; a key that trims to nothing is refused. */
  function Normalize(key: string): Result<string, RegistryError> {
    var normalized := Strip(key);
    if normalized == "" then Err(BlankKey) else Ok(normalized)
  }

  function Register<T>(items: map<string, T>, key: string, value: T): Result<map<string, T>, RegistryError> {
    match Normalize(key)
    case Err(e) => Err(e)
    case Ok(k) => if k in items then Err(Duplicate(k)) else Ok(items[k := value])
  }

  function Get<T>(items: map<string, T>, key: string): Result<T, RegistryError> {
    match Normalize(key)
    case Err(e) => Err(e)
    case Ok(k) => if k in items then Ok(items[k]) else Err(UnknownKey(k))
  }

  predicate Contains<T>(items: map<string, T>, key: string) {
    Get(items, key).Ok?
  }

  /** A registry only ever grows, and what it holds under a key never changes. */
  lemma RegisterKeeps<T>(items: map<string, T>, key: string, value: T, other: string)
    requires Register(items, key, value).Ok?
    ensures var after := Register(items, key, value).value;
      && Get(after, key) == Ok(value)
      && (Contains(items, other) ==> Get(after, other) == Get(items, other))
      && (Contains(after, other) ==> Contains(items, other) || Strip(other) == Strip(key))
  {
    StripIdempotent(key);
  }

  /** What the runner's lookups find. */
  function CatalogOf(actions: map<string, CapabilitySpec>): Catalog {
    c => var found := Get(actions, c); if found.Ok? then Some(found.value) else None
  }

  datatype Manifest = Manifest(moduleId: string, capabilities: seq<string>, workflows: seq<string>)

  ghost predicate Distinct(ids: seq<string>) {
    forall i, j | 0 <= i < j < |ids| :: ids[i] != ids[j]
  }

  /** No capability is declared twice, within a manifest or by two of them. */
  ghost predicate Disjoint(modules: map<string, Manifest>) {
    && (forall m | m in modules :: Distinct(modules[m].capabilities))
    && forall m, n, c | m in modules && n in modules && m != n && c in modules[m].capabilities :: c !in modules[n].capabilities
  }

  ghost predicate Declared(modules: map<string, Manifest>, actions: map<string, CapabilitySpec>) {
    forall m, c | m in modules && c in modules[m].capabilities :: Contains(actions, c)
  }

  class Registry<T> {
    var items: map<string, T>

    constructor ()
      ensures items == map[]
    {
      items := map[];
    }

    method Add(key: string, value: T) returns (error: Option<RegistryError>)
      modifies this
      ensures match Register(old(items), key, value)
        case Ok(after) => error == None && items == after
        case Err(e) => error == Some(e) && items == old(items)
    {
      var normalized := Strip(key);
      if normalized == "" {
        return Some(BlankKey);
      }
      if normalized in items {
        return Some(Duplicate(normalized));
      }
      items := items[normalized := value];
      return None;
    }
  }

  /** `assert_consistent_with`: manifest by manifest, capability by capability. The
      order of the manifests decides only which violation is reported. */
  method ConsistentWith(modules: Registry<Manifest>, actions: Registry<CapabilitySpec>) returns (ok: bool)
    ensures ok <==> Disjoint(modules.items) && Declared(modules.items, actions.items)
  {
    var seen: set<string> := {};
    var todo := modules.items.Keys;
    while todo != {}
      invariant todo <= modules.items.Keys
      invariant forall c :: c in seen <==> exists m :: m in modules.items.Keys - todo && c in modules.items[m].capabilities
      invariant forall m | m in modules.items.Keys - todo ::
        Distinct(modules.items[m].capabilities) && forall c | c in modules.items[m].capabilities :: Contains(actions.items, c)
      invariant forall m, n, c | m in modules.items.Keys - todo && n in modules.items.Keys - todo && m != n
        && c in modules.items[m].capabilities :: c !in modules.items[n].capabilities
    {
      var id :| id in todo;
      var capabilities := modules.items[id].capabilities;
      ghost var before := seen;
      var n := 0;
      while n < |capabilities|
        invariant 0 <= n <= |capabilities|
        invariant forall c :: c in seen <==> c in before || c in capabilities[..n]
        invariant Distinct(capabilities[..n])
        invariant forall c | c in capabilities[..n] :: c !in before && Contains(actions.items, c)
      {
        var c := capabilities[n];
        if c in seen {
          assert c in capabilities;
          if c in before {
            var m :| m in modules.items.Keys - todo && c in modules.items[m].capabilities;
            assert !Disjoint(modules.items);
          } else {
            assert !Distinct(capabilities);
          }
          return false;
        }
        seen := seen + {c};
        if !Contains(actions.items, c) {
          assert c in modules.items[id].capabilities;
          return false;
        }
        assert capabilities[..n + 1] == capabilities[..n] + [c];
        n := n + 1;
      }
      assert capabilities[..n] == capabilities;
      todo := todo - {id};
    }
    return true;
  }

  /** A registration succeeds when the key, trimmed, holds something and is not taken;
      it is looked up and stored under the trimmed key. */
  lemma RegisterIff<T>(items: map<string, T>, key: string, value: T)
    ensures Register(items, key, value) ==
      if Strip(key) == "" then Err(BlankKey)
      else if Strip(key) in items then Err(Duplicate(Strip(key)))
      else Ok(items[Strip(key) := value])
    ensures Get(items, key) ==
      if Strip(key) == "" then Err(BlankKey)
      else if Strip(key) in items then Ok(items[Strip(key)])
      else Err(UnknownKey(Strip(key)))
  {
  }
}
