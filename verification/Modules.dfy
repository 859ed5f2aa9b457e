/** Product modules: the builder that checks them, and the handshake that installs
    them into the kernel's registries. */
module Modules {
  import opened Text
  import opened Workflows
  import opened Registries
  import RunnerSpec

  /** A loaded module; `handlers` are the capabilities that have one. */
  datatype Module = Module(
    manifest: Manifest, capabilities: seq<CapabilitySpec>, workflows: seq<Definition>, handlers: set<string>)

  function CapabilityIds(specs: seq<CapabilitySpec>): (ids: seq<string>)
    ensures |ids| == |specs| && forall i | 0 <= i < |ids| :: ids[i] == specs[i].capabilityId
  {
    seq(|specs|, i requires 0 <= i < |specs| => specs[i].capabilityId)
  }

  function WorkflowIds(defs: seq<Definition>): (ids: seq<string>)
    ensures |ids| == |defs| && forall i | 0 <= i < |ids| :: ids[i] == defs[i].workflowId
  {
    seq(|defs|, i requires 0 <= i < |defs| => defs[i].workflowId)
  }

  // ----------------------------------------------------------------- sorted ids

  function InsertId(id: string, ids: seq<string>): seq<string> {
    if ids == [] || LexLeq(id, ids[0]) then [id] + ids else [ids[0]] + InsertId(id, ids[1..])
  }

  function SortIds(ids: seq<string>): seq<string> {
    if ids == [] then [] else InsertId(ids[0], SortIds(ids[1..]))
  }

  lemma {:induction false} InsertIdIs(id: string, ids: seq<string>)
    ensures multiset(InsertId(id, ids)) == multiset(ids) + multiset{id}
  {
    if ids != [] && !LexLeq(id, ids[0]) {
      InsertIdIs(id, ids[1..]);
      assert ids == [ids[0]] + ids[1..];
    }
  }

  lemma {:induction false} SortIdsIs(ids: seq<string>)
    ensures multiset(SortIds(ids)) == multiset(ids)
  {
    if ids != [] {
      SortIdsIs(ids[1..]);
      InsertIdIs(ids[0], SortIds(ids[1..]));
      assert ids == [ids[0]] + ids[1..];
    }
  }

  /** Sorting keeps the ids and brings no repetition. */
  lemma SortedIds(ids: seq<string>)
    ensures forall id :: id in SortIds(ids) <==> id in ids
    ensures Distinct(ids) ==> Distinct(SortIds(ids))
  {
    SortIdsIs(ids);
    forall id
      ensures id in SortIds(ids) <==> id in ids
    {
      assert id in multiset(SortIds(ids)) <==> id in multiset(ids);
    }
    if Distinct(ids) {
      forall i, j | 0 <= i < j < |SortIds(ids)|
        ensures SortIds(ids)[i] != SortIds(ids)[j]
      {
        if SortIds(ids)[i] == SortIds(ids)[j] {
          TwiceCounted(SortIds(ids), i, j);
          OnceCounted(ids, SortIds(ids)[i]);
        }
      }
    }
  }

  lemma TwiceCounted(ids: seq<string>, i: nat, j: nat)
    requires i < j < |ids| && ids[i] == ids[j]
    ensures multiset(ids)[ids[i]] >= 2
  {
    assert ids == ids[..i] + [ids[i]] + ids[i + 1..j] + [ids[j]] + ids[j + 1..];
  }

  lemma {:induction false} OnceCounted(ids: seq<string>, id: string)
    requires Distinct(ids)
    ensures multiset(ids)[id] <= 1
  {
    if ids != [] {
      OnceCounted(ids[1..], id);
      assert ids == [ids[0]] + ids[1..];
      if ids[0] == id {
        assert id !in ids[1..];
        assert id !in multiset(ids[1..]);
      }
    }
  }

  // -------------------------------------------------------------------- builder

  datatype BuildError = DuplicateCapabilities | UnknownHandlers | DuplicateWorkflows | ForeignCapability(workflowId: string)

  predicate Owns(specs: seq<CapabilitySpec>, def: Definition) {
    forall c | c in ReferencedCapabilities(def) :: c in CapabilityIds(specs)
  }

  /** What the builder lets through. */
  ghost predicate Buildable(specs: seq<CapabilitySpec>, defs: seq<Definition>, handlers: set<string>) {
    && Distinct(CapabilityIds(specs))
    && (forall h | h in handlers :: h in CapabilityIds(specs))
    && Distinct(WorkflowIds(defs))
    && forall i | 0 <= i < |defs| :: Owns(specs, defs[i])
  }

  /** What each error says of the builder's contents. */
  ghost predicate Blames(specs: seq<CapabilitySpec>, defs: seq<Definition>, handlers: set<string>, error: BuildError) {
    match error
    case DuplicateCapabilities => !Distinct(CapabilityIds(specs))
    case UnknownHandlers => exists h | h in handlers :: h !in CapabilityIds(specs)
    case DuplicateWorkflows => !Distinct(WorkflowIds(defs))
    case ForeignCapability(id) => exists i | 0 <= i < |defs| :: defs[i].workflowId == id && !Owns(specs, defs[i])
  }

  function Built(moduleId: string, specs: seq<CapabilitySpec>, defs: seq<Definition>, handlers: set<string>): Module {
    Module(Manifest(moduleId, SortIds(CapabilityIds(specs)), SortIds(WorkflowIds(defs))), specs, defs, handlers)
  }

  ghost predicate BuilderMade(m: Module) {
    Buildable(m.capabilities, m.workflows, m.handlers) && m == Built(m.manifest.moduleId, m.capabilities, m.workflows, m.handlers)
  }

  /** The ids that occur more than once. */
  method Duplicates(ids: seq<string>) returns (dupes: set<string>)
    ensures forall id :: id in dupes <==> exists i, j :: 0 <= i < j < |ids| && ids[i] == id && ids[j] == id
    ensures dupes == {} <==> Distinct(ids)
  {
    dupes := {};
    var seen: set<string> := {};
    var n := 0;
    while n < |ids|
      invariant 0 <= n <= |ids|
      invariant forall id :: id in seen <==> exists i :: 0 <= i < n && ids[i] == id
      invariant forall id :: id in dupes <==> exists i, j :: 0 <= i < j < n && ids[i] == id && ids[j] == id
    {
      if ids[n] in seen {
        dupes := dupes + {ids[n]};
      }
      seen := seen + {ids[n]};
      n := n + 1;
    }
    if dupes != {} {
      var id :| id in dupes;
    } else {
      forall i, j | 0 <= i < j < |ids|
        ensures ids[i] != ids[j]
      {
        assert ids[i] !in dupes;
      }
    }
  }

  class ModuleBuilder {
    const moduleId: string
    var capabilities: seq<CapabilitySpec>
    var workflows: seq<Definition>
    var handlers: set<string>

    constructor (moduleId: string)
      ensures this.moduleId == moduleId && capabilities == [] && workflows == [] && handlers == {}
    {
      this.moduleId, capabilities, workflows, handlers := moduleId, [], [], {};
    }

    method Capability(spec: CapabilitySpec)
      modifies this`capabilities
      ensures capabilities == old(capabilities) + [spec]
    {
      capabilities := capabilities + [spec];
    }

    method Workflow(def: Definition)
      modifies this`workflows
      ensures workflows == old(workflows) + [def]
    {
      workflows := workflows + [def];
    }

    method Handler(capabilityId: string)
      modifies this`handlers
      ensures handlers == old(handlers) + {capabilityId}
    {
      handlers := handlers + {capabilityId};
    }

    /** The module, exactly when everything in it is its own and declared once. */
    method Build() returns (r: Result<Module, BuildError>)
      ensures r.Ok? <==> Buildable(capabilities, workflows, handlers)
      ensures r.Ok? ==> r.value == Built(moduleId, capabilities, workflows, handlers) && BuilderMade(r.value)
      ensures r.Err? ==> Blames(capabilities, workflows, handlers, r.error)
    {
      var capabilityIds := CapabilityIds(capabilities);
      var dupes := Duplicates(capabilityIds);
      if dupes != {} {
        return Err(DuplicateCapabilities);
      }
      if exists h | h in handlers :: h !in capabilityIds {
        return Err(UnknownHandlers);
      }
      dupes := Duplicates(WorkflowIds(workflows));
      if dupes != {} {
        return Err(DuplicateWorkflows);
      }
      var n := 0;
      while n < |workflows|
        invariant 0 <= n <= |workflows|
        invariant forall i | 0 <= i < n :: Owns(capabilities, workflows[i])
      {
        if !Owns(capabilities, workflows[n]) {
          return Err(ForeignCapability(workflows[n].workflowId));
        }
        n := n + 1;
      }
      return Ok(Built(moduleId, capabilities, workflows, handlers));
    }
  }

  // -------------------------------------------------------------------- install

  datatype InstallError =
    | Registration(cause: RegistryError)
    | UnknownCapabilities(workflowId: string)
    | Inconsistent
    | ManifestMismatch

  datatype Stage<T> = Stage(items: map<string, T>, error: Option<InstallError>)

  datatype Kernel = Kernel(
    actions: map<string, CapabilitySpec>, workflows: map<string, Definition>, modules: map<string, Manifest>)

  function AddCapabilities(actions: map<string, CapabilitySpec>, specs: seq<CapabilitySpec>): Stage<CapabilitySpec>
    decreases |specs|
  {
    if specs == [] then Stage(actions, None)
    else
      match Register(actions, specs[0].capabilityId, specs[0])
      case Err(e) => Stage(actions, Some(Registration(e)))
      case Ok(more) => AddCapabilities(more, specs[1..])
  }

  predicate Supported(actions: map<string, CapabilitySpec>, def: Definition) {
    forall c | c in ReferencedCapabilities(def) :: Contains(actions, c)
  }

  function AddWorkflows(actions: map<string, CapabilitySpec>, workflows: map<string, Definition>, defs: seq<Definition>)
    : Stage<Definition>
    decreases |defs|
  {
    if defs == [] then Stage(workflows, None)
    else if !Supported(actions, defs[0]) then Stage(workflows, Some(UnknownCapabilities(defs[0].workflowId)))
    else
      match Register(workflows, defs[0].workflowId, defs[0])
      case Err(e) => Stage(workflows, Some(Registration(e)))
      case Ok(more) => AddWorkflows(actions, more, defs[1..])
  }

  datatype Installed = Installed(kernel: Kernel, error: Option<InstallError>)

  /** The handshake. What was registered before a failure stays registered. */
  ghost function Install(k: Kernel, m: Module): Installed {
    var caps := AddCapabilities(k.actions, m.capabilities);
    var k1 := k.(actions := caps.items);
    if caps.error.Some? then Installed(k1, caps.error)
    else
      var flows := AddWorkflows(k1.actions, k1.workflows, m.workflows);
      var k2 := k1.(workflows := flows.items);
      if flows.error.Some? then Installed(k2, flows.error)
      else
        match Register(k2.modules, m.manifest.moduleId, m.manifest)
        case Err(e) => Installed(k2, Some(Registration(e)))
        case Ok(modules) =>
          var k3 := k2.(modules := modules);
          if !(Disjoint(k3.modules) && Declared(k3.modules, k3.actions)) then Installed(k3, Some(Inconsistent))
          else if (set id | id in m.manifest.workflows) != (set id | id in WorkflowIds(m.workflows)) then
            Installed(k3, Some(ManifestMismatch))
          else Installed(k3, None)
  }

  method InstallModule(m: Module, actions: Registry<CapabilitySpec>, modules: Registry<Manifest>, workflows: Registry<Definition>)
    returns (error: Option<InstallError>)
    modifies actions, modules, workflows
    ensures Installed(Kernel(actions.items, workflows.items, modules.items), error)
         == Install(Kernel(old(actions.items), old(workflows.items), old(modules.items)), m)
  {
    var n := 0;
    while n < |m.capabilities|
      invariant 0 <= n <= |m.capabilities|
      invariant AddCapabilities(actions.items, m.capabilities[n..]) == AddCapabilities(old(actions.items), m.capabilities)
      invariant modules.items == old(modules.items) && workflows.items == old(workflows.items)
    {
      assert m.capabilities[n..][0] == m.capabilities[n] && m.capabilities[n..][1..] == m.capabilities[n + 1..];
      var refused := actions.Add(m.capabilities[n].capabilityId, m.capabilities[n]);
      if refused.Some? {
        return Some(Registration(refused.value));
      }
      n := n + 1;
    }
    assert m.capabilities[n..] == [];
    error := InstallWorkflows(m.workflows, actions, workflows);
    if error.Some? {
      return;
    }
    var refused := modules.Add(m.manifest.moduleId, m.manifest);
    if refused.Some? {
      return Some(Registration(refused.value));
    }
    var consistent := ConsistentWith(modules, actions);
    if !consistent {
      return Some(Inconsistent);
    }
    if (set id | id in m.manifest.workflows) != (set id | id in WorkflowIds(m.workflows)) {
      return Some(ManifestMismatch);
    }
    return None;
  }

  method InstallWorkflows(defs: seq<Definition>, actions: Registry<CapabilitySpec>, workflows: Registry<Definition>)
    returns (error: Option<InstallError>)
    modifies workflows
    ensures Stage(workflows.items, error) == AddWorkflows(actions.items, old(workflows.items), defs)
  {
    var n := 0;
    while n < |defs|
      invariant 0 <= n <= |defs|
      invariant AddWorkflows(actions.items, workflows.items, defs[n..]) == AddWorkflows(actions.items, old(workflows.items), defs)
    {
      assert defs[n..][0] == defs[n] && defs[n..][1..] == defs[n + 1..];
      if !Supported(actions.items, defs[n]) {
        return Some(UnknownCapabilities(defs[n].workflowId));
      }
      var refused := workflows.Add(defs[n].workflowId, defs[n]);
      if refused.Some? {
        return Some(Registration(refused.value));
      }
      n := n + 1;
    }
    assert defs[n..] == [];
    return None;
  }

  // ------------------------------------------------------------------ coherence

  /** Every registered workflow names only registered capabilities, and the
      registered manifests have disjoint, registered capabilities. */
  ghost predicate Coherent(k: Kernel) {
    && (forall w | w in k.workflows :: Supported(k.actions, k.workflows[w]))
    && Disjoint(k.modules)
    && Declared(k.modules, k.actions)
  }

  /** Registering capabilities keeps what was there and, when none is refused, adds
      exactly the keys of the given ids, none of which was taken. */
  lemma {:induction false} AddedCapabilities(actions: map<string, CapabilitySpec>, specs: seq<CapabilitySpec>, c: string)
    ensures var stage := AddCapabilities(actions, specs);
      && (Contains(actions, c) ==> Get(stage.items, c) == Get(actions, c))
      && (stage.error.None? && c in CapabilityIds(specs) ==> Contains(stage.items, c) && !Contains(actions, c))
    decreases |specs|
  {
    if specs != [] {
      var registered := Register(actions, specs[0].capabilityId, specs[0]);
      if registered.Ok? {
        RegisterKeeps(actions, specs[0].capabilityId, specs[0], c);
        assert !Contains(actions, specs[0].capabilityId) && Contains(registered.value, specs[0].capabilityId);
        AddedCapabilities(registered.value, specs[1..], c);
        var ids := CapabilityIds(specs);
        assert CapabilityIds(specs[1..]) == ids[1..];
        assert ids == [ids[0]] + ids[1..];
      }
    }
  }

  lemma {:induction false} AddedWorkflows(actions: map<string, CapabilitySpec>, workflows: map<string, Definition>, defs: seq<Definition>)
    requires forall w | w in workflows :: Supported(actions, workflows[w])
    ensures var stage := AddWorkflows(actions, workflows, defs); forall w | w in stage.items :: Supported(actions, stage.items[w])
    decreases |defs|
  {
    if defs != [] && Supported(actions, defs[0]) {
      var registered := Register(workflows, defs[0].workflowId, defs[0]);
      if registered.Ok? {
        AddedWorkflows(actions, registered.value, defs[1..]);
        assert AddWorkflows(actions, workflows, defs) == AddWorkflows(actions, registered.value, defs[1..]);
      }
    }
  }

  /** What an install leaves in each registry, however it ends. */
  lemma {:induction false} InstallCases(k: Kernel, m: Module)
    ensures var caps := AddCapabilities(k.actions, m.capabilities);
      var flows := AddWorkflows(caps.items, k.workflows, m.workflows);
      var registered := Register(k.modules, m.manifest.moduleId, m.manifest);
      var after := Install(k, m).kernel;
      && after.actions == caps.items
      && (after.workflows == k.workflows || after.workflows == flows.items)
      && (after.modules == k.modules || (caps.error.None? && registered == Ok(after.modules)))
  {
    var caps := AddCapabilities(k.actions, m.capabilities);
    if caps.error.None? {
      var flows := AddWorkflows(caps.items, k.workflows, m.workflows);
      if flows.error.None? {
        var registered := Register(k.modules, m.manifest.moduleId, m.manifest);
        assert registered.Ok? ==> Install(k, m).kernel == Kernel(caps.items, flows.items, registered.value);
      } else {
        assert Install(k, m).kernel == Kernel(caps.items, flows.items, k.modules);
      }
    } else {
      assert Install(k, m).kernel == Kernel(caps.items, k.workflows, k.modules);
    }
  }

  lemma {:induction false} FinalErrors(k: Kernel, m: Module)
    ensures var caps := AddCapabilities(k.actions, m.capabilities);
      var registered := Register(k.modules, m.manifest.moduleId, m.manifest);
      var error := Install(k, m).error;
      && (error == Some(Inconsistent) ==>
            caps.error.None? && registered.Ok? && !(Disjoint(registered.value) && Declared(registered.value, caps.items)))
      && (error == Some(ManifestMismatch) ==>
            exists id :: (id in m.manifest.workflows) != (id in WorkflowIds(m.workflows)))
  {
    NoMismatchInStages(k.actions, m.capabilities);
    FlowErrors(AddCapabilities(k.actions, m.capabilities).items, k.workflows, m.workflows);
  }

  lemma {:induction false} NoMismatchInStages(actions: map<string, CapabilitySpec>, specs: seq<CapabilitySpec>)
    ensures var error := AddCapabilities(actions, specs).error; error.Some? ==> error.value.Registration?
    decreases |specs|
  {
    if specs != [] {
      var registered := Register(actions, specs[0].capabilityId, specs[0]);
      if registered.Ok? {
        NoMismatchInStages(registered.value, specs[1..]);
      }
    }
  }

  lemma {:induction false} FlowErrors(actions: map<string, CapabilitySpec>, workflows: map<string, Definition>, defs: seq<Definition>)
    ensures var error := AddWorkflows(actions, workflows, defs).error;
      error.Some? ==> error.value.Registration? || error.value.UnknownCapabilities?
    decreases |defs|
  {
    if defs != [] && Supported(actions, defs[0]) {
      var registered := Register(workflows, defs[0].workflowId, defs[0]);
      if registered.Ok? {
        FlowErrors(actions, registered.value, defs[1..]);
      }
    }
  }

  lemma SupportedKept(k: Kernel, m: Module)
    requires Coherent(k)
    ensures var actions := AddCapabilities(k.actions, m.capabilities).items;
      && (forall w | w in k.workflows :: Supported(actions, k.workflows[w]))
      && Declared(k.modules, actions)
  {
    var actions := AddCapabilities(k.actions, m.capabilities).items;
    forall c | Contains(k.actions, c)
      ensures Contains(actions, c)
    {
      AddedCapabilities(k.actions, m.capabilities, c);
    }
  }

  /** A new manifest whose capabilities have just been registered keeps the manifests
      disjoint and declared. */
  lemma ManifestFits(k: Kernel, m: Module, modules: map<string, Manifest>)
    requires Coherent(k) && BuilderMade(m)
    requires AddCapabilities(k.actions, m.capabilities).error.None?
    requires Register(k.modules, m.manifest.moduleId, m.manifest) == Ok(modules)
    ensures Disjoint(modules) && Declared(modules, AddCapabilities(k.actions, m.capabilities).items)
  {
    SupportedKept(k, m);
    SortedIds(CapabilityIds(m.capabilities));
    forall c | c in m.manifest.capabilities
      ensures Contains(AddCapabilities(k.actions, m.capabilities).items, c) && !Contains(k.actions, c)
    {
      AddedCapabilities(k.actions, m.capabilities, c);
    }
  }

  /** An install of a module from the builder keeps the registries coherent whether
      it succeeds or fails, and neither of its two final checks can be what fails. */
  lemma InstallKeepsCoherent(k: Kernel, m: Module)
    requires Coherent(k) && BuilderMade(m)
    ensures Coherent(Install(k, m).kernel)
    ensures Install(k, m).error != Some(Inconsistent) && Install(k, m).error != Some(ManifestMismatch)
  {
    SupportedKept(k, m);
    var caps := AddCapabilities(k.actions, m.capabilities);
    AddedWorkflows(caps.items, k.workflows, m.workflows);
    var registered := Register(k.modules, m.manifest.moduleId, m.manifest);
    InstallCases(k, m);
    FinalErrors(k, m);
    SortedIds(WorkflowIds(m.workflows));
    if caps.error.None? && registered.Ok? {
      ManifestFits(k, m, registered.value);
    }
  }

  /** A failed install is not undone: whatever became of the first attempt, a second
      one is refused over the first capability. */
  lemma RetryRefused(k: Kernel, m: Module)
    requires m.capabilities != [] && Normalize(m.capabilities[0].capabilityId).Ok?
    ensures Install(Install(k, m).kernel, m).error == Some(Registration(Duplicate(Strip(m.capabilities[0].capabilityId))))
  {
    var spec := m.capabilities[0];
    var registered := Register(k.actions, spec.capabilityId, spec);
    InstallCases(k, m);
    if registered.Ok? {
      RegisterKeeps(k.actions, spec.capabilityId, spec, spec.capabilityId);
      AddedCapabilities(registered.value, m.capabilities[1..], spec.capabilityId);
    }
    assert Contains(Install(k, m).kernel.actions, spec.capabilityId);
  }

  ghost function InstallAll(k: Kernel, ms: seq<Module>): Kernel {
    if ms == [] then k else Install(InstallAll(k, ms[..|ms| - 1]), ms[|ms| - 1]).kernel
  }

  /** After any sequence of installs, failed ones among them, the registries are
      coherent, and `start` rejects none of the registered workflows. */
  lemma {:induction false} InstalledWorkflowsStart(ms: seq<Module>, runner: RunnerSpec.Kernel)
    requires forall i | 0 <= i < |ms| :: BuilderMade(ms[i])
    requires runner.catalog == CatalogOf(InstallAll(Kernel(map[], map[], map[]), ms).actions)
    ensures var k := InstallAll(Kernel(map[], map[], map[]), ms);
      Coherent(k) && forall w | w in k.workflows :: RunnerSpec.Startable(runner, k.workflows[w])
  {
    InstallsKeepCoherent(Kernel(map[], map[], map[]), ms);
    var k := InstallAll(Kernel(map[], map[], map[]), ms);
    forall w | w in k.workflows
      ensures RunnerSpec.Startable(runner, k.workflows[w])
    {
      assert Supported(k.actions, k.workflows[w]);
    }
  }

  lemma {:induction false} InstallsKeepCoherent(k: Kernel, ms: seq<Module>)
    requires Coherent(k) && forall i | 0 <= i < |ms| :: BuilderMade(ms[i])
    ensures Coherent(InstallAll(k, ms))
  {
    if ms != [] {
      InstallsKeepCoherent(k, ms[..|ms| - 1]);
      InstallKeepsCoherent(InstallAll(k, ms[..|ms| - 1]), ms[|ms| - 1]);
    }
  }

  // ------------------------------------------------------- what an install does

  ghost predicate Ascends(ids: seq<string>) {
    forall i, j | 0 <= i < j < |ids| :: LexLeq(ids[i], ids[j])
  }

  lemma AscendsCons(id: string, ids: seq<string>)
    requires Ascends(ids) && forall j | 0 <= j < |ids| :: LexLeq(id, ids[j])
    ensures Ascends([id] + ids)
  {
  }

  lemma {:induction false} InsertIdAscends(id: string, ids: seq<string>)
    requires Ascends(ids)
    ensures Ascends(InsertId(id, ids))
  {
    if ids == [] {
    } else if LexLeq(id, ids[0]) {
      forall j | 0 <= j < |ids|
        ensures LexLeq(id, ids[j])
      {
        if j > 0 {
          LexTransitive(id, ids[0], ids[j]);
        }
      }
      AscendsCons(id, ids);
    } else {
      assert Ascends(ids[1..]);
      InsertIdAscends(id, ids[1..]);
      InsertIdIs(id, ids[1..]);
      LexTotal(id, ids[0]);
      var rest := InsertId(id, ids[1..]);
      forall j | 0 <= j < |rest|
        ensures LexLeq(ids[0], rest[j])
      {
        assert rest[j] in multiset(rest);
      }
      AscendsCons(ids[0], rest);
    }
  }

  lemma {:induction false} SortIdsAscends(ids: seq<string>)
    ensures Ascends(SortIds(ids))
  {
    if ids != [] {
      SortIdsAscends(ids[1..]);
      InsertIdAscends(ids[0], SortIds(ids[1..]));
    }
  }

  /** The manifest of a built module lists its ids in code-point order. */
  lemma ManifestAscends(moduleId: string, specs: seq<CapabilitySpec>, defs: seq<Definition>, handlers: set<string>, i: nat, j: nat)
    ensures var m := Built(moduleId, specs, defs, handlers);
      && m.manifest.moduleId == moduleId && m.capabilities == specs && m.workflows == defs && m.handlers == handlers
      && multiset(m.manifest.capabilities) == multiset(CapabilityIds(specs))
      && multiset(m.manifest.workflows) == multiset(WorkflowIds(defs))
      && (i < j < |m.manifest.capabilities| ==>
            var a, b := m.manifest.capabilities[i], m.manifest.capabilities[j];
            a <= b || exists k | 0 <= k < |a| && k < |b| :: a[..k] == b[..k] && a[k] < b[k])
      && (i < j < |m.manifest.workflows| ==>
            var a, b := m.manifest.workflows[i], m.manifest.workflows[j];
            a <= b || exists k | 0 <= k < |a| && k < |b| :: a[..k] == b[..k] && a[k] < b[k])
  {
    var m := Built(moduleId, specs, defs, handlers);
    SortIdsIs(CapabilityIds(specs));
    SortIdsIs(WorkflowIds(defs));
    SortIdsAscends(CapabilityIds(specs));
    SortIdsAscends(WorkflowIds(defs));
    if i < j < |m.manifest.capabilities| {
      LexLeqIff(m.manifest.capabilities[i], m.manifest.capabilities[j]);
    }
    if i < j < |m.manifest.workflows| {
      LexLeqIff(m.manifest.workflows[i], m.manifest.workflows[j]);
    }
  }

  /** Which of the values a key finds afterwards: the one registered under it, or what
      was there. */
  ghost predicate Holds<T(!new)>(before: map<string, T>, after: map<string, T>, keys: seq<string>, values: seq<T>)
    requires |keys| == |values|
  {
    && (forall i | 0 <= i < |keys| :: Strip(keys[i]) != "" && Strip(keys[i]) !in before
                                      && Strip(keys[i]) in after && after[Strip(keys[i])] == values[i])
    && (forall k | k in before :: k in after && after[k] == before[k])
    && (forall k | k in after :: k in before || exists i | 0 <= i < |keys| :: Strip(keys[i]) == k)
  }

  lemma {:induction false} CapabilitiesHeld(actions: map<string, CapabilitySpec>, specs: seq<CapabilitySpec>)
    requires AddCapabilities(actions, specs).error.None?
    ensures Holds(actions, AddCapabilities(actions, specs).items, CapabilityIds(specs), specs)
    decreases |specs|
  {
    if specs != [] {
      RegisterIff(actions, specs[0].capabilityId, specs[0]);
      var more := Register(actions, specs[0].capabilityId, specs[0]).value;
      CapabilitiesHeld(more, specs[1..]);
      var ids, rest := CapabilityIds(specs), CapabilityIds(specs[1..]);
      assert forall i | 0 <= i < |rest| :: ids[i + 1] == rest[i] && specs[i + 1] == specs[1..][i];
      HoldsCons(actions, more, AddCapabilities(actions, specs).items, ids, specs, rest, specs[1..]);
    }
  }

  lemma HoldsCons<T(!new)>(before: map<string, T>, more: map<string, T>, after: map<string, T>,
                           keys: seq<string>, values: seq<T>, keys': seq<string>, values': seq<T>)
    requires |keys| == |values| == |keys'| + 1 && |keys'| == |values'|
    requires forall i | 0 <= i < |keys'| :: keys[i + 1] == keys'[i] && values[i + 1] == values'[i]
    requires Strip(keys[0]) != "" && Strip(keys[0]) !in before && more == before[Strip(keys[0]) := values[0]]
    requires Holds(more, after, keys', values')
    ensures Holds(before, after, keys, values)
  {
    forall i | 0 <= i < |keys|
      ensures Strip(keys[i]) != "" && Strip(keys[i]) !in before && Strip(keys[i]) in after && after[Strip(keys[i])] == values[i]
    {
      if i > 0 {
        assert keys[i] == keys'[i - 1] && values[i] == values'[i - 1];
      } else {
        assert Strip(keys[0]) in more;
      }
    }
    forall k | k in after && k !in before
      ensures exists i | 0 <= i < |keys| :: Strip(keys[i]) == k
    {
      if k in more {
        assert Strip(keys[0]) == k;
      } else {
        var i :| 0 <= i < |keys'| && Strip(keys'[i]) == k;
        assert Strip(keys[i + 1]) == k;
      }
    }
  }

  lemma {:induction false} WorkflowsHeld(actions: map<string, CapabilitySpec>, workflows: map<string, Definition>, defs: seq<Definition>)
    requires AddWorkflows(actions, workflows, defs).error.None?
    ensures Holds(workflows, AddWorkflows(actions, workflows, defs).items, WorkflowIds(defs), defs)
    decreases |defs|
  {
    if defs != [] {
      RegisterIff(workflows, defs[0].workflowId, defs[0]);
      var more := Register(workflows, defs[0].workflowId, defs[0]).value;
      WorkflowsHeld(actions, more, defs[1..]);
      var ids, rest := WorkflowIds(defs), WorkflowIds(defs[1..]);
      assert forall i | 0 <= i < |rest| :: ids[i + 1] == rest[i] && defs[i + 1] == defs[1..][i];
      HoldsCons(workflows, more, AddWorkflows(actions, workflows, defs).items, ids, defs, rest, defs[1..]);
    }
  }

  lemma {:induction false} InstallClean(k: Kernel, m: Module)
    requires Install(k, m).error.None?
    ensures var caps := AddCapabilities(k.actions, m.capabilities);
      var flows := AddWorkflows(caps.items, k.workflows, m.workflows);
      var registered := Register(k.modules, m.manifest.moduleId, m.manifest);
      && caps.error.None? && flows.error.None? && registered.Ok?
      && Install(k, m).kernel == Kernel(caps.items, flows.items, registered.value)
  {
  }

  /** An install that goes through leaves every capability, every workflow and the
      manifest under their trimmed ids, none of which was taken, and nothing else. */
  lemma {:induction false} InstalledHolds(k: Kernel, m: Module)
    requires Install(k, m).error.None?
    ensures var after := Install(k, m).kernel;
      && Holds(k.actions, after.actions, CapabilityIds(m.capabilities), m.capabilities)
      && Holds(k.workflows, after.workflows, WorkflowIds(m.workflows), m.workflows)
      && Strip(m.manifest.moduleId) != "" && Strip(m.manifest.moduleId) !in k.modules
      && after.modules == k.modules[Strip(m.manifest.moduleId) := m.manifest]
  {
    InstallClean(k, m);
    CapabilitiesHeld(k.actions, m.capabilities);
    WorkflowsHeld(AddCapabilities(k.actions, m.capabilities).items, k.workflows, m.workflows);
    RegisterIff(k.modules, m.manifest.moduleId, m.manifest);
  }
}
