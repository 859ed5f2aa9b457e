/** What the runner's operations do, in terms of the instance's fields and of the
    texts that are hashed: which input is resolved, what a seal, a dispatch and a
    decision change, and how a run ends. */
module RunnerOutcomes {
  import opened Text
  import opened Json
  import opened JsonText
  import opened CanonicalJson
  import opened IntentBinding
  import opened CanonicalText
  import opened Workflows
  import opened RunnerSpec
  import opened RunnerInvariant
  import opened RunnerBudget
  import opened RunnerTheorems

  // ------------------------------------------------------------ resolved input

  /** Objects from `value` to `end`, each holding the next under the next part. */
  ghost predicate Leads(chain: seq<Json>, value: Json, parts: seq<string>, end: Json) {
    && |chain| == |parts| + 1 && chain[0] == value && chain[|parts|] == end
    && forall i | 0 <= i < |parts| ::
         chain[i].Obj? && Lookup(chain[i].members, parts[i]) == Some(chain[i + 1])
  }

  lemma {:induction false} WalkIff(value: Json, parts: seq<string>, end: Json)
    ensures Walk(value, parts) == Some(end) <==> exists chain: seq<Json> :: Leads(chain, value, parts, end)
    decreases |parts|
  {
    if Walk(value, parts) == Some(end) {
      var chain := Trail(value, parts);
      assert Leads(chain, value, parts, end);
    }
    if chain: seq<Json> :| Leads(chain, value, parts, end) {
      if parts != [] {
        assert Lookup(chain[0].members, parts[0]) == Some(chain[1]);
        LeadsTail(chain, value, parts, end);
        WalkIff(chain[1], parts[1..], end);
      }
    }
  }

  lemma {:induction false} LeadsTail(chain: seq<Json>, value: Json, parts: seq<string>, end: Json)
    requires parts != [] && Leads(chain, value, parts, end)
    ensures Leads(chain[1..], chain[1], parts[1..], end)
  {
    forall i | 0 <= i < |parts| - 1
      ensures chain[1..][i].Obj? && Lookup(chain[1..][i].members, parts[1..][i]) == Some(chain[1..][i + 1])
    {
      assert Lookup(chain[i + 1].members, parts[i + 1]) == Some(chain[i + 2]);
    }
  }

  ghost function Trail(value: Json, parts: seq<string>): (chain: seq<Json>)
    requires Walk(value, parts).Some?
    ensures Leads(chain, value, parts, Walk(value, parts).value)
    decreases |parts|
  {
    if parts == [] then [value]
    else
      var rest := Trail(Get(value.members, parts[0]), parts[1..]);
      TrailCons(value, parts, rest);
      [value] + rest
  }

  lemma {:induction false} TrailCons(value: Json, parts: seq<string>, rest: seq<Json>)
    requires parts != [] && value.Obj? && Has(value.members, parts[0]) && Walk(value, parts).Some?
    requires Leads(rest, Get(value.members, parts[0]), parts[1..], Walk(value, parts).value)
    ensures Leads([value] + rest, value, parts, Walk(value, parts).value)
  {
    var chain := [value] + rest;
    forall i | 0 <= i < |parts|
      ensures chain[i].Obj? && Lookup(chain[i].members, parts[i]) == Some(chain[i + 1])
    {
      if i > 0 {
        assert Lookup(rest[i - 1].members, parts[1..][i - 1]) == Some(rest[i]);
      }
    }
  }

  /** What a binding's path leads to in the data. */
  function At(data: Dict, path: string): Option<Json> {
    Walk(Obj(data), Split(path, '.'))
  }

  /** The binding at `i` is the last one for the key. */
  ghost predicate LastFor(bs: seq<(string, string)>, i: int, key: string) {
    0 <= i < |bs| && bs[i].0 == key && forall j | i < j < |bs| :: bs[j].0 != key
  }

  /** The input holds the static values, overlaid with what the paths lead to, later
      bindings over earlier ones. */
  lemma {:induction false} InputIs(action: ActionCall, data: Dict, key: string)
    requires ResolvedInput(action, data).Resolved?
    ensures forall i | 0 <= i < |action.inputFrom| :: At(data, action.inputFrom[i].1).Some?
    ensures var input, bs := ResolvedInput(action, data).input, action.inputFrom;
      && (forall i | LastFor(bs, i, key) :: Lookup(input, key) == At(data, bs[i].1))
      && ((forall i | 0 <= i < |bs| :: bs[i].0 != key) ==> Lookup(input, key) == Lookup(action.input, key))
  {
    BindFinds(action.input, action.inputFrom, data);
    forall i | LastFor(action.inputFrom, i, key)
      ensures Lookup(ResolvedInput(action, data).input, key) == At(data, action.inputFrom[i].1)
    {
      BindPuts(action.input, action.inputFrom, data, key, i);
    }
    if forall i | 0 <= i < |action.inputFrom| :: action.inputFrom[i].0 != key {
      BindLeaves(action.input, action.inputFrom, data, key);
    }
  }

  /** Otherwise the first path that leads nowhere is reported. */
  lemma {:induction false} MissingIs(action: ActionCall, data: Dict) returns (i: nat)
    requires ResolvedInput(action, data).Missing?
    ensures var r, bs := ResolvedInput(action, data), action.inputFrom;
      && i < |bs| && bs[i] == (r.key, r.path)
      && At(data, bs[i].1) == None && forall j | 0 <= j < i :: At(data, bs[j].1).Some?
  {
    i := BindMissing(action.input, action.inputFrom, data);
  }

  lemma {:induction false} BindFinds(resolved: Dict, bs: seq<(string, string)>, data: Dict)
    requires Bind(resolved, bs, data).Resolved?
    ensures forall i | 0 <= i < |bs| :: At(data, bs[i].1).Some?
    decreases |bs|
  {
    if bs != [] {
      BindFinds(Put(resolved, bs[0].0, At(data, bs[0].1).value), bs[1..], data);
      assert forall i | 1 <= i < |bs| :: bs[i] == bs[1..][i - 1];
    }
  }

  lemma {:induction false} BindLeaves(resolved: Dict, bs: seq<(string, string)>, data: Dict, key: string)
    requires Bind(resolved, bs, data).Resolved? && forall i | 0 <= i < |bs| :: bs[i].0 != key
    ensures Lookup(Bind(resolved, bs, data).input, key) == Lookup(resolved, key)
    decreases |bs|
  {
    if bs != [] {
      BindLeaves(Put(resolved, bs[0].0, At(data, bs[0].1).value), bs[1..], data, key);
    }
  }

  lemma {:induction false} BindPuts(resolved: Dict, bs: seq<(string, string)>, data: Dict, key: string, i: nat)
    requires Bind(resolved, bs, data).Resolved? && LastFor(bs, i, key)
    ensures Lookup(Bind(resolved, bs, data).input, key) == At(data, bs[i].1)
    decreases |bs|
  {
    var more := Put(resolved, bs[0].0, At(data, bs[0].1).value);
    if i == 0 {
      BindLeaves(more, bs[1..], data, key);
    } else {
      assert LastFor(bs[1..], i - 1, key);
      BindPuts(more, bs[1..], data, key, i - 1);
    }
  }

  lemma {:induction false} BindMissing(resolved: Dict, bs: seq<(string, string)>, data: Dict) returns (i: nat)
    requires Bind(resolved, bs, data).Missing?
    ensures i < |bs| && bs[i] == (Bind(resolved, bs, data).key, Bind(resolved, bs, data).path)
    ensures At(data, bs[i].1) == None && forall j | 0 <= j < i :: At(data, bs[j].1).Some?
    decreases |bs|
  {
    var value := At(data, bs[0].1);
    if value.None? {
      i := 0;
      assert bs[0] == (bs[0].0, bs[0].1);
    } else {
      var rest := bs[1..];
      var k := BindMissing(Put(resolved, bs[0].0, value.value), rest, data);
      i := k + 1;
      assert forall j | 0 <= j < |rest| :: rest[j] == bs[j + 1];
    }
  }

  // ----------------------------------------------------------- the sealed texts

  /** The text of a governed payload, spelled out. */
  function PayloadText(def: Definition, t: Transition, input: Dict): string {
    "{" + Join([
      Field("from_state", Quoted(t.fromState)),
      Field("input", Canonical(Obj(input))),
      Field("revision", IntText(def.revision)),
      Field("to_state", Quoted(t.toState)),
      Field("workflow_id", Quoted(def.workflowId))], ',') + "}"
  }

  /** The text of a binding over a payload's text, spelled out. */
  function BindingText(tenant: Tenant, capabilityId: string, payloadText: string): string {
    "{" + Join([
      Field("capability_id", Quoted(capabilityId)),
      Field("case_ref", RefText(tenant.caseRef)),
      Field("payload", payloadText),
      Field("project_ref", RefText(tenant.projectRef)),
      Field("tenant_id", Quoted(tenant.tenantId))], ',') + "}"
  }

  lemma {:induction false} PayloadOrder()
    ensures Follows("from_state", "input") && Follows("input", "revision")
    ensures Follows("revision", "to_state") && Follows("to_state", "workflow_id")
  {
    Differ("from_state", "input", 0);
    Differ("input", "revision", 0);
    Differ("revision", "to_state", 0);
    Differ("to_state", "workflow_id", 0);
  }

  lemma {:induction false} PayloadNames()
    ensures Plain("from_state") && Plain("input") && Plain("revision") && Plain("to_state") && Plain("workflow_id")
  {
  }

  lemma {:induction false} PayloadSpelled(def: Definition, t: Transition, input: Dict)
    ensures Canonical(Obj(GovernedPayload(def, t, input))) == PayloadText(def, t, input)
  {
    var ms := GovernedPayload(def, t, input);
    PayloadOrder();
    PayloadNames();
    ScalarTexts(t.fromState, def.revision, None);
    ScalarTexts(t.toState, 0, None);
    ScalarTexts(def.workflowId, 0, None);
    FiveFields(ms, ms[2], ms[4], ms[1], ms[3], ms[0]);
  }

  /** What a seal hashes. */
  lemma {:induction false} SealSpelled(hash: Hash, def: Definition, tenant: Tenant, t: Transition, input: Dict)
    requires t.action.Some?
    ensures SealDigest(hash, def, tenant, t, input) ==
      hash(BindingText(tenant, t.action.value.capabilityId, PayloadText(def, t, input)))
  {
    PayloadSpelled(def, t, input);
    MaterialText(tenant, t.action.value.capabilityId, GovernedPayload(def, t, input));
  }

  /** What the input digest of a dispatch hashes: tenant, capability and input. */
  lemma {:induction false} InputSpelled(hash: Hash, tenant: Tenant, capabilityId: string, input: Dict)
    ensures InputDigest(hash, tenant, capabilityId, input) ==
      hash(BindingText(tenant, capabilityId, "{" + Field("input", Canonical(Obj(input))) + "}"))
  {
    var ms := InputPayload(input);
    PayloadNames();
    FieldsText(ms, ms);
    assert FieldsOf(ms) == [Field("input", Canonical(Obj(input)))];
    MaterialText(tenant, capabilityId, ms);
  }

  lemma {:induction false} InputSame(x: Dict, y: Dict)
    ensures Same(Obj(InputPayload(x)), Obj(InputPayload(y))) <==> Same(Obj(x), Obj(y))
  {
    AlignedSame(InputPayload(x), InputPayload(y));
    assert InputPayload(x)[0].value == Obj(x) && InputPayload(y)[0].value == Obj(y);
  }

  /** Two dispatches with one input digest had the same tenant, capability and input,
      unless the hash collides on their texts. */
  lemma {:induction false} InputDigestIff(hash: Hash, t: Tenant, c: string, x: Dict, t': Tenant, c': string, y: Dict)
    requires CollisionFree(hash, {Material(t, c, InputPayload(x)), Material(t', c', InputPayload(y))})
    ensures InputDigest(hash, t, c, x) == InputDigest(hash, t', c', y) <==> t == t' && c == c' && Same(Obj(x), Obj(y))
  {
    MaterialIff(t, c, InputPayload(x), t', c', InputPayload(y));
    InputSame(x, y);
  }

  // -------------------------------------------------------------- one transition

  /** First arrival at a governed effect. */
  lemma {:induction false} SealOutcome(k: Kernel, s: Inst, t: Transition, spec: CapabilitySpec, input: Dict)
    requires t.action.Some? && k.catalog(t.action.value.capabilityId) == Some(spec)
    requires spec.effect == ExternalMutation && s.pendingTransition == None
    requires ResolvedInput(t.action.value, s.data) == Resolved(input)
    ensures var created, expires := k.clock(s.readings), k.clock(s.readings + 1) + k.ttl;
      var capabilityId := t.action.value.capabilityId;
      var digest := k.hash(BindingText(s.tenant, capabilityId, PayloadText(s.definition, t, input)));
      var intent := Intent(k.freshId(s.minted), s.tenant, "pending-human", capabilityId, digest, created, expires);
      Advance(k, s, t) ==
        if expires <= created then Thrown(s.(readings := s.readings + 2), UnsealableIntent)
        else Done(s.(
          readings := s.readings + 2, minted := s.minted + 1, status := Paused,
          pendingIntent := Some(intent), pendingTransition := Some(t), sealed := Some(input),
          history := s.history + [Requested(intent.intentId, capabilityId, s.state)]))
  {
    SealSpelled(k.hash, s.definition, s.tenant, t, input);
    var digest := SealDigest(k.hash, s.definition, s.tenant, t, input);
    SealWith(k, s, t, input, digest);
    assert Advance(k, s, t) == Seal(k, s, t);
  }

  lemma {:induction false} SealWith(k: Kernel, s: Inst, t: Transition, input: Dict, digest: string)
    requires t.action.Some? && ResolvedInput(t.action.value, s.data) == Resolved(input)
    requires digest == SealDigest(k.hash, s.definition, s.tenant, t, input)
    ensures var created, expires := k.clock(s.readings), k.clock(s.readings + 1) + k.ttl;
      var capabilityId := t.action.value.capabilityId;
      var intent := Intent(k.freshId(s.minted), s.tenant, "pending-human", capabilityId, digest, created, expires);
      Seal(k, s, t) ==
        if expires <= created then Thrown(s.(readings := s.readings + 2), UnsealableIntent)
        else Done(s.(
          readings := s.readings + 2, minted := s.minted + 1, status := Paused,
          pendingIntent := Some(intent), pendingTransition := Some(t), sealed := Some(input),
          history := s.history + [Requested(intent.intentId, capabilityId, s.state)]))
  {
    var created, expires := k.clock(s.readings), k.clock(s.readings + 1) + k.ttl;
    if expires <= created {
      SealResolved(k, s, t, input, None);
    } else {
      var intent := Intent(k.freshId(s.minted), s.tenant, "pending-human", t.action.value.capabilityId, digest, created, expires);
      SealResolved(k, s, t, input, Some(intent));
      SuspendedIs(s.(readings := s.readings + 2, minted := s.minted + 1), t, intent, input);
    }
  }

  lemma {:induction false} SuspendedIs(s: Inst, t: Transition, intent: Intent, input: Dict)
    ensures Suspended(s, t, intent, input) == s.(
      status := Paused, pendingIntent := Some(intent), pendingTransition := Some(t), sealed := Some(input),
      history := s.history + [Requested(intent.intentId, intent.capabilityId, s.state)])
  {
  }

  /** The policy lets an effect pass. */
  predicate Passes(k: Kernel, effect: EffectClass, approved: bool) {
    effect in k.policy && k.policy[effect] && (effect == ExternalMutation ==> approved)
  }

  /** A handler's answer: nothing at all when the capability has no handler. */
  lemma {:induction false} AnswerIs(k: Kernel, tenant: Tenant, capabilityId: string, input: Dict)
    ensures Invoke(k, tenant, capabilityId, input) ==
      if capabilityId in k.handlers then k.handlers[capabilityId](tenant, capabilityId, input) else Returned([])
  {
  }

  /** Merging an output into the data: the output wins, key by key. */
  lemma {:induction false} MergeIs(data: Dict, output: Dict, key: string)
    ensures Lookup(Merge(data, output), key) == if Lookup(output, key).Some? then Lookup(output, key) else Lookup(data, key)
  {
    UpdateLooksUp(data, output, key);
  }

  /** The event of a dispatch, with what its digest covers. */
  function SentEvent(hash: Hash, s: Inst, t: Transition, effect: EffectClass, input: Dict): Event
    requires t.action.Some?
  {
    Dispatched(t.action.value.capabilityId, effect, t.fromState, t.toState,
               if s.pendingIntent == None then None else Some(s.pendingIntent.value.payloadDigest),
               hash(BindingText(s.tenant, t.action.value.capabilityId, "{" + Field("input", Canonical(Obj(input))) + "}")))
  }

  /** A dispatch that goes through: the handler had the resolved input, its output is
      merged into the data, and two events are added. */
  lemma {:induction false} DispatchOutcome(k: Kernel, s: Inst, t: Transition, spec: CapabilitySpec, input: Dict, output: Dict)
    requires t.action.Some? && k.catalog(t.action.value.capabilityId) == Some(spec)
    requires spec.effect == ExternalMutation ==> s.pendingTransition.Some?
    requires Passes(k, spec.effect, s.pendingTransition.Some?)
    requires ResolvedInput(t.action.value, s.data) == Resolved(input)
    requires Invoke(k, s.tenant, t.action.value.capabilityId, input) == Returned(output)
    ensures Advance(k, s, t) == Done(s.(
      state := t.toState, data := Merge(s.data, output),
      pendingIntent := None, pendingTransition := None, sealed := None,
      calls := s.calls + [Call(t, spec.effect, input, s.sealed, s.pendingIntent)],
      history := s.history + [SentEvent(k.hash, s, t, spec.effect, input)] + [Applied(t.fromState, t.toState)]))
  {
    InputSpelled(k.hash, s.tenant, t.action.value.capabilityId, input);
    assert SentEvent(k.hash, s, t, spec.effect, input) == DispatchEvent(k, s, t, spec.effect, input);
    assert Dispatch(k, s, t, spec).Done?;
    DispatchDone(k, s, t, spec);
  }

  /** A dispatch that does not go through changes nothing but the log of calls, and
      says what was in the way: the policy first, then the input, then the handler. */
  lemma {:induction false} DispatchRefused(k: Kernel, s: Inst, t: Transition, spec: CapabilitySpec)
    requires t.action.Some? && k.catalog(t.action.value.capabilityId) == Some(spec)
    requires spec.effect == ExternalMutation ==> s.pendingTransition.Some?
    ensures var capabilityId := t.action.value.capabilityId;
      var r, resolution := Advance(k, s, t), ResolvedInput(t.action.value, s.data);
      if !Passes(k, spec.effect, s.pendingTransition.Some?) then r == Violation(s, PolicyDenied(spec.capabilityId, t.fromState))
      else if resolution.Missing? then r == Violation(s, MissingBinding(resolution.key, resolution.path))
      else
        var answer := Invoke(k, s.tenant, capabilityId, resolution.input);
        answer.Raised? ==> r.Violation? && r.inst.(calls := s.calls) == s && r.reason == HandlerRaised(answer.message)
  {
  }

  /** A transition without an action only moves. */
  lemma {:induction false} MoveOutcome(k: Kernel, s: Inst, t: Transition)
    requires t.action == None
    ensures Advance(k, s, t) == Done(s.(state := t.toState, history := s.history + [Applied(t.fromState, t.toState)]))
  {
  }

  // ----------------------------------------------------------------- decisions

  /** The instance while its approver has been asked. */
  function Asked(s: Inst): Inst {
    s.(consulted := s.consulted + 1, readings := s.readings + 1)
  }

  lemma {:induction false} Decides(k: Kernel, s: Inst, approver: Approver)
    requires PendingInv(k, s) && s.status == Paused
    ensures var intent := s.pendingIntent.value;
      ResolvePending(k, s, approver) == Enact(Asked(s), intent, Judge(k, s, intent, s.pendingTransition.value, approver(intent)))
  {
    ResolveUnfold(k, s, approver);
  }

  /** A decision about another intent, or when the input no longer resolves. */
  lemma {:induction false} StrayDecision(k: Kernel, s: Inst, approver: Approver)
    requires PendingInv(k, s) && s.status == Paused
    ensures var decision, r := approver(s.pendingIntent.value), ResolvePending(k, s, approver);
      if decision.intentId != s.pendingIntent.value.intentId then
        r == Answered(Asked(s).(history := s.history + [Mismatched(decision.intentId)]), None)
      else ResolvedInput(s.pendingTransition.value.action.value, s.data).Missing? ==> r == Answered(Asked(s), Some(VanishedBinding))
  {
    Decides(k, s, approver);
  }

  /** A refusal fails the instance. */
  lemma {:induction false} RefusalOutcome(k: Kernel, s: Inst, approver: Approver)
    requires PendingInv(k, s) && s.status == Paused
    requires var decision := approver(s.pendingIntent.value);
      && decision.intentId == s.pendingIntent.value.intentId && !decision.approved
      && ResolvedInput(s.pendingTransition.value.action.value, s.data).Resolved?
    ensures var actor, intentId := approver(s.pendingIntent.value).decidedBy, s.pendingIntent.value.intentId;
      ResolvePending(k, s, approver) == Answered(
        Asked(s).(
          status := Failed, failure := Some(RejectedBy(actor)), pendingIntent := None, pendingTransition := None, sealed := None,
          history := s.history + [Rejected(intentId, actor)] + [Broken(RejectedBy(actor))]),
        None)
  {
    Decides(k, s, approver);
  }

  /** The pending intent covers the texts at hand, its human has a name, and it has
      not run out. */
  predicate Covers(k: Kernel, s: Inst, actor: string, input: Dict)
    requires s.pendingIntent.Some? && s.pendingTransition.Some? && s.pendingTransition.value.action.Some?
  {
    var intent, t := s.pendingIntent.value, s.pendingTransition.value;
    && intent.payloadDigest == k.hash(BindingText(s.tenant, t.action.value.capabilityId, PayloadText(s.definition, t, input)))
    && !Nameless(actor)
    && k.clock(s.readings) < intent.expiresAt
  }

  /** An approval that covers what is about to run lets the instance run on. */
  lemma {:induction false} ApprovalGranted(k: Kernel, s: Inst, approver: Approver, input: Dict)
    requires PendingInv(k, s) && s.status == Paused
    requires var decision := approver(s.pendingIntent.value);
      && decision.intentId == s.pendingIntent.value.intentId && decision.approved
      && ResolvedInput(s.pendingTransition.value.action.value, s.data) == Resolved(input)
      && Covers(k, s, decision.decidedBy, input)
    ensures ResolvePending(k, s, approver) == Answered(
      Asked(s).(
        status := Running,
        history := s.history + [Granted(s.pendingIntent.value.intentId, approver(s.pendingIntent.value).decidedBy)]),
      None)
  {
    var intent, t := s.pendingIntent.value, s.pendingTransition.value;
    Decides(k, s, approver);
    SealSpelled(k.hash, s.definition, s.tenant, t, input);
    NamelessIff(approver(intent).decidedBy);
    JudgedSound(k, s, intent, t, approver(intent), input);
  }

  /** Any other approval is noted with its faults, and the instance goes on waiting. */
  lemma {:induction false} ApprovalUnsound(k: Kernel, s: Inst, approver: Approver, input: Dict) returns (reasons: seq<Reason>)
    requires PendingInv(k, s) && s.status == Paused
    requires var decision := approver(s.pendingIntent.value);
      && decision.intentId == s.pendingIntent.value.intentId && decision.approved
      && ResolvedInput(s.pendingTransition.value.action.value, s.data) == Resolved(input)
      && !Covers(k, s, decision.decidedBy, input)
    ensures ResolvePending(k, s, approver) ==
      Answered(Asked(s).(history := s.history + [Invalid(s.pendingIntent.value.intentId, reasons)]), None)
  {
    var intent, t := s.pendingIntent.value, s.pendingTransition.value;
    Decides(k, s, approver);
    SealSpelled(k.hash, s.definition, s.tenant, t, input);
    NamelessIff(approver(intent).decidedBy);
    JudgedSound(k, s, intent, t, approver(intent), input);
    reasons := Judge(k, s, intent, t, approver(intent)).reasons;
  }

  lemma {:induction false} JudgedSound(k: Kernel, s: Inst, intent: Intent, t: Transition, decision: Decision, input: Dict)
    requires t.action.Some? && ResolvedInput(t.action.value, s.data) == Resolved(input)
    requires decision.intentId == intent.intentId && decision.approved
    requires intent.tenant == s.tenant && intent.capabilityId == t.action.value.capabilityId
    ensures var sound :=
        && intent.payloadDigest == SealDigest(k.hash, s.definition, s.tenant, t, input)
        && !Blank(decision.decidedBy)
        && k.clock(s.readings) < intent.expiresAt;
      var verdict := Judge(k, s, intent, t, decision);
      if sound then verdict == Grant(decision.decidedBy) else verdict.Unsound?
  {
    NoReasonIff(k.hash, intent.(actor := decision.decidedBy), s.tenant, t.action.value.capabilityId,
                GovernedPayload(s.definition, t, input), k.clock(s.readings));
  }

  // --------------------------------------------------------------------- ends

  /** Where no transition leaves, a run ends: completed in a terminal state, failed
      in any other. */
  lemma {:induction false} EndOutcome(k: Kernel, s: Inst, approver: Option<Approver>, resolvedHere: bool)
    requires s.status == Running && forall i | 0 <= i < |s.definition.transitions| :: s.definition.transitions[i].fromState != s.state
    ensures var r := Step(k, s, approver, resolvedHere);
      var terminal := exists i | 0 <= i < |s.definition.states| ::
        s.definition.states[i].name == s.state && s.definition.states[i].terminal;
      && r.Stop? && r.escape == None
      && (terminal ==> r.inst == s.(status := Completed, history := s.history + [Finished(s.state)]))
      && (!terminal ==> r.inst == s.(
            status := Failed, failure := Some(NoTransition(s.state)), pendingIntent := None, pendingTransition := None,
            sealed := None, history := s.history + [Broken(NoTransition(s.state))]))
  {
    FirstIff(s.definition, s.state);
  }

  /** Otherwise a turn takes the transition declared first, and charges a step for it. */
  lemma {:induction false} TurnOutcome(k: Kernel, s: Inst, approver: Option<Approver>, resolvedHere: bool, i: nat)
    requires s.status == Running && i < |s.definition.transitions| && s.definition.transitions[i].fromState == s.state
    requires forall j | 0 <= j < i :: s.definition.transitions[j].fromState != s.state
    ensures var r := Step(k, s, approver, resolvedHere);
      match Advance(k, s, s.definition.transitions[i])
      case Thrown(s', cause) => r == Stop(s', Some(cause))
      case Violation(s', reason) => r == Stop(Fail(s', reason), None)
      case Done(s') =>
        var charged := s'.(steps := s.steps + 1);
        r == if charged.steps >= k.maxSteps then Stop(Fail(charged, BudgetExhausted), None) else Go(charged, resolvedHere)
  {
    FirstIff(s.definition, s.state);
    AdvanceKeepsSteps(k, s, s.definition.transitions[i]);
  }

  // ------------------------------------------------------------------- policy

  /** A call the policy let pass, with the effect that the catalog has for it. */
  ghost predicate CallPassed(k: Kernel, c: Call) {
    && c.transition.action.Some?
    && k.catalog(c.transition.action.value.capabilityId).Some?
    && k.catalog(c.transition.action.value.capabilityId).value.effect == c.effect
    && c.effect in k.policy && k.policy[c.effect]
  }

  ghost predicate CallsPassed(k: Kernel, s: Inst) {
    forall i | 0 <= i < |s.calls| :: CallPassed(k, s.calls[i])
  }

  lemma {:induction false} MorePassed(k: Kernel, calls: seq<Call>, c: Call)
    requires CallPassed(k, c) && forall i | 0 <= i < |calls| :: CallPassed(k, calls[i])
    ensures forall i | 0 <= i < |calls + [c]| :: CallPassed(k, (calls + [c])[i])
  {
  }

  lemma {:induction false} DispatchPassed(k: Kernel, s: Inst, t: Transition, spec: CapabilitySpec)
    requires t.action.Some? && k.catalog(t.action.value.capabilityId) == Some(spec) && CallsPassed(k, s)
    ensures CallsPassed(k, Dispatch(k, s, t, spec).inst)
  {
    var resolution := ResolvedInput(t.action.value, s.data);
    if Passes(k, spec.effect, s.pendingTransition.Some?) && resolution.Resolved? {
      MorePassed(k, s.calls, Call(t, spec.effect, resolution.input, s.sealed, s.pendingIntent));
    }
  }

  lemma {:induction false} AdvancePassed(k: Kernel, s: Inst, t: Transition)
    requires CallsPassed(k, s)
    ensures CallsPassed(k, Advance(k, s, t).inst)
  {
    if t.action.Some? && k.catalog(t.action.value.capabilityId).Some? {
      DispatchPassed(k, s, t, k.catalog(t.action.value.capabilityId).value);
    }
  }

  lemma {:induction false} ResolvePassed(k: Kernel, s: Inst, approver: Approver)
    requires PendingInv(k, s) && s.status == Paused
    ensures ResolvePending(k, s, approver).inst.calls == s.calls
  {
    Decides(k, s, approver);
  }

  lemma {:induction false} StepPassed(k: Kernel, s: Inst, approver: Option<Approver>, resolvedHere: bool)
    requires PendingInv(k, s) && CallsPassed(k, s)
    ensures CallsPassed(k, Step(k, s, approver, resolvedHere).inst)
  {
    if s.status == Paused && approver.Some? {
      ResolvePassed(k, s, approver.value);
    } else if s.status == Running && First(s.definition, s.state).Some? {
      AdvancePassed(k, s, First(s.definition, s.state).value);
    }
  }

  /** In every life no handler is ever called for an effect that the policy forbids. */
  lemma {:induction false} PolicyHolds(k: Kernel, def: Definition, tenant: Tenant, data: Dict, readings: nat, minted: nat, actions: seq<Action>)
    requires k.maxSteps >= 1
    ensures forall c | c in Lived(k, def, tenant, data, readings, minted, actions).calls ::
      && c.transition.action.Some?
      && k.catalog(c.transition.action.value.capabilityId).Some?
      && k.catalog(c.transition.action.value.capabilityId).value.effect == c.effect
      && c.effect in k.policy && k.policy[c.effect]
  {
    var s0 := Start(def, tenant, data, readings, minted);
    StartCore(k, def, tenant, data, readings, minted);
    var inv := (x: Inst) => CallsPassed(k, x);
    forall x: Inst, a: Option<Approver>, f: bool | CoreInv(k, x) && inv(x)
      ensures inv(Step(k, x, a, f).inst)
    {
      StepPassed(k, x, a, f);
    }
    LiveKeeps(k, s0, actions, inv);
    assert inv(Live(k, s0, actions));
  }
}
