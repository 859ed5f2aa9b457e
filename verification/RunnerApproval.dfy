/** What was approved is what runs: the log of handler calls against the intents
    that were sealed and the dispatch events that were recorded. */
module ApprovalInvariant {
  import opened Text
  import opened IntentBinding
  import opened Workflows
  import opened RunnerSpec

  /** A handler was given an input whose governed digest is the sealed one, when
      the effect is external; other effects carry no approval. */
  ghost predicate CallSound(hash: Hash, def: Definition, tenant: Tenant, c: Call) {
    && c.transition.action.Some?
    && (c.effect.ExternalMutation? <==> c.approved.Some?)
    && (c.approved.Some? ==>
         SealDigest(hash, def, tenant, c.transition, c.approved.value) == SealDigest(hash, def, tenant, c.transition, c.input))
  }

  /** The event that records a call. */
  function Receipt(hash: Hash, def: Definition, tenant: Tenant, c: Call): Event
    requires c.transition.action.Some?
  {
    var capabilityId := c.transition.action.value.capabilityId;
    Dispatched(capabilityId, c.effect, c.transition.fromState, c.transition.toState,
               if c.approved.Some? then Some(SealDigest(hash, def, tenant, c.transition, c.approved.value)) else None,
               InputDigest(hash, tenant, capabilityId, c.input))
  }

  function Receipts(hash: Hash, def: Definition, tenant: Tenant, calls: seq<Call>): (r: seq<Event>)
    requires forall i | 0 <= i < |calls| :: calls[i].transition.action.Some?
    ensures |r| == |calls|
    ensures forall i | 0 <= i < |calls| :: r[i] == Receipt(hash, def, tenant, calls[i])
  {
    seq(|calls|, i requires 0 <= i < |calls| => Receipt(hash, def, tenant, calls[i]))
  }

  /** The dispatch events of a history, in order. */
  function Sent(h: seq<Event>): seq<Event> {
    if h == [] then []
    else Sent(h[..|h| - 1]) + if h[|h| - 1].Dispatched? then [h[|h| - 1]] else []
  }

  ghost predicate CallsSound(k: Kernel, s: Inst) {
    forall i | 0 <= i < |s.calls| :: CallSound(k.hash, s.definition, s.tenant, s.calls[i])
  }

  /** Every call but perhaps a last one that failed is on record, in order. */
  ghost predicate CallsRecorded(k: Kernel, s: Inst)
    requires CallsSound(k, s)
  {
    var receipts := Receipts(k.hash, s.definition, s.tenant, s.calls);
    && Sent(s.history) <= receipts
    && (s.status != Failed ==> Sent(s.history) == receipts)
  }

  ghost predicate ApprovalInv(k: Kernel, s: Inst) {
    CallsSound(k, s) && CallsRecorded(k, s)
  }
}

module RunnerApproval {
  import opened Text
  import opened Json
  import opened IntentBinding
  import opened Workflows
  import opened RunnerSpec
  import opened RunnerInvariant
  import opened RunnerBudget
  import opened TraceAutomaton
  import opened RunnerTrace
  import opened ApprovalInvariant

  lemma SentEmit(h: seq<Event>, e: Event)
    ensures Sent(h + [e]) == Sent(h) + if e.Dispatched? then [e] else []
  {
    assert (h + [e])[..|h + [e]| - 1] == h;
  }

  /** A change that neither calls nor dispatches. */
  lemma QuietApproval(k: Kernel, s: Inst, s': Inst)
    requires ApprovalInv(k, s)
    requires s'.definition == s.definition && s'.tenant == s.tenant && s'.calls == s.calls
    requires Sent(s'.history) == Sent(s.history)
    requires s.status == Failed ==> s'.status == Failed
    ensures ApprovalInv(k, s')
  {
  }

  lemma FailApproval(k: Kernel, s: Inst, reason: FailReason)
    requires ApprovalInv(k, s)
    ensures ApprovalInv(k, Fail(s, reason))
  {
    SentEmit(s.history, Broken(reason));
    QuietApproval(k, s, Fail(s, reason));
  }

  lemma EnactApproval(k: Kernel, s: Inst, intent: Intent, verdict: Verdict)
    requires ApprovalInv(k, s) && s.status == Paused
    ensures ApprovalInv(k, Enact(s, intent, verdict).inst)
  {
    var s' := Enact(s, intent, verdict).inst;
    match verdict
    case OtherIntent(other) => SentEmit(s.history, Mismatched(other)); QuietApproval(k, s, s');
    case NothingToApprove =>
    case Refusal(actor) =>
      SentEmit(s.history, Rejected(intent.intentId, actor));
      QuietApproval(k, s, Emit(s, Rejected(intent.intentId, actor)));
      FailApproval(k, Emit(s, Rejected(intent.intentId, actor)), RejectedBy(actor));
    case Unsound(reasons) => SentEmit(s.history, Invalid(intent.intentId, reasons)); QuietApproval(k, s, s');
    case Grant(actor) => SentEmit(s.history, Granted(intent.intentId, actor)); QuietApproval(k, s, s');
  }

  /** The call about to be made hands over what the sealed digest covers. */
  lemma NextCallSound(k: Kernel, s: Inst, t: Transition, spec: CapabilitySpec, input: Dict)
    requires PendingInv(k, s) && GrantStands(k, s) && s.status == Running && First(s.definition, s.state) == Some(t)
    requires t.action.Some? && k.catalog(t.action.value.capabilityId) == Some(spec)
    requires spec.effect.ExternalMutation? ==> s.pendingTransition.Some?
    requires ResolvedInput(t.action.value, s.data) == Resolved(input)
    ensures var c := Call(t, spec.effect, input, s.sealed, s.pendingIntent);
      && CallSound(k.hash, s.definition, s.tenant, c)
      && Receipt(k.hash, s.definition, s.tenant, c) == DispatchEvent(k, s, t, spec.effect, input)
  {
  }

  lemma CalledApproval(k: Kernel, s: Inst, s': Inst, c: Call)
    requires ApprovalInv(k, s) && s.status != Failed && CallSound(k.hash, s.definition, s.tenant, c)
    requires s'.definition == s.definition && s'.tenant == s.tenant && s'.calls == s.calls + [c]
    requires
      || (s'.status == Failed && Sent(s'.history) == Sent(s.history))
      || Sent(s'.history) == Sent(s.history) + [Receipt(k.hash, s.definition, s.tenant, c)]
    ensures ApprovalInv(k, s')
  {
    MoreCallsSound(k.hash, s.definition, s.tenant, s.calls, c);
    ReceiptsSnoc(k.hash, s.definition, s.tenant, s.calls, c);
  }

  lemma MoreCallsSound(hash: Hash, def: Definition, tenant: Tenant, calls: seq<Call>, c: Call)
    requires forall i | 0 <= i < |calls| :: CallSound(hash, def, tenant, calls[i])
    requires CallSound(hash, def, tenant, c)
    ensures forall i | 0 <= i < |calls + [c]| :: CallSound(hash, def, tenant, (calls + [c])[i])
  {
  }

  lemma ReceiptsSnoc(hash: Hash, def: Definition, tenant: Tenant, calls: seq<Call>, c: Call)
    requires forall i | 0 <= i < |calls| :: calls[i].transition.action.Some?
    requires c.transition.action.Some?
    ensures forall i | 0 <= i < |calls + [c]| :: (calls + [c])[i].transition.action.Some?
    ensures Receipts(hash, def, tenant, calls + [c]) == Receipts(hash, def, tenant, calls) + [Receipt(hash, def, tenant, c)]
  {
  }

  lemma DispatchApproval(k: Kernel, s: Inst, t: Transition, spec: CapabilitySpec)
    requires PendingInv(k, s) && GrantStands(k, s) && ApprovalInv(k, s)
    requires s.status == Running && First(s.definition, s.state) == Some(t)
    requires t.action.Some? && k.catalog(t.action.value.capabilityId) == Some(spec)
    requires spec.effect.ExternalMutation? ==> s.pendingTransition.Some?
    ensures var r := Dispatch(k, s, t, spec);
      && (r.Done? ==> ApprovalInv(k, r.inst))
      && (r.Violation? ==> ApprovalInv(k, Fail(r.inst, r.reason)))
  {
    var r := Dispatch(k, s, t, spec);
    var resolution := ResolvedInput(t.action.value, s.data);
    if r.Done? {
      DispatchDone(k, s, t, spec);
      NextCallSound(k, s, t, spec, resolution.input);
      var sent := DispatchEvent(k, s, t, spec.effect, resolution.input);
      SentEmit(s.history, sent);
      SentEmit(s.history + [sent], Applied(t.fromState, t.toState));
      CalledApproval(k, s, r.inst, Call(t, spec.effect, resolution.input, s.sealed, s.pendingIntent));
    } else if r.Violation? {
      DispatchBroken(k, s, t, spec, r.inst, r.reason);
    }
  }

  lemma DispatchBroken(k: Kernel, s: Inst, t: Transition, spec: CapabilitySpec, s': Inst, reason: FailReason)
    requires PendingInv(k, s) && GrantStands(k, s) && ApprovalInv(k, s)
    requires s.status == Running && First(s.definition, s.state) == Some(t)
    requires t.action.Some? && k.catalog(t.action.value.capabilityId) == Some(spec)
    requires spec.effect.ExternalMutation? ==> s.pendingTransition.Some?
    requires Dispatch(k, s, t, spec) == Violation(s', reason)
    ensures ApprovalInv(k, Fail(s', reason))
  {
    if s' == s {
      FailApproval(k, s, reason);
    } else {
      var input := ResolvedInput(t.action.value, s.data).input;
      NextCallSound(k, s, t, spec, input);
      SentEmit(s.history, Broken(reason));
      CalledApproval(k, s, Fail(s', reason), Call(t, spec.effect, input, s.sealed, s.pendingIntent));
    }
  }

  lemma AdvanceApproval(k: Kernel, s: Inst, t: Transition)
    requires PendingInv(k, s) && GrantStands(k, s) && ApprovalInv(k, s)
    requires s.status == Running && First(s.definition, s.state) == Some(t)
    ensures var r := Advance(k, s, t);
      && (r.Done? ==> ApprovalInv(k, r.inst))
      && (r.Violation? ==> ApprovalInv(k, Fail(r.inst, r.reason)))
      && (r.Thrown? ==> ApprovalInv(k, r.inst))
  {
    var r := Advance(k, s, t);
    if t.action.None? {
      SentEmit(s.history, Applied(t.fromState, t.toState));
      QuietApproval(k, s, r.inst);
    } else if k.catalog(t.action.value.capabilityId).Some? {
      var spec := k.catalog(t.action.value.capabilityId).value;
      if spec.effect.ExternalMutation? && s.pendingTransition.None? {
        SealApproval(k, s, t);
      } else {
        DispatchApproval(k, s, t, spec);
      }
    }
  }

  lemma SealApproval(k: Kernel, s: Inst, t: Transition)
    requires t.action.Some? && ApprovalInv(k, s) && s.status == Running
    ensures var r := Seal(k, s, t);
      && (r.Done? ==> ApprovalInv(k, r.inst))
      && (r.Violation? ==> ApprovalInv(k, Fail(r.inst, r.reason)))
      && (r.Thrown? ==> ApprovalInv(k, r.inst))
  {
    var r := Seal(k, s, t);
    match r
    case Done(s') => SentEmit(s.history, s'.history[|s.history|]); QuietApproval(k, s, s');
    case Violation(s', reason) => FailApproval(k, s, reason);
    case Thrown(s', _) => QuietApproval(k, s, s');
  }

  lemma PausedApproval(k: Kernel, s: Inst, approver: Approver)
    requires PendingInv(k, s) && s.status == Paused && ApprovalInv(k, s)
    ensures ApprovalInv(k, ResolvePending(k, s, approver).inst)
  {
    var intent := s.pendingIntent.value;
    var asked := s.(consulted := s.consulted + 1, readings := s.readings + 1);
    ResolveUnfold(k, s, approver);
    QuietApproval(k, s, asked);
    EnactApproval(k, asked, intent, Judge(k, s, intent, s.pendingTransition.value, approver(intent)));
  }

  lemma EndApproval(k: Kernel, s: Inst, resolvedHere: bool)
    requires ApprovalInv(k, s) && s.status == Running && First(s.definition, s.state).None?
    ensures ApprovalInv(k, StepRunning(k, s, resolvedHere).inst)
  {
    SentEmit(s.history, Finished(s.state));
    QuietApproval(k, s, Emit(s.(status := Completed), Finished(s.state)));
    FailApproval(k, s, NoTransition(s.state));
  }

  lemma MoveApproval(k: Kernel, s: Inst, t: Transition, resolvedHere: bool)
    requires PendingInv(k, s) && GrantStands(k, s) && ApprovalInv(k, s)
    requires s.status == Running && First(s.definition, s.state) == Some(t)
    ensures ApprovalInv(k, StepRunning(k, s, resolvedHere).inst)
  {
    AdvanceApproval(k, s, t);
    var r := Advance(k, s, t);
    if r.Done? {
      var charged := r.inst.(steps := r.inst.steps + 1);
      QuietApproval(k, r.inst, charged);
      FailApproval(k, charged, BudgetExhausted);
    }
  }

  lemma StepApproval(k: Kernel, s: Inst, approver: Option<Approver>, resolvedHere: bool)
    requires CoreInv(k, s) && GrantStands(k, s) && ApprovalInv(k, s)
    ensures ApprovalInv(k, Step(k, s, approver, resolvedHere).inst)
  {
    if s.status == Paused {
      if approver.Some? {
        PausedApproval(k, s, approver.value);
      }
    } else if s.status == Running {
      match First(s.definition, s.state)
      case None => EndApproval(k, s, resolvedHere);
      case Some(t) => MoveApproval(k, s, t, resolvedHere);
    }
  }

  lemma StartApproval(k: Kernel, def: Definition, tenant: Tenant, data: Dict, readings: nat, minted: nat)
    ensures ApprovalInv(k, Start(def, tenant, data, readings, minted))
  {
    SentEmit([], Started(def.workflowId, def.revision, def.initialState));
  }

  ghost predicate Audited(k: Kernel, s: Inst) {
    TraceInv(k, s) && ApprovalInv(k, s)
  }

  lemma TurnsAudited(k: Kernel)
    ensures forall x: Inst, a: Option<Approver>, f: bool ::
      CoreInv(k, x) && Audited(k, x) ==> Audited(k, Step(k, x, a, f).inst)
  {
    forall x: Inst, a: Option<Approver>, f: bool | CoreInv(k, x) && Audited(k, x)
      ensures Audited(k, Step(k, x, a, f).inst)
    {
      StepTraced(k, x, a, f);
      StepApproval(k, x, a, f);
    }
  }

  lemma IdleAudited(k: Kernel, s: Inst, data: Dict, readings: nat, minted: nat)
    requires AtRest(s) && Audited(k, s)
    ensures Audited(k, s.(data := data)) && Audited(k, s.(readings := readings, minted := minted))
  {
    QuietApproval(k, s, s.(data := data));
    QuietApproval(k, s, s.(readings := readings, minted := minted));
  }

  lemma LiveApproval(k: Kernel, s: Inst, actions: seq<Action>)
    requires CoreInv(k, s) && AtRest(s) && Audited(k, s)
    ensures Audited(k, Live(k, s, actions))
  {
    TurnsAudited(k);
    forall x: Inst, d: Dict, r: nat, m: nat | AtRest(x) && Audited(k, x)
      ensures Audited(k, x.(data := d)) && Audited(k, x.(readings := r, minted := m))
    {
      IdleAudited(k, x, d, r, m);
    }
    LiveKeeps(k, s, actions, (x: Inst) => Audited(k, x));
  }

  // ------------------------------------------------------------- the theorems

  lemma GovernedSame(def: Definition, t: Transition, x: Dict, y: Dict)
    ensures Same(Obj(GovernedPayload(def, t, x)), Obj(GovernedPayload(def, t, y))) <==> Same(Obj(x), Obj(y))
  {
    var ms, ns := GovernedPayload(def, t, x), GovernedPayload(def, t, y);
    AlignedSame(ms, ns);
    assert forall i | 0 <= i < 4 :: ms[i] == ns[i];
    assert ms[4].value == Obj(x) && ns[4].value == Obj(y);
    forall i | 0 <= i < 4
      ensures Same(ms[i].value, ns[i].value)
    {
    }
  }

  /** The texts behind the seal of `x` and of `y`. */
  function SealTexts(def: Definition, tenant: Tenant, t: Transition, x: Dict, y: Dict): set<string>
    requires t.action.Some?
  {
    { Material(tenant, t.action.value.capabilityId, GovernedPayload(def, t, x)),
      Material(tenant, t.action.value.capabilityId, GovernedPayload(def, t, y)) }
  }

  /** In every life, every external effect is recorded with an approval digest,
      and its handler is given the input the human approved: the same values, and
      not only the same digest, unless the hash collides on those two texts. */
  lemma ApprovedIsWhatRuns(k: Kernel, def: Definition, tenant: Tenant, data: Dict, readings: nat, minted: nat,
                           actions: seq<Action>, c: Call)
    requires k.maxSteps >= 1
    requires c in Live(k, Start(def, tenant, data, readings, minted), actions).calls && c.effect.ExternalMutation?
    ensures c.transition.action.Some? && c.approved.Some?
    ensures SealDigest(k.hash, def, tenant, c.transition, c.approved.value) == SealDigest(k.hash, def, tenant, c.transition, c.input)
    ensures CollisionFree(k.hash, SealTexts(def, tenant, c.transition, c.approved.value, c.input)) ==>
      Same(Obj(c.approved.value), Obj(c.input))
  {
    var s0 := Start(def, tenant, data, readings, minted);
    StartCore(k, def, tenant, data, readings, minted);
    StartTraced(k, def, tenant, data, readings, minted);
    StartApproval(k, def, tenant, data, readings, minted);
    LiveApproval(k, s0, actions);
    LiveIdentity(k, s0, actions);
    if CollisionFree(k.hash, SealTexts(def, tenant, c.transition, c.approved.value, c.input)) {
      MaterialIff(tenant, c.transition.action.value.capabilityId, GovernedPayload(def, c.transition, c.approved.value),
                  tenant, c.transition.action.value.capabilityId, GovernedPayload(def, c.transition, c.input));
      GovernedSame(def, c.transition, c.approved.value, c.input);
    }
  }

  /** An instance keeps its definition and its tenant for life. */
  lemma LiveIdentity(k: Kernel, s: Inst, actions: seq<Action>)
    requires CoreInv(k, s) && AtRest(s)
    ensures SameInstance(s, Live(k, s, actions))
  {
    var inv := (x: Inst) => SameInstance(s, x);
    forall x: Inst, a: Option<Approver>, f: bool | CoreInv(k, x) && inv(x)
      ensures inv(Step(k, x, a, f).inst)
    {
      StepIdentity(k, x, a, f);
    }
    LiveKeeps(k, s, actions, inv);
  }

  predicate SameInstance(s: Inst, s': Inst) {
    s'.definition == s.definition && s'.tenant == s.tenant
  }

  lemma AdvanceIdentity(k: Kernel, s: Inst, t: Transition)
    ensures SameInstance(s, Advance(k, s, t).inst)
  {
  }

  lemma ResolveIdentity(k: Kernel, s: Inst, approver: Approver)
    ensures SameInstance(s, ResolvePending(k, s, approver).inst)
  {
    if s.pendingIntent.Some? && s.pendingTransition.Some? && s.pendingTransition.value.action.Some? {
      ResolveUnfold(k, s, approver);
    }
  }

  lemma StepIdentity(k: Kernel, s: Inst, approver: Option<Approver>, resolvedHere: bool)
    ensures SameInstance(s, Step(k, s, approver, resolvedHere).inst)
  {
    if s.status == Paused && approver.Some? {
      ResolveIdentity(k, s, approver.value);
    } else if s.status == Running && First(s.definition, s.state).Some? {
      AdvanceIdentity(k, s, First(s.definition, s.state).value);
    }
  }

  /** Whatever the host has put into the data since the seal, the approval of a
      paused instance is granted exactly when the decision is about this intent,
      approves it, names a human, comes in time, and the input still resolves to
      the values that were sealed. */
  lemma GrantedIff(k: Kernel, s: Inst, approver: Approver)
    requires CoreInv(k, s) && s.status == Paused
    requires var t := s.pendingTransition.value; var r := ResolvedInput(t.action.value, s.data);
      r.Resolved? ==> CollisionFree(k.hash, SealTexts(s.definition, s.tenant, t, s.sealed.value, r.input))
    ensures
      var intent, t := s.pendingIntent.value, s.pendingTransition.value;
      var decision, r := approver(intent), ResolvedInput(t.action.value, s.data);
      Judge(k, s, intent, t, decision).Grant? <==>
        && decision.intentId == intent.intentId && decision.approved
        && !Blank(decision.decidedBy) && k.clock(s.readings) < intent.expiresAt
        && r.Resolved? && Same(Obj(s.sealed.value), Obj(r.input))
  {
    var intent, t := s.pendingIntent.value, s.pendingTransition.value;
    var decision, r := approver(intent), ResolvedInput(t.action.value, s.data);
    if r.Resolved? {
      SealedVerifiesIff(k.hash, intent.(actor := decision.decidedBy), GovernedPayload(s.definition, t, s.sealed.value),
                        s.tenant, t.action.value.capabilityId, GovernedPayload(s.definition, t, r.input), k.clock(s.readings));
      GovernedSame(s.definition, t, s.sealed.value, r.input);
    }
  }

  /** Without a grant nothing is dispatched: the call of `run` ends at once, paused
      unless the human refused, and by an exception exactly when the decision is
      about this intent and the input no longer resolves. */
  lemma NotGrantedStays(k: Kernel, s: Inst, approver: Approver)
    requires CoreInv(k, s) && s.status == Paused
    requires !Judge(k, s, s.pendingIntent.value, s.pendingTransition.value, approver(s.pendingIntent.value)).Grant?
    ensures var r := Run(k, s, Some(approver));
      var decision := approver(s.pendingIntent.value);
      var found := ResolvedInput(s.pendingTransition.value.action.value, s.data).Resolved?;
      && r.inst.calls == s.calls && r.inst.data == s.data && r.inst.state == s.state && r.inst.steps == s.steps
      && (r.escape.Some? <==> decision.intentId == s.pendingIntent.value.intentId && !found)
      && (r.inst.status == Failed <==> decision.intentId == s.pendingIntent.value.intentId && found && !decision.approved)
      && (r.inst.status != Failed ==> r.inst.status == Paused && r.inst.pendingIntent == s.pendingIntent)
  {
    ResolveUnfold(k, s, approver);
    assert Step(k, s, Some(approver), false).Stop?;
  }
}
