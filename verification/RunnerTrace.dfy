/** The event history of an instance is a run of one small automaton over its
    definition, and the automaton's state is the instance's status. */
module TraceAutomaton {
  import opened Workflows
  import opened RunnerSpec
  import opened RunnerInvariant

  datatype Auto =
    | Begin
    | Ready(state: string)                      // nothing pending in this state
    | Fired(transition: Transition)             // handler ran, the move is next
    | Open(intentId: string, state: string)     // waiting for a human
    | Cleared(intentId: string, state: string)  // granted, the dispatch is next
    | Refused(actor: string)                    // rejected, the failure is next
    | Over
    | Bad

  predicate InlineDispatch(catalog: Catalog, t: Transition, e: Event) {
    && e.Dispatched? && t.action.Some? && !IsGate(catalog, t)
    && e.capabilityId == t.action.value.capabilityId
    && catalog(e.capabilityId).Some? && e.effect == catalog(e.capabilityId).value.effect
    && e.fromState == t.fromState && e.toState == t.toState && e.approvalDigest.None?
  }

  predicate GovernedDispatch(catalog: Catalog, t: Transition, e: Event) {
    && e.Dispatched? && IsGate(catalog, t)
    && e.capabilityId == t.action.value.capabilityId && e.effect.ExternalMutation?
    && e.fromState == t.fromState && e.toState == t.toState && e.approvalDigest.Some?
  }

  function FromReady(catalog: Catalog, def: Definition, st: string, e: Event): Auto {
    match First(def, st)
    case None =>
      if e == Finished(st) && IsTerminal(def, st) then Over
      else if e == Broken(NoTransition(st)) && !IsTerminal(def, st) then Over
      else if e == Broken(BudgetExhausted) then Over
      else Bad
    case Some(t) =>
      if t.action.None? && e == Applied(t.fromState, t.toState) then Ready(t.toState)
      else if InlineDispatch(catalog, t, e) then Fired(t)
      else if IsGate(catalog, t) && e.Requested? && e.capabilityId == t.action.value.capabilityId && e.state == st then
        Open(e.intentId, st)
      else if e.Broken? && (e.reason.PolicyDenied? || e.reason.MissingBinding? || e.reason.HandlerRaised? || e.reason.BudgetExhausted?) then
        Over
      else Bad
  }

  function FromOpen(a: Auto, e: Event): Auto
    requires a.Open?
  {
    match e
    case Mismatched(other) => if other != a.intentId then a else Bad
    case Invalid(intentId, reasons) => if intentId == a.intentId && reasons != [] then a else Bad
    case Granted(intentId, _) => if intentId == a.intentId then Cleared(a.intentId, a.state) else Bad
    case Rejected(intentId, actor) => if intentId == a.intentId then Refused(actor) else Bad
    case Broken(reason) => if reason.BudgetExhausted? then Over else Bad
    case _ => Bad
  }

  function FromCleared(catalog: Catalog, def: Definition, a: Auto, e: Event): Auto
    requires a.Cleared?
  {
    match First(def, a.state)
    case None => Bad
    case Some(t) =>
      if GovernedDispatch(catalog, t, e) then Fired(t)
      else if e.Broken? && (e.reason.PolicyDenied? || e.reason.HandlerRaised?) then Over
      else Bad
  }

  function Delta(catalog: Catalog, def: Definition, a: Auto, e: Event): Auto {
    match a
    case Begin => if e == Started(def.workflowId, def.revision, def.initialState) then Ready(def.initialState) else Bad
    case Ready(st) => FromReady(catalog, def, st, e)
    case Fired(t) => if e == Applied(t.fromState, t.toState) then Ready(t.toState) else Bad
    case Open(_, _) => FromOpen(a, e)
    case Cleared(_, _) => FromCleared(catalog, def, a, e)
    case Refused(actor) => if e == Broken(RejectedBy(actor)) then Over else Bad
    case _ => Bad
  }

  function Replay(catalog: Catalog, def: Definition, h: seq<Event>): Auto {
    if h == [] then Begin else Delta(catalog, def, Replay(catalog, def, h[..|h| - 1]), h[|h| - 1])
  }

  lemma ReplayEmit(catalog: Catalog, def: Definition, h: seq<Event>, e: Event)
    ensures Replay(catalog, def, h + [e]) == Delta(catalog, def, Replay(catalog, def, h), e)
  {
    assert (h + [e])[..|h + [e]| - 1] == h;
  }

  /** The automaton state that an instance's fields describe. */
  function Shape(s: Inst): Auto {
    match s.status
    case Running => if s.pendingIntent.Some? then Cleared(s.pendingIntent.value.intentId, s.state) else Ready(s.state)
    case Paused => if s.pendingIntent.Some? then Open(s.pendingIntent.value.intentId, s.state) else Bad
    case _ => Over
  }

  predicate Traced(k: Kernel, s: Inst) {
    Replay(k.catalog, s.definition, s.history) == Shape(s)
  }

  /** An approval that has just been granted covers the input as it resolves now. */
  ghost predicate GrantStands(k: Kernel, s: Inst) {
    s.status == Running && s.pendingTransition.Some? ==>
      && s.pendingTransition.value.action.Some? && s.pendingIntent.Some?
      && var r := ResolvedInput(s.pendingTransition.value.action.value, s.data);
         && r.Resolved?
         && s.pendingIntent.value.payloadDigest
            == SealDigest(k.hash, s.definition, s.tenant, s.pendingTransition.value, r.input)
  }

  ghost predicate TraceInv(k: Kernel, s: Inst) {
    Traced(k, s) && GrantStands(k, s)
  }
}

module RunnerTrace {
  import opened Text
  import opened Json
  import opened IntentBinding
  import opened Workflows
  import opened RunnerSpec
  import opened RunnerInvariant
  import opened RunnerBudget
  import opened TraceAutomaton

  lemma StartTraced(k: Kernel, def: Definition, tenant: Tenant, data: Dict, readings: nat, minted: nat)
    ensures TraceInv(k, Start(def, tenant, data, readings, minted))
  {
    ReplayEmit(k.catalog, def, [], Started(def.workflowId, def.revision, def.initialState));
  }

  /** Failing is the end of the trace wherever the automaton allows it. */
  lemma FailTraced(k: Kernel, s: Inst, reason: FailReason)
    requires Delta(k.catalog, s.definition, Replay(k.catalog, s.definition, s.history), Broken(reason)) == Over
    ensures TraceInv(k, Fail(s, reason))
  {
    ReplayEmit(k.catalog, s.definition, s.history, Broken(reason));
  }

  lemma RefusalTraced(k: Kernel, s: Inst, intent: Intent, actor: string)
    requires s.status == Paused && s.pendingIntent == Some(intent) && Traced(k, s)
    ensures TraceInv(k, Fail(Emit(s, Rejected(intent.intentId, actor)), RejectedBy(actor)))
  {
    ReplayEmit(k.catalog, s.definition, s.history, Rejected(intent.intentId, actor));
    FailTraced(k, Emit(s, Rejected(intent.intentId, actor)), RejectedBy(actor));
  }

  lemma EnactTraced(k: Kernel, s: Inst, intent: Intent, verdict: Verdict)
    requires s.status == Paused && s.pendingIntent == Some(intent) && Traced(k, s)
    requires verdict.OtherIntent? ==> verdict.intentId != intent.intentId
    requires verdict.Unsound? ==> verdict.reasons != []
    ensures Traced(k, Enact(s, intent, verdict).inst)
  {
    match verdict
    case NothingToApprove =>
    case OtherIntent(other) => OpenTraced(k, s, intent.intentId, Mismatched(other));
    case Refusal(actor) => RefusalTraced(k, s, intent, actor);
    case Unsound(reasons) => OpenTraced(k, s, intent.intentId, Invalid(intent.intentId, reasons));
    case Grant(actor) => OpenTraced(k, s, intent.intentId, Granted(intent.intentId, actor));
  }

  lemma OpenTraced(k: Kernel, s: Inst, intentId: string, e: Event)
    requires Replay(k.catalog, s.definition, s.history) == Open(intentId, s.state)
    ensures Replay(k.catalog, s.definition, s.history + [e]) == FromOpen(Open(intentId, s.state), e)
  {
    ReplayEmit(k.catalog, s.definition, s.history, e);
  }

  /** A grant is given only when the digest covers what the input resolves to. */
  lemma JudgeSound(k: Kernel, s: Inst, intent: Intent, t: Transition, decision: Decision)
    requires t.action.Some?
    ensures var verdict := Judge(k, s, intent, t, decision);
      && (verdict.OtherIntent? ==> verdict.intentId != intent.intentId)
      && (verdict.Unsound? ==> verdict.reasons != [])
      && (verdict.Grant? ==>
        var r := ResolvedInput(t.action.value, s.data);
        && r.Resolved? && intent.payloadDigest == SealDigest(k.hash, s.definition, s.tenant, t, r.input))
  {
    var r := ResolvedInput(t.action.value, s.data);
    if r.Resolved? {
      NoReasonIff(k.hash, intent.(actor := decision.decidedBy), s.tenant, t.action.value.capabilityId,
                  GovernedPayload(s.definition, t, r.input), k.clock(s.readings));
    }
  }

  lemma ResolveTraced(k: Kernel, s: Inst, approver: Approver)
    requires PendingInv(k, s) && s.status == Paused && Traced(k, s)
    ensures TraceInv(k, ResolvePending(k, s, approver).inst)
  {
    var intent, t := s.pendingIntent.value, s.pendingTransition.value;
    var verdict := Judge(k, s, intent, t, approver(intent));
    var asked := s.(consulted := s.consulted + 1, readings := s.readings + 1);
    ResolveUnfold(k, s, approver);
    JudgeSound(k, s, intent, t, approver(intent));
    EnactTraced(k, asked, intent, verdict);
  }

  lemma SealTraced(k: Kernel, s: Inst, t: Transition)
    requires PendingInv(k, s) && TraceInv(k, s) && s.status == Running && First(s.definition, s.state) == Some(t)
    requires IsGate(k.catalog, t) && s.pendingTransition.None?
    ensures var r := Seal(k, s, t);
      && (r.Done? ==> TraceInv(k, r.inst))
      && (r.Violation? ==> r.inst == s && r.reason.MissingBinding?)
      && (r.Thrown? ==> TraceInv(k, r.inst))
  {
    var r := Seal(k, s, t);
    if r.Done? {
      ReplayEmit(k.catalog, s.definition, s.history, r.inst.history[|s.history|]);
    }
  }

  lemma DispatchFails(k: Kernel, s: Inst, t: Transition, spec: CapabilitySpec)
    requires TraceInv(k, s) && s.status == Running && t.action.Some?
    requires s.pendingTransition.Some? ==> s.pendingTransition == Some(t)
    ensures var r := Dispatch(k, s, t, spec);
      && !r.Thrown?
      && (r.Violation? ==>
        && r.inst.history == s.history && r.inst.definition == s.definition
        && (r.reason.PolicyDenied? || r.reason.HandlerRaised? || (r.reason.MissingBinding? && s.pendingTransition.None?)))
  {
  }

  lemma DispatchTraced(k: Kernel, s: Inst, t: Transition, spec: CapabilitySpec)
    requires PendingInv(k, s) && Traced(k, s) && s.status == Running && First(s.definition, s.state) == Some(t)
    requires t.action.Some? && k.catalog(t.action.value.capabilityId) == Some(spec)
    requires spec.effect.ExternalMutation? ==> s.pendingTransition.Some?
    requires Dispatch(k, s, t, spec).Done?
    ensures TraceInv(k, Dispatch(k, s, t, spec).inst)
  {
    DispatchDone(k, s, t, spec);
    var input := ResolvedInput(t.action.value, s.data).input;
    var h, sent, moved := s.history, DispatchEvent(k, s, t, spec.effect, input), Applied(t.fromState, t.toState);
    SentTraced(k.catalog, s.definition, h, Shape(s), t, sent);
  }

  lemma SentTraced(catalog: Catalog, def: Definition, h: seq<Event>, a: Auto, t: Transition, sent: Event)
    requires Replay(catalog, def, h) == a && (a.Ready? || a.Cleared?) && First(def, a.state) == Some(t)
    requires a.Ready? ==> InlineDispatch(catalog, t, sent)
    requires a.Cleared? ==> GovernedDispatch(catalog, t, sent)
    ensures Replay(catalog, def, h + [sent] + [Applied(t.fromState, t.toState)]) == Ready(t.toState)
  {
    ReplayEmit(catalog, def, h, sent);
    ReplayEmit(catalog, def, h + [sent], Applied(t.fromState, t.toState));
  }

  lemma BreaksOver(catalog: Catalog, def: Definition, a: Auto, t: Transition, reason: FailReason)
    requires (a.Ready? || a.Cleared?) && First(def, a.state) == Some(t)
    requires reason.PolicyDenied? || reason.HandlerRaised? || (reason.MissingBinding? && a.Ready?)
    ensures Delta(catalog, def, a, Broken(reason)) == Over
  {
  }

  /** Whatever goes wrong in a state, the trace may end there. */
  lemma ViolationTraced(k: Kernel, s: Inst, s': Inst, t: Transition, reason: FailReason)
    requires PendingInv(k, s) && Traced(k, s) && s.status == Running && First(s.definition, s.state) == Some(t)
    requires s'.history == s.history && s'.definition == s.definition
    requires reason.PolicyDenied? || reason.HandlerRaised? || (reason.MissingBinding? && s.pendingTransition.None?)
    ensures TraceInv(k, Fail(s', reason))
  {
    BreaksOver(k.catalog, s.definition, Shape(s), t, reason);
    FailTraced(k, s', reason);
  }

  lemma AdvanceTraced(k: Kernel, s: Inst, t: Transition)
    requires PendingInv(k, s) && TraceInv(k, s) && s.status == Running && First(s.definition, s.state) == Some(t)
    ensures var r := Advance(k, s, t);
      && (r.Done? ==> TraceInv(k, r.inst))
      && (r.Violation? ==> TraceInv(k, Fail(r.inst, r.reason)))
      && (r.Thrown? ==> TraceInv(k, r.inst))
  {
    var r := Advance(k, s, t);
    if t.action.None? {
      ReplayEmit(k.catalog, s.definition, s.history, Applied(t.fromState, t.toState));
    } else if k.catalog(t.action.value.capabilityId).Some? {
      var spec := k.catalog(t.action.value.capabilityId).value;
      if spec.effect.ExternalMutation? && s.pendingTransition.None? {
        SealTraced(k, s, t);
      } else {
        DispatchFails(k, s, t, spec);
        if r.Done? {
          DispatchTraced(k, s, t, spec);
        }
      }
      if r.Violation? {
        ViolationTraced(k, s, r.inst, t, r.reason);
      }
    }
  }

  /** After a move nothing is pending; after a pause something is. */
  lemma AdvanceSettles(k: Kernel, s: Inst, t: Transition)
    requires CoreInv(k, s) && s.status == Running && First(s.definition, s.state) == Some(t) && Advance(k, s, t).Done?
    ensures var r := Advance(k, s, t).inst;
      (r.status == Running && r.pendingIntent.None?) || (r.status == Paused && r.pendingIntent.Some?)
  {
  }

  lemma EndTraced(k: Kernel, s: Inst, resolvedHere: bool)
    requires PendingInv(k, s) && Traced(k, s) && s.status == Running && First(s.definition, s.state).None?
    ensures TraceInv(k, StepRunning(k, s, resolvedHere).inst)
  {
    ReplayEmit(k.catalog, s.definition, s.history, Finished(s.state));
    if !IsTerminal(s.definition, s.state) {
      FailTraced(k, s, NoTransition(s.state));
    }
  }

  lemma MoveTraced(k: Kernel, s: Inst, t: Transition, resolvedHere: bool)
    requires CoreInv(k, s) && TraceInv(k, s) && s.status == Running && First(s.definition, s.state) == Some(t)
    ensures TraceInv(k, StepRunning(k, s, resolvedHere).inst)
  {
    AdvanceTraced(k, s, t);
    var r := Advance(k, s, t);
    if r.Done? {
      AdvanceSettles(k, s, t);
      BudgetTraced(k, r.inst);
    }
  }

  lemma BudgetTraced(k: Kernel, s: Inst)
    requires TraceInv(k, s)
    requires (s.status == Running && s.pendingIntent.None?) || (s.status == Paused && s.pendingIntent.Some?)
    ensures var charged := s.(steps := s.steps + 1); TraceInv(k, charged) && TraceInv(k, Fail(charged, BudgetExhausted))
  {
    FailTraced(k, s.(steps := s.steps + 1), BudgetExhausted);
  }

  lemma StepTraced(k: Kernel, s: Inst, approver: Option<Approver>, resolvedHere: bool)
    requires CoreInv(k, s) && TraceInv(k, s)
    ensures TraceInv(k, Step(k, s, approver, resolvedHere).inst)
  {
    if s.status == Paused {
      if approver.Some? {
        ResolveTraced(k, s, approver.value);
      }
    } else if s.status == Running {
      match First(s.definition, s.state)
      case None => EndTraced(k, s, resolvedHere);
      case Some(t) => MoveTraced(k, s, t, resolvedHere);
    }
  }

  lemma TurnsTraced(k: Kernel)
    ensures forall x: Inst, a: Option<Approver>, f: bool ::
      CoreInv(k, x) && TraceInv(k, x) ==> TraceInv(k, Step(k, x, a, f).inst)
  {
    forall x: Inst, a: Option<Approver>, f: bool | CoreInv(k, x) && TraceInv(k, x)
      ensures TraceInv(k, Step(k, x, a, f).inst)
    {
      StepTraced(k, x, a, f);
    }
  }

  /** In every life, replaying the history through the automaton gives the status,
      the state and the pending intent of the instance. */
  lemma LiveTraced(k: Kernel, s: Inst, actions: seq<Action>)
    requires CoreInv(k, s) && AtRest(s) && TraceInv(k, s)
    ensures TraceInv(k, Live(k, s, actions))
  {
    var inv := (x: Inst) => TraceInv(k, x);
    TurnsTraced(k);
    IdlesTraced(k);
    LiveKeeps(k, s, actions, inv);
    assert inv(Live(k, s, actions));
  }

  /** At rest nothing has been granted that new data could unsettle. */
  lemma IdlesTraced(k: Kernel)
    ensures forall x: Inst, d: Dict :: AtRest(x) && TraceInv(k, x) ==> TraceInv(k, x.(data := d))
    ensures forall x: Inst, r: nat, m: nat :: AtRest(x) && TraceInv(k, x) ==> TraceInv(k, x.(readings := r, minted := m))
  {
  }
}
