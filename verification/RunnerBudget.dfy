/** The invariant survives everything: every turn of the loop, whatever approvers
    answer, and whatever the host puts into the data between calls. */
module RunnerBudget {
  import opened Text
  import opened Json
  import opened IntentBinding
  import opened Workflows
  import opened RunnerSpec
  import opened RunnerInvariant

  lemma CountEmit(h: seq<Event>, e: Event)
    ensures CountApplied(h + [e]) == CountApplied(h) + if e.Applied? then 1 else 0
    ensures CountRequested(h + [e]) == CountRequested(h) + if e.Requested? then 1 else 0
  {
    assert (h + [e])[..|h + [e]| - 1] == h;
  }

  lemma StartCore(k: Kernel, def: Definition, tenant: Tenant, data: Dict, readings: nat, minted: nat)
    requires k.maxSteps >= 1
    ensures CoreInv(k, Start(def, tenant, data, readings, minted))
  {
    CountEmit([], Started(def.workflowId, def.revision, def.initialState));
  }

  lemma FailKeepsCore(k: Kernel, s: Inst, reason: FailReason)
    requires Paid(k, s)
    ensures CoreInv(k, Fail(s, reason))
  {
    CountEmit(s.history, Broken(reason));
  }

  /** An event that moves nothing, on a paused instance, keeps the invariant. */
  lemma QuietKeepsCore(k: Kernel, s: Inst, s': Inst, e: Event)
    requires CoreInv(k, s) && s.status == Paused && !Final(s')
    requires s'.history == s.history + [e] && !e.Applied? && !e.Requested?
    requires s'.definition == s.definition && s'.tenant == s.tenant && s'.state == s.state && s'.steps == s.steps
    requires s'.pendingIntent == s.pendingIntent && s'.pendingTransition == s.pendingTransition && s'.sealed == s.sealed
    ensures CoreInv(k, s')
  {
    CountEmit(s.history, e);
  }

  lemma RefusalKeepsCore(k: Kernel, s: Inst, intentId: string, actor: string)
    requires CoreInv(k, s) && s.status == Paused
    ensures CoreInv(k, Fail(Emit(s, Rejected(intentId, actor)), RejectedBy(actor)))
  {
    CountEmit(s.history, Rejected(intentId, actor));
    StandingPaid(k, s);
    FailKeepsCore(k, Emit(s, Rejected(intentId, actor)), RejectedBy(actor));
  }

  lemma EnactKeepsCore(k: Kernel, s: Inst, intent: Intent, verdict: Verdict)
    requires CoreInv(k, s) && s.status == Paused
    ensures CoreInv(k, Enact(s, intent, verdict).inst)
  {
    var s' := Enact(s, intent, verdict).inst;
    match verdict
    case NothingToApprove =>
    case OtherIntent(other) => QuietKeepsCore(k, s, s', Mismatched(other));
    case Refusal(actor) => RefusalKeepsCore(k, s, intent.intentId, actor);
    case Unsound(reasons) => QuietKeepsCore(k, s, s', Invalid(intent.intentId, reasons));
    case Grant(actor) => QuietKeepsCore(k, s, s', Granted(intent.intentId, actor));
  }

  lemma ResolveKeepsCore(k: Kernel, s: Inst, approver: Approver)
    requires CoreInv(k, s) && s.status == Paused
    ensures CoreInv(k, ResolvePending(k, s, approver).inst)
  {
    var intent, t := s.pendingIntent.value, s.pendingTransition.value;
    var asked := s.(consulted := s.consulted + 1, readings := s.readings + 1);
    ResolveUnfold(k, s, approver);
    assert CoreInv(k, asked);
    EnactKeepsCore(k, asked, intent, Judge(k, s, intent, t, approver(intent)));
  }

  lemma AtMove(catalog: Catalog, def: Definition, applied: nat, requested: nat, state: string, steps: int, t: Transition)
    requires At(catalog, def, applied, requested, state, steps, IsGate(catalog, t)) && First(def, state) == Some(t)
    ensures At(catalog, def, applied + 1, requested, t.toState, steps + 1, false)
  {
  }

  lemma AtPaid(catalog: Catalog, def: Definition, applied: nat, requested: nat, state: string, steps: int, open: bool)
    requires At(catalog, def, applied, requested, state, steps, open)
    requires open ==> First(def, state).Some? && IsGate(catalog, First(def, state).value)
    ensures Gates(catalog, def, applied) <= requested <= Gates(catalog, def, applied + 1)
  {
  }

  lemma StandingPaid(k: Kernel, s: Inst)
    requires PendingInv(k, s) && Standing(k, s, s.steps)
    ensures Paid(k, s)
  {
    AtPaid(k.catalog, s.definition, CountApplied(s.history), CountRequested(s.history), s.state, s.steps, s.pendingTransition.Some?);
  }

  lemma AdvanceCharges(k: Kernel, s: Inst, t: Transition)
    requires CoreInv(k, s) && s.status == Running && First(s.definition, s.state) == Some(t)
    ensures var r := Advance(k, s, t);
      && (r.Done? ==> PendingInv(k, r.inst) && Standing(k, r.inst, r.inst.steps + 1) && !Final(r.inst))
      && (r.Violation? ==> Paid(k, r.inst))
      && (r.Thrown? ==> CoreInv(k, r.inst))
  {
    if t.action.None? {
      InlineCharges(k, s, t);
    } else if k.catalog(t.action.value.capabilityId).Some? {
      var spec := k.catalog(t.action.value.capabilityId).value;
      if spec.effect.ExternalMutation? && s.pendingTransition.None? {
        SealAdvances(k, s, t);
      } else {
        DispatchAdvances(k, s, t, spec);
      }
    }
  }

  lemma SealAdvances(k: Kernel, s: Inst, t: Transition)
    requires CoreInv(k, s) && s.status == Running && First(s.definition, s.state) == Some(t)
    requires IsGate(k.catalog, t) && s.pendingTransition.None?
    ensures var r := Seal(k, s, t);
      && (r.Done? ==> PendingInv(k, r.inst) && Standing(k, r.inst, r.inst.steps + 1) && !Final(r.inst))
      && (r.Violation? ==> Paid(k, r.inst))
      && (r.Thrown? ==> CoreInv(k, r.inst))
  {
    SealViolates(k, s, t);
    if Seal(k, s, t).Done? {
      SealCharges(k, s, t);
    } else {
      StandingPaid(k, s);
    }
  }

  lemma DispatchAdvances(k: Kernel, s: Inst, t: Transition, spec: CapabilitySpec)
    requires CoreInv(k, s) && s.status == Running && First(s.definition, s.state) == Some(t)
    requires t.action.Some? && k.catalog(t.action.value.capabilityId) == Some(spec)
    requires spec.effect.ExternalMutation? ==> s.pendingTransition.Some?
    ensures var r := Dispatch(k, s, t, spec);
      && !r.Thrown?
      && (r.Done? ==> PendingInv(k, r.inst) && Standing(k, r.inst, r.inst.steps + 1) && !Final(r.inst))
      && (r.Violation? ==> Paid(k, r.inst))
  {
    DispatchViolates(k, s, t, spec);
    if Dispatch(k, s, t, spec).Done? {
      DispatchCharges(k, s, t, spec);
    } else {
      StandingPaid(k, s);
    }
  }

  lemma InlineCharges(k: Kernel, s: Inst, t: Transition)
    requires CoreInv(k, s) && s.status == Running && First(s.definition, s.state) == Some(t) && t.action.None?
    ensures PendingInv(k, Move(s, t)) && Standing(k, Move(s, t), s.steps + 1)
  {
    CountEmit(s.history, Applied(t.fromState, t.toState));
    AtMove(k.catalog, s.definition, CountApplied(s.history), CountRequested(s.history), s.state, s.steps, t);
  }

  lemma SealCharges(k: Kernel, s: Inst, t: Transition)
    requires CoreInv(k, s) && s.status == Running && First(s.definition, s.state) == Some(t)
    requires IsGate(k.catalog, t) && s.pendingTransition.None? && Seal(k, s, t).Done?
    ensures var r := Seal(k, s, t).inst; PendingInv(k, r) && Standing(k, r, r.steps + 1) && r.status == Paused
  {
    var r := Seal(k, s, t).inst;
    var requested := Requested(r.pendingIntent.value.intentId, t.action.value.capabilityId, s.state);
    assert r.history == s.history + [requested] && (r.definition, r.state, r.steps) == (s.definition, s.state, s.steps);
    StandsSealed(k.catalog, s.definition, s.history, requested, s.state, s.steps);
    SealPends(k, s, t);
  }

  lemma StandsSealed(catalog: Catalog, def: Definition, h: seq<Event>, requested: Event, state: string, steps: int)
    requires requested.Requested? && At(catalog, def, CountApplied(h), CountRequested(h), state, steps, false)
    ensures At(catalog, def, CountApplied(h + [requested]), CountRequested(h + [requested]), state, steps + 1, true)
  {
    CountEmit(h, requested);
  }

  lemma SealPends(k: Kernel, s: Inst, t: Transition)
    requires CoreInv(k, s) && First(s.definition, s.state) == Some(t)
    requires IsGate(k.catalog, t) && Seal(k, s, t).Done?
    ensures PendingInv(k, Seal(k, s, t).inst)
  {
  }

  lemma SealViolates(k: Kernel, s: Inst, t: Transition)
    requires t.action.Some?
    ensures var r := Seal(k, s, t);
      && (r.Violation? ==> r.inst == s)
      && (r.Thrown? ==> r.inst == s.(readings := s.readings + 2))
  {
  }

  lemma DispatchCharges(k: Kernel, s: Inst, t: Transition, spec: CapabilitySpec)
    requires CoreInv(k, s) && s.status == Running && First(s.definition, s.state) == Some(t)
    requires t.action.Some? && k.catalog(t.action.value.capabilityId) == Some(spec)
    requires spec.effect.ExternalMutation? ==> s.pendingTransition.Some?
    requires Dispatch(k, s, t, spec).Done?
    ensures var r := Dispatch(k, s, t, spec).inst; PendingInv(k, r) && Standing(k, r, r.steps + 1) && r.status == Running
  {
    DispatchDone(k, s, t, spec);
    var input := ResolvedInput(t.action.value, s.data).input;
    var sent := DispatchEvent(k, s, t, spec.effect, input);
    StandsOn(k.catalog, s.definition, s.history, sent, t, s.state, s.steps);
  }

  lemma StandsOn(catalog: Catalog, def: Definition, h: seq<Event>, sent: Event, t: Transition, state: string, steps: int)
    requires sent.Dispatched? && First(def, state) == Some(t)
    requires At(catalog, def, CountApplied(h), CountRequested(h), state, steps, IsGate(catalog, t))
    ensures var h' := h + [sent] + [Applied(t.fromState, t.toState)];
      At(catalog, def, CountApplied(h'), CountRequested(h'), t.toState, steps + 1, false)
  {
    CountEmit(h, sent);
    CountEmit(h + [sent], Applied(t.fromState, t.toState));
    AtMove(catalog, def, CountApplied(h), CountRequested(h), state, steps, t);
  }

  lemma DispatchViolates(k: Kernel, s: Inst, t: Transition, spec: CapabilitySpec)
    requires t.action.Some?
    ensures var r := Dispatch(k, s, t, spec);
      && !r.Thrown?
      && (r.Violation? ==> r.inst.(calls := s.calls) == s)
  {
  }

  lemma EndKeepsCore(k: Kernel, s: Inst)
    requires CoreInv(k, s) && s.status == Running && First(s.definition, s.state).None?
    ensures CoreInv(k, StepRunning(k, s, false).inst)
    ensures StepRunning(k, s, true).inst == StepRunning(k, s, false).inst
  {
    CountEmit(s.history, Finished(s.state));
    StandingPaid(k, s);
    FailKeepsCore(k, s, NoTransition(s.state));
  }

  /** Counting the step of a move or of a pause. */
  lemma CountStep(k: Kernel, s: Inst)
    requires PendingInv(k, s) && Standing(k, s, s.steps + 1) && !Final(s)
    ensures var charged := s.(steps := s.steps + 1);
      && Paid(k, charged)
      && (charged.steps < k.maxSteps ==> CoreInv(k, charged))
  {
    StandingPaid(k, s.(steps := s.steps + 1));
  }

  lemma MoveKeepsCore(k: Kernel, s: Inst, t: Transition, resolvedHere: bool)
    requires CoreInv(k, s) && s.status == Running && First(s.definition, s.state) == Some(t)
    ensures CoreInv(k, StepRunning(k, s, resolvedHere).inst)
  {
    AdvanceCharges(k, s, t);
    ChargeKeepsCore(k, Advance(k, s, t), resolvedHere);
  }

  lemma ChargeKeepsCore(k: Kernel, r: Advanced, resolvedHere: bool)
    requires r.Done? ==> PendingInv(k, r.inst) && Standing(k, r.inst, r.inst.steps + 1) && !Final(r.inst)
    requires r.Violation? ==> Paid(k, r.inst)
    requires r.Thrown? ==> CoreInv(k, r.inst)
    ensures CoreInv(k, Charge(k, r, resolvedHere).inst)
  {
    match r
    case Thrown(_, _) =>
    case Violation(s, reason) => FailKeepsCore(k, s, reason);
    case Done(s) =>
      CountStep(k, s);
      FailKeepsCore(k, s.(steps := s.steps + 1), BudgetExhausted);
  }

  lemma StepKeepsCore(k: Kernel, s: Inst, approver: Option<Approver>, resolvedHere: bool)
    requires CoreInv(k, s)
    ensures CoreInv(k, Step(k, s, approver, resolvedHere).inst)
  {
    if s.status == Paused {
      if approver.Some? {
        ResolveKeepsCore(k, s, approver.value);
      }
    } else if s.status == Running {
      if First(s.definition, s.state).None? {
        EndKeepsCore(k, s);
      } else {
        MoveKeepsCore(k, s, First(s.definition, s.state).value, resolvedHere);
      }
    }
  }

  lemma StopsAtRest(k: Kernel, s: Inst, approver: Option<Approver>, resolvedHere: bool)
    requires CoreInv(k, s) && Step(k, s, approver, resolvedHere).Stop?
    ensures AtRest(Step(k, s, approver, resolvedHere).inst)
  {
    if s.status == Paused && approver.Some? {
      ResolveUnfold(k, s, approver.value);
    } else if s.status == Running && First(s.definition, s.state).Some? && Advance(k, s, First(s.definition, s.state).value).Thrown? {
      ThrownAtRest(k, s, First(s.definition, s.state).value);
    }
  }

  lemma ThrownAtRest(k: Kernel, s: Inst, t: Transition)
    requires CoreInv(k, s) && First(s.definition, s.state) == Some(t) && Advance(k, s, t).Thrown?
    ensures Advance(k, s, t).inst.pendingTransition.None?
  {
  }

  lemma {:induction false} LoopEndsAtRest(k: Kernel, s: Inst, approver: Option<Approver>, resolvedHere: bool)
    requires CoreInv(k, s)
    ensures AtRest(Loop(k, s, approver, resolvedHere).inst)
    decreases StepsLeft(k, s), !resolvedHere
  {
    var r := Step(k, s, approver, resolvedHere);
    if r.Stop? {
      StopsAtRest(k, s, approver, resolvedHere);
    } else {
      StepDecreases(k, s, approver, resolvedHere);
      StepKeepsCore(k, s, approver, resolvedHere);
      LoopEndsAtRest(k, r.inst, approver, r.resolvedHere);
    }
  }

  /** What every turn keeps, given the invariant, a call of `run` keeps. */
  lemma RunKeeps(k: Kernel, s: Inst, approver: Option<Approver>, inv: Inst -> bool)
    requires CoreInv(k, s) && AtRest(s) && inv(s)
    requires forall x: Inst, a: Option<Approver>, f: bool :: CoreInv(k, x) && inv(x) ==> inv(Step(k, x, a, f).inst)
    ensures var r := Run(k, s, approver).inst; CoreInv(k, r) && AtRest(r) && inv(r)
  {
    if !Final(s) {
      LoopEndsAtRest(k, s, approver, false);
      var both := (x: Inst) => CoreInv(k, x) && inv(x);
      forall x: Inst, a: Option<Approver>, f: bool | both(x)
        ensures both(Step(k, x, a, f).inst)
      {
        StepKeepsCore(k, x, a, f);
      }
      LoopKeeps(k, s, approver, false, both);
    }
  }

  lemma IdleKeepsCore(k: Kernel, s: Inst, data: Dict, readings: nat, minted: nat)
    requires CoreInv(k, s) && AtRest(s)
    ensures CoreInv(k, s.(data := data)) && AtRest(s.(data := data))
    ensures var t := s.(readings := readings, minted := minted); CoreInv(k, t) && AtRest(t)
  {
  }

  /** Induction over a whole life: what every turn keeps, and every change of the
      data that the life makes at rest, the life keeps. */
  lemma {:induction false} LiveKeeps(k: Kernel, s: Inst, actions: seq<Action>, inv: Inst -> bool)
    requires CoreInv(k, s) && AtRest(s) && inv(s)
    requires forall x: Inst, a: Option<Approver>, f: bool :: CoreInv(k, x) && inv(x) ==> inv(Step(k, x, a, f).inst)
    requires forall x: Inst, d: Dict :: AtRest(x) && inv(x) && ReplaceData(d) in actions ==> inv(x.(data := d))
    requires forall x: Inst, r: nat, m: nat :: AtRest(x) && inv(x) ==> inv(x.(readings := r, minted := m))
    ensures var r := Live(k, s, actions); CoreInv(k, r) && AtRest(r) && inv(r)
  {
    if actions != [] {
      var before, last := actions[..|actions| - 1], actions[|actions| - 1];
      LiveKeeps(k, s, before, inv);
      var x := Live(k, s, before);
      match last
      case CallRun(approver) => RunKeeps(k, x, approver, inv);
      case ReplaceData(data) =>
        assert last in actions;
        IdleKeepsCore(k, x, data, x.readings, x.minted);
      case Elsewhere(readings, minted) =>
        IdleKeepsCore(k, x, x.data, x.readings + readings, x.minted + minted);
    }
  }

  /** The invariant holds throughout every life. */
  lemma LiveCore(k: Kernel, s: Inst, actions: seq<Action>)
    requires CoreInv(k, s) && AtRest(s)
    ensures CoreInv(k, Live(k, s, actions)) && AtRest(Live(k, s, actions))
  {
    LiveKeeps(k, s, actions, (x: Inst) => true);
  }
}
