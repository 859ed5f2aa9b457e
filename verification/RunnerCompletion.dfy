/** When a workflow completes: on a path of n transitions with g governed ones, where
    the policy allows every effect and every input resolves, a life that ends, and
    not by a human's refusal, has completed exactly when n + g is below the step
    budget. Each governed transition takes one grant, and each grant counts. */
module RunnerCompletion {
  import opened Text
  import opened Json
  import opened IntentBinding
  import opened Workflows
  import opened RunnerSpec
  import opened RunnerInvariant
  import opened RunnerBudget
  import opened RunnerApproval
  import opened RunnerTheorems
  import opened Interpreter
  import opened RunnerRefinement

  predicate Permitted(k: Kernel, t: Transition) {
    t.action.Some? ==>
      var spec := k.catalog(t.action.value.capabilityId);
      spec.Some? && Allows(k.policy, spec.value.effect, spec.value.effect.ExternalMutation?)
  }

  /** The path ends in a terminal state after `n` transitions, the interpreter gets
      there, and the policy allows every effect on it. */
  ghost predicate Clear(k: Kernel, def: Definition, tenant: Tenant, data: Dict, n: nat) {
    && PathEnds(def, n) && IsTerminal(def, PathState(def, n).value)
    && After(k, def, tenant, data, n).Some?
    && forall i | 0 <= i < n :: PathTransition(def, i).Some? && Permitted(k, PathTransition(def, i).value)
  }

  /** A failure for a reason that a clear path leaves open. */
  predicate FailsFairly(k: Kernel, s: Inst) {
    s.status == Failed ==>
      && s.failure.Some?
      && (s.failure.value.RejectedBy? || (s.failure.value.BudgetExhausted? && s.steps >= k.maxSteps))
  }

  ghost predicate Smooth(k: Kernel, data: Dict, n: nat, s: Inst) {
    Clear(k, s.definition, s.tenant, data, n) && OnCourse(k, data, s) && FailsFairly(k, s)
  }

  // ------------------------------------------------------------------ the path

  lemma PathNotOver(def: Definition, n: nat, i: nat)
    requires PathEnds(def, n) && PathState(def, i).Some?
    ensures i <= n && (i == n <==> PathTransition(def, i).None?)
  {
    if i > n {
      PathDefinedBefore(def, n, i);
    } else {
      PathDefinedBefore(def, i, n);
    }
  }

  lemma {:induction false} AfterBefore(k: Kernel, def: Definition, tenant: Tenant, data: Dict, i: nat, n: nat)
    requires i <= n && After(k, def, tenant, data, n).Some?
    ensures After(k, def, tenant, data, i).Some?
    decreases n - i
  {
    if i < n {
      AfterBefore(k, def, tenant, data, i + 1, n);
    }
  }

  lemma {:induction false} GatesGrow(catalog: Catalog, def: Definition, i: nat, n: nat)
    requires i <= n
    ensures Gates(catalog, def, i) <= Gates(catalog, def, n)
    decreases n - i
  {
    if i < n {
      GatesGrow(catalog, def, i + 1, n);
    }
  }

  /** No more steps are ever charged than the path asks for. */
  lemma StepsAtMost(k: Kernel, s: Inst, n: nat)
    requires Paid(k, s) && PathEnds(s.definition, n)
    ensures s.steps <= n + Gates(k.catalog, s.definition, n)
  {
    var i := CountApplied(s.history);
    PathNotOver(s.definition, n, i);
    GatesGrow(k.catalog, s.definition, i, n);
    if i < n {
      GatesGrow(k.catalog, s.definition, i + 1, n);
    }
  }

  // ------------------------------------------------------------------ one turn

  /** The transition out of the current state is permitted, its input resolves and
      its handler returns. */
  lemma NextIsClear(k: Kernel, data: Dict, n: nat, s: Inst, t: Transition)
    requires CoreInv(k, s) && Smooth(k, data, n, s) && s.status == Running && First(s.definition, s.state) == Some(t)
    ensures Permitted(k, t)
    ensures t.action.Some? ==>
      && ResolvedInput(t.action.value, s.data).Resolved?
      && Invoke(k, s.tenant, t.action.value.capabilityId, ResolvedInput(t.action.value, s.data).input).Returned?
  {
    var i := CountApplied(s.history);
    PathNotOver(s.definition, n, i);
    AfterBefore(k, s.definition, s.tenant, data, i + 1, n);
    assert PathTransition(s.definition, i) == Some(t);
    assert Onward(k, s.definition, s.tenant, CourseOf(s)).Some?;
  }

  /** On a clear path no transition is violated. */
  lemma AdvanceClear(k: Kernel, s: Inst, t: Transition)
    requires PendingInv(k, s) && s.status == Running && First(s.definition, s.state) == Some(t) && Permitted(k, t)
    requires t.action.Some? ==>
      && ResolvedInput(t.action.value, s.data).Resolved?
      && Invoke(k, s.tenant, t.action.value.capabilityId, ResolvedInput(t.action.value, s.data).input).Returned?
    ensures !Advance(k, s, t).Violation? && Advance(k, s, t).inst.status != Failed
  {
  }

  lemma RunningFair(k: Kernel, data: Dict, n: nat, s: Inst, resolvedHere: bool)
    requires CoreInv(k, s) && Smooth(k, data, n, s) && s.status == Running
    ensures FailsFairly(k, StepRunning(k, s, resolvedHere).inst)
  {
    match First(s.definition, s.state)
    case None =>
      PathNotOver(s.definition, n, CountApplied(s.history));
      assert IsTerminal(s.definition, s.state);
    case Some(t) =>
      NextIsClear(k, data, n, s, t);
      AdvanceClear(k, s, t);
      if Advance(k, s, t).Done? {
        StepCharges(k, s, t, resolvedHere);
      }
  }

  lemma StepSmooth(k: Kernel, data: Dict, n: nat, s: Inst, approver: Option<Approver>, resolvedHere: bool)
    requires CoreInv(k, s) && Smooth(k, data, n, s)
    ensures Smooth(k, data, n, Step(k, s, approver, resolvedHere).inst)
  {
    StepOnCourse(k, data, s, approver, resolvedHere);
    StepIdentity(k, s, approver, resolvedHere);
    if s.status == Running {
      RunningFair(k, data, n, s, resolvedHere);
    } else if s.status == Paused {
      PausedFair(k, s, approver, resolvedHere);
    }
  }

  lemma PausedFair(k: Kernel, s: Inst, approver: Option<Approver>, resolvedHere: bool)
    requires PendingInv(k, s) && s.status == Paused
    ensures FailsFairly(k, StepPaused(k, s, approver, resolvedHere).inst)
  {
    if approver.Some? {
      ResolveUnfold(k, s, approver.value);
    }
  }

  // ------------------------------------------------------------------ the grants

  function CountGranted(h: seq<Event>): nat {
    if h == [] then 0 else CountGranted(h[..|h| - 1]) + if h[|h| - 1].Granted? then 1 else 0
  }

  lemma GrantEmit(h: seq<Event>, e: Event)
    ensures CountGranted(h + [e]) == CountGranted(h) + if e.Granted? then 1 else 0
    ensures CountRequested(h + [e]) == CountRequested(h) + if e.Requested? then 1 else 0
  {
    assert (h + [e])[..|h|] == h;
  }

  /** Every request but the one a paused instance waits for has been granted. */
  predicate GrantInv(s: Inst) {
    s.status != Failed ==> CountRequested(s.history) == CountGranted(s.history) + if s.status == Paused then 1 else 0
  }

  lemma EnactGrants(s: Inst, intent: Intent, verdict: Verdict)
    requires s.status == Paused
    ensures var r := Enact(s, intent, verdict).inst;
      && CountGranted(r.history) == CountGranted(s.history) + (if verdict.Grant? then 1 else 0)
      && (GrantInv(s) ==> GrantInv(r))
  {
    match verdict
    case NothingToApprove =>
    case OtherIntent(other) => GrantEmit(s.history, Mismatched(other));
    case Unsound(reasons) => GrantEmit(s.history, Invalid(intent.intentId, reasons));
    case Grant(actor) => GrantEmit(s.history, Granted(intent.intentId, actor));
    case Refusal(actor) =>
      GrantEmit(s.history, Rejected(intent.intentId, actor));
      GrantEmit(s.history + [Rejected(intent.intentId, actor)], Broken(RejectedBy(actor)));
  }

  lemma AdvanceGrants(k: Kernel, s: Inst, t: Transition)
    requires s.status == Running
    ensures var r := Advance(k, s, t).inst; CountGranted(r.history) == CountGranted(s.history)
    ensures var r := Advance(k, s, t); GrantInv(s) && !r.Violation? ==> GrantInv(r.inst)
  {
    if t.action.None? {
      GrantEmit(s.history, Applied(t.fromState, t.toState));
    } else if k.catalog(t.action.value.capabilityId).Some? {
      var spec := k.catalog(t.action.value.capabilityId).value;
      if spec.effect.ExternalMutation? && s.pendingTransition.None? {
        SealGrants(k, s, t);
      } else {
        DispatchGrants(k, s, t, spec);
      }
    }
  }

  lemma SealGrants(k: Kernel, s: Inst, t: Transition)
    requires s.status == Running && t.action.Some?
    ensures var r := Seal(k, s, t).inst;
      CountGranted(r.history) == CountGranted(s.history) && (GrantInv(s) ==> GrantInv(r))
  {
    var r := Seal(k, s, t);
    if r.Done? {
      var requested := Requested(r.inst.pendingIntent.value.intentId, t.action.value.capabilityId, s.state);
      assert r.inst.history == s.history + [requested];
      GrantEmit(s.history, requested);
    }
  }

  lemma DispatchGrants(k: Kernel, s: Inst, t: Transition, spec: CapabilitySpec)
    requires s.status == Running && t.action.Some?
    ensures var r := Dispatch(k, s, t, spec).inst;
      CountGranted(r.history) == CountGranted(s.history) && (GrantInv(s) ==> GrantInv(r))
  {
    if Dispatch(k, s, t, spec).Done? {
      DispatchDone(k, s, t, spec);
      var sent := DispatchEvent(k, s, t, spec.effect, ResolvedInput(t.action.value, s.data).input);
      GrantEmit(s.history, sent);
      GrantEmit(s.history + [sent], Applied(t.fromState, t.toState));
    }
  }

  lemma RunningGrants(k: Kernel, s: Inst, resolvedHere: bool)
    requires s.status == Running
    ensures var r := StepRunning(k, s, resolvedHere).inst;
      CountGranted(r.history) == CountGranted(s.history) && (GrantInv(s) ==> GrantInv(r))
  {
    match First(s.definition, s.state)
    case None =>
      GrantEmit(s.history, Finished(s.state));
      GrantEmit(s.history, Broken(NoTransition(s.state)));
    case Some(t) =>
      AdvanceGrants(k, s, t);
      var r := Advance(k, s, t);
      match r
      case Violation(_, reason) => GrantEmit(r.inst.history, Broken(reason));
      case Thrown(_, _) =>
      case Done(_) =>
        StepCharges(k, s, t, resolvedHere);
        GrantEmit(r.inst.history, Broken(BudgetExhausted));
  }

  lemma StepGrants(k: Kernel, s: Inst, approver: Option<Approver>, resolvedHere: bool)
    requires CoreInv(k, s)
    ensures var r := Step(k, s, approver, resolvedHere).inst;
      && (GrantInv(s) ==> GrantInv(r))
      && (approver.None? || resolvedHere || s.status != Paused ==> CountGranted(r.history) == CountGranted(s.history))
  {
    if s.status == Running {
      RunningGrants(k, s, resolvedHere);
    } else if s.status == Paused && approver.Some? && !resolvedHere {
      var intent := s.pendingIntent.value;
      ResolveUnfold(k, s, approver.value);
      EnactGrants(s.(consulted := s.consulted + 1, readings := s.readings + 1), intent,
                  Judge(k, s, intent, s.pendingTransition.value, approver.value(intent)));
    }
  }

  lemma NoSecondDecision(k: Kernel, s: Inst, approver: Option<Approver>, resolvedHere: bool)
    requires CoreInv(k, s) && (approver.None? || resolvedHere) && Step(k, s, approver, resolvedHere).Go?
    ensures var r := Step(k, s, approver, resolvedHere);
      && r.resolvedHere == resolvedHere
      && CountGranted(r.inst.history) == CountGranted(s.history)
      && StepsLeft(k, r.inst) < StepsLeft(k, s)
  {
    StepGrants(k, s, approver, resolvedHere);
    StepDecreases(k, s, approver, resolvedHere);
  }

  /** After its one decision a call grants nothing more. */
  lemma {:induction false} LoopGrantsNoMore(k: Kernel, s: Inst, approver: Option<Approver>, resolvedHere: bool)
    requires CoreInv(k, s) && (approver.None? || resolvedHere)
    ensures CountGranted(Loop(k, s, approver, resolvedHere).inst.history) == CountGranted(s.history)
    decreases StepsLeft(k, s), !resolvedHere
  {
    var r := Step(k, s, approver, resolvedHere);
    if r.Go? {
      NoSecondDecision(k, s, approver, resolvedHere);
      StepKeepsCore(k, s, approver, resolvedHere);
      LoopGrantsNoMore(k, r.inst, approver, resolvedHere);
    } else {
      StepGrants(k, s, approver, resolvedHere);
    }
  }

  /** A call of `run` on a paused instance adds one grant if the decision is believed,
      and none otherwise. */
  lemma GrantCounts(k: Kernel, s: Inst, approver: Option<Approver>)
    requires CoreInv(k, s) && s.status == Paused
    ensures var granted := approver.Some? &&
              Judge(k, s, s.pendingIntent.value, s.pendingTransition.value, approver.value(s.pendingIntent.value)).Grant?;
      CountGranted(Run(k, s, approver).inst.history) == CountGranted(s.history) + if granted then 1 else 0
  {
    var r := Step(k, s, approver, false);
    if approver.Some? {
      var intent := s.pendingIntent.value;
      ResolveUnfold(k, s, approver.value);
      EnactGrants(s.(consulted := s.consulted + 1, readings := s.readings + 1), intent,
                  Judge(k, s, intent, s.pendingTransition.value, approver.value(intent)));
      if r.Go? {
        StepKeepsCore(k, s, approver, false);
        LoopGrantsNoMore(k, r.inst, approver, true);
      }
    }
  }

  // --------------------------------------------------------------- a whole life

  lemma LivedGrants(k: Kernel, def: Definition, tenant: Tenant, data: Dict, readings: nat, minted: nat, actions: seq<Action>)
    requires k.maxSteps >= 1
    ensures GrantInv(Lived(k, def, tenant, data, readings, minted, actions))
  {
    var s0 := Start(def, tenant, data, readings, minted);
    StartCore(k, def, tenant, data, readings, minted);
    GrantEmit([], Started(def.workflowId, def.revision, def.initialState));
    var inv := (x: Inst) => GrantInv(x);
    forall x: Inst, a: Option<Approver>, f: bool | CoreInv(k, x) && inv(x)
      ensures inv(Step(k, x, a, f).inst)
    {
      StepGrants(k, x, a, f);
    }
    LiveKeeps(k, s0, actions, inv);
    assert inv(Live(k, s0, actions));
  }

  /** In every life: an instance that has not failed has had exactly one grant for each
      gate it has passed; so, on a path that ends, a paused one is still owed a grant. */
  lemma GrantsAreGates(
    k: Kernel, def: Definition, tenant: Tenant, data: Dict, readings: nat, minted: nat, actions: seq<Action>, n: nat)
    requires k.maxSteps >= 1 && PathEnds(def, n)
    ensures var s := Lived(k, def, tenant, data, readings, minted, actions);
      && (s.status != Failed ==> CountGranted(s.history) == Gates(k.catalog, def, CountApplied(s.history)))
      && (s.status == Paused ==> CountGranted(s.history) < Gates(k.catalog, def, n))
  {
    var s := Lived(k, def, tenant, data, readings, minted, actions);
    StepsAreExact(k, def, tenant, data, readings, minted, actions);
    LivedGrants(k, def, tenant, data, readings, minted, actions);
    LivedInv(k, def, tenant, data, readings, minted, actions);
    if s.status == Paused {
      OpenGateAhead(k, s, n);
    }
  }

  lemma OpenGateAhead(k: Kernel, s: Inst, n: nat)
    requires CoreInv(k, s) && s.status == Paused && PathEnds(s.definition, n)
    ensures Gates(k.catalog, s.definition, CountApplied(s.history)) < Gates(k.catalog, s.definition, n)
  {
    GateAhead(k.catalog, s.definition, s.state, s.pendingTransition.value, CountApplied(s.history), n);
  }

  lemma GateAhead(catalog: Catalog, def: Definition, state: string, t: Transition, i: nat, n: nat)
    requires PathEnds(def, n) && PathState(def, i) == Some(state) && First(def, state) == Some(t) && IsGate(catalog, t)
    ensures Gates(catalog, def, i) < Gates(catalog, def, n)
  {
    PathNotOver(def, n, i);
    assert PathTransition(def, i) == Some(t);
    GatesGrow(catalog, def, i + 1, n);
  }

  lemma LivedSmooth(
    k: Kernel, def: Definition, tenant: Tenant, data: Dict, readings: nat, minted: nat, actions: seq<Action>, n: nat)
    requires k.maxSteps >= 1 && HandsOff(actions) && Clear(k, def, tenant, data, n)
    ensures Smooth(k, data, n, Lived(k, def, tenant, data, readings, minted, actions))
  {
    var s0 := Start(def, tenant, data, readings, minted);
    StartCore(k, def, tenant, data, readings, minted);
    CountEmit([], Started(def.workflowId, def.revision, def.initialState));
    var inv := (x: Inst) => Smooth(k, data, n, x);
    forall x: Inst, a: Option<Approver>, f: bool | CoreInv(k, x) && inv(x)
      ensures inv(Step(k, x, a, f).inst)
    {
      StepSmooth(k, data, n, x, a, f);
    }
    LiveKeeps(k, s0, actions, inv);
    assert inv(Live(k, s0, actions));
  }

  /** In every life on a clear path, whatever approvers answer and however the runner
      is shared and the calls are cut: completion means that the path's transitions
      and pauses together stay below the budget, and a failure is a human's refusal
      or means that they do not. */
  lemma CompletesIffBudget(
    k: Kernel, def: Definition, tenant: Tenant, data: Dict, readings: nat, minted: nat, actions: seq<Action>, n: nat)
    requires k.maxSteps >= 1 && HandsOff(actions) && Clear(k, def, tenant, data, n)
    ensures var s := Lived(k, def, tenant, data, readings, minted, actions);
      var cost := n + Gates(k.catalog, def, n);
      && (s.status == Completed ==> cost < k.maxSteps)
      && (s.status == Failed ==>
            s.failure.Some? && (s.failure.value.RejectedBy? || (s.failure.value.BudgetExhausted? && cost >= k.maxSteps)))
      && (Final(s) && !(s.failure.Some? && s.failure.value.RejectedBy?) ==> (s.status == Completed <==> cost < k.maxSteps))
  {
    var s := Lived(k, def, tenant, data, readings, minted, actions);
    LivedInv(k, def, tenant, data, readings, minted, actions);
    LivedSmooth(k, def, tenant, data, readings, minted, actions, n);
    if s.status == Completed {
      PathEndUnique(def, n, CountApplied(s.history));
    } else if s.status == Failed {
      StepsAtMost(k, s, n);
    }
  }

  /** Enough grants finish it: after a call that returns, an instance on a clear path
      with a grant for every gate has completed, or its budget was too small. */
  lemma EnoughGrantsFinish(
    k: Kernel, def: Definition, tenant: Tenant, data: Dict, readings: nat, minted: nat,
    actions: seq<Action>, approver: Option<Approver>, n: nat)
    requires k.maxSteps >= 1 && HandsOff(actions) && Clear(k, def, tenant, data, n)
    requires Run(k, Lived(k, def, tenant, data, readings, minted, actions), approver).escape.None?
    requires var s := Lived(k, def, tenant, data, readings, minted, actions + [CallRun(approver)]);
      CountGranted(s.history) >= Gates(k.catalog, def, n) && !(s.failure.Some? && s.failure.value.RejectedBy?)
    ensures var s := Lived(k, def, tenant, data, readings, minted, actions + [CallRun(approver)]);
      Final(s) && (s.status == Completed <==> n + Gates(k.catalog, def, n) < k.maxSteps)
  {
    var more := actions + [CallRun(approver)];
    var before := Lived(k, def, tenant, data, readings, minted, actions);
    assert more[..|actions|] == actions;
    assert Lived(k, def, tenant, data, readings, minted, more) == Run(k, before, approver).inst;
    LivedInv(k, def, tenant, data, readings, minted, actions);
    RunContract(k, before, approver);
    GrantsAreGates(k, def, tenant, data, readings, minted, more, n);
    CompletesIffBudget(k, def, tenant, data, readings, minted, more, n);
  }
}
