/** The runner against a plain interpreter that knows nothing of statuses, pauses,
    digests, approvals or budgets: it follows the first transition out of each
    state, resolves inputs and calls handlers. */
module Interpreter {
  import opened Text
  import opened Json
  import opened IntentBinding
  import opened Workflows
  import opened RunnerSpec

  datatype Course = Course(state: string, data: Dict, dispatched: seq<(string, Dict)>)

  function Onward(k: Kernel, def: Definition, tenant: Tenant, c: Course): Option<Course> {
    match First(def, c.state)
    case None => None
    case Some(t) =>
      if t.action.None? then Some(c.(state := t.toState))
      else
        match ResolvedInput(t.action.value, c.data)
        case Missing(_, _) => None
        case Resolved(input) =>
          match Invoke(k, tenant, t.action.value.capabilityId, input)
          case Raised(_) => None
          case Returned(output) =>
            Some(Course(t.toState, Merge(c.data, output), c.dispatched + [(t.action.value.capabilityId, input)]))
  }

  /** The course after `n` transitions from the start, if it gets that far. */
  function After(k: Kernel, def: Definition, tenant: Tenant, data: Dict, n: nat): Option<Course> {
    if n == 0 then Some(Course(def.initialState, data, []))
    else
      match After(k, def, tenant, data, n - 1)
      case None => None
      case Some(c) => Onward(k, def, tenant, c)
  }

  function Inputs(calls: seq<Call>): seq<(string, Dict)> {
    if calls == [] then []
    else
      var c := calls[|calls| - 1];
      Inputs(calls[..|calls| - 1]) + [(if c.transition.action.Some? then c.transition.action.value.capabilityId else "", c.input)]
  }

  lemma InputsSnoc(calls: seq<Call>, c: Call)
    requires c.transition.action.Some?
    ensures Inputs(calls + [c]) == Inputs(calls) + [(c.transition.action.value.capabilityId, c.input)]
  {
    assert (calls + [c])[..|calls|] == calls;
  }

  /** The part of an instance that the interpreter computes. */
  function CourseOf(s: Inst): Course {
    Course(s.state, s.data, Inputs(s.calls))
  }
}

module RunnerRefinement {
  import opened Text
  import opened Json
  import opened IntentBinding
  import opened Workflows
  import opened RunnerSpec
  import opened RunnerInvariant
  import opened RunnerBudget
  import opened RunnerApproval
  import opened RunnerTheorems
  import opened Interpreter

  /** As long as it has not failed, the instance is where the interpreter is. */
  ghost predicate OnCourse(k: Kernel, data: Dict, s: Inst) {
    s.status != Failed ==> After(k, s.definition, s.tenant, data, CountApplied(s.history)) == Some(CourseOf(s))
  }

  /** Nothing the interpreter looks at has changed. */
  lemma Unmoved(k: Kernel, data: Dict, s: Inst, s': Inst)
    requires OnCourse(k, data, s) && SameInstance(s, s')
    requires s'.status == Failed ||
      (s.status != Failed && CourseOf(s') == CourseOf(s) && CountApplied(s'.history) == CountApplied(s.history))
    ensures OnCourse(k, data, s')
  {
  }

  lemma EnactUnmoved(k: Kernel, data: Dict, s: Inst, intent: Intent, verdict: Verdict)
    requires OnCourse(k, data, s) && s.status == Paused
    ensures OnCourse(k, data, Enact(s, intent, verdict).inst)
  {
    var s' := Enact(s, intent, verdict).inst;
    match verdict
    case NothingToApprove =>
    case OtherIntent(other) => CountEmit(s.history, Mismatched(other)); Unmoved(k, data, s, s');
    case Refusal(_) =>
    case Unsound(reasons) => CountEmit(s.history, Invalid(intent.intentId, reasons)); Unmoved(k, data, s, s');
    case Grant(actor) => CountEmit(s.history, Granted(intent.intentId, actor)); Unmoved(k, data, s, s');
  }

  lemma MovedOn(k: Kernel, data: Dict, s: Inst, s': Inst, next: Course)
    requires OnCourse(k, data, s) && s.status != Failed && SameInstance(s, s')
    requires CountApplied(s'.history) == CountApplied(s.history) + 1
    requires Onward(k, s.definition, s.tenant, CourseOf(s)) == Some(next) && CourseOf(s') == next
    ensures OnCourse(k, data, s')
  {
  }

  lemma DispatchOnCourse(k: Kernel, data: Dict, s: Inst, t: Transition, spec: CapabilitySpec)
    requires OnCourse(k, data, s) && s.status == Running && First(s.definition, s.state) == Some(t)
    requires t.action.Some? && Dispatch(k, s, t, spec).Done?
    ensures OnCourse(k, data, Dispatch(k, s, t, spec).inst)
  {
    DispatchDone(k, s, t, spec);
    var r := Dispatch(k, s, t, spec).inst;
    var input := ResolvedInput(t.action.value, s.data).input;
    var sent := DispatchEvent(k, s, t, spec.effect, input);
    CountEmit(s.history, sent);
    CountEmit(s.history + [sent], Applied(t.fromState, t.toState));
    InputsSnoc(s.calls, Call(t, spec.effect, input, s.sealed, s.pendingIntent));
    MovedOn(k, data, s, r, CourseOf(r));
  }

  lemma AdvanceOnCourse(k: Kernel, data: Dict, s: Inst, t: Transition)
    requires OnCourse(k, data, s) && s.status == Running && First(s.definition, s.state) == Some(t)
    ensures !Advance(k, s, t).Violation? ==> OnCourse(k, data, Advance(k, s, t).inst)
  {
    var r := Advance(k, s, t);
    if t.action.None? {
      CountEmit(s.history, Applied(t.fromState, t.toState));
      MovedOn(k, data, s, r.inst, CourseOf(r.inst));
    } else if k.catalog(t.action.value.capabilityId).Some? {
      var spec := k.catalog(t.action.value.capabilityId).value;
      if spec.effect.ExternalMutation? && s.pendingTransition.None? {
        SealOnCourse(k, data, s, t);
      } else if r.Done? {
        DispatchOnCourse(k, data, s, t, spec);
      } else {
        DispatchViolates(k, s, t, spec);
      }
    }
  }

  lemma SealOnCourse(k: Kernel, data: Dict, s: Inst, t: Transition)
    requires OnCourse(k, data, s) && s.status == Running && t.action.Some?
    ensures OnCourse(k, data, Seal(k, s, t).inst)
  {
    var r := Seal(k, s, t);
    if r.Done? {
      CountEmit(s.history, r.inst.history[|s.history|]);
      Unmoved(k, data, s, r.inst);
    }
  }

  lemma PausedOnCourse(k: Kernel, data: Dict, s: Inst, approver: Approver)
    requires PendingInv(k, s) && s.status == Paused && OnCourse(k, data, s)
    ensures OnCourse(k, data, ResolvePending(k, s, approver).inst)
  {
    var intent := s.pendingIntent.value;
    var asked := s.(consulted := s.consulted + 1, readings := s.readings + 1);
    ResolveUnfold(k, s, approver);
    Unmoved(k, data, s, asked);
    EnactUnmoved(k, data, asked, intent, Judge(k, s, intent, s.pendingTransition.value, approver(intent)));
  }

  lemma RunningOnCourse(k: Kernel, data: Dict, s: Inst, resolvedHere: bool)
    requires OnCourse(k, data, s) && s.status == Running
    ensures OnCourse(k, data, StepRunning(k, s, resolvedHere).inst)
  {
    match First(s.definition, s.state)
    case None =>
      CountEmit(s.history, Finished(s.state));
      Unmoved(k, data, s, StepRunning(k, s, resolvedHere).inst);
    case Some(t) =>
      AdvanceOnCourse(k, data, s, t);
      var r := Advance(k, s, t);
      if r.Done? {
        StepCharges(k, s, t, resolvedHere);
        Unmoved(k, data, r.inst, StepRunning(k, s, resolvedHere).inst);
      }
  }

  lemma StepOnCourse(k: Kernel, data: Dict, s: Inst, approver: Option<Approver>, resolvedHere: bool)
    requires CoreInv(k, s) && OnCourse(k, data, s)
    ensures OnCourse(k, data, Step(k, s, approver, resolvedHere).inst)
  {
    if s.status == Paused && approver.Some? {
      PausedOnCourse(k, data, s, approver.value);
    } else if s.status == Running {
      RunningOnCourse(k, data, s, resolvedHere);
    }
  }

  /** The host leaves the data alone. */
  ghost predicate HandsOff(actions: seq<Action>) {
    forall a | a in actions :: !a.ReplaceData?
  }

  /** In a life in which the host leaves the data alone, whatever approvers answer
      and however the run is cut into calls, an instance that has not failed has the
      state, the data and the dispatches of the interpreter. */
  lemma LivedOnCourse(k: Kernel, def: Definition, tenant: Tenant, data: Dict, readings: nat, minted: nat, actions: seq<Action>)
    requires k.maxSteps >= 1 && HandsOff(actions)
    ensures var s := Lived(k, def, tenant, data, readings, minted, actions);
      s.status != Failed ==> After(k, def, tenant, data, CountApplied(s.history)) == Some(CourseOf(s))
  {
    var s0 := Start(def, tenant, data, readings, minted);
    StartCore(k, def, tenant, data, readings, minted);
    CountEmit([], Started(def.workflowId, def.revision, def.initialState));
    var inv := (x: Inst) => OnCourse(k, data, x);
    forall x: Inst, a: Option<Approver>, f: bool | CoreInv(k, x) && inv(x)
      ensures inv(Step(k, x, a, f).inst)
    {
      StepOnCourse(k, data, x, a, f);
    }
    LiveKeeps(k, s0, actions, inv);
    LivedInv(k, def, tenant, data, readings, minted, actions);
  }

  /** Refinement: every life that completes, under whatever approvers, clock, ids
      and split into calls, ends where the interpreter ends, with its data, and has
      made its dispatches in its order. */
  lemma CompletedRefinesInterpreter(
    k: Kernel, def: Definition, tenant: Tenant, data: Dict, readings: nat, minted: nat, actions: seq<Action>, n: nat)
    requires k.maxSteps >= 1 && HandsOff(actions)
    requires Lived(k, def, tenant, data, readings, minted, actions).status == Completed
    requires PathEnds(def, n)
    ensures After(k, def, tenant, data, n) == Some(CourseOf(Lived(k, def, tenant, data, readings, minted, actions)))
  {
    var s := Lived(k, def, tenant, data, readings, minted, actions);
    LivedInv(k, def, tenant, data, readings, minted, actions);
    LivedOnCourse(k, def, tenant, data, readings, minted, actions);
    PathEndUnique(def, n, CountApplied(s.history));
  }

  /** Two completed lives of the same workflow on the same data agree, even on
      runners that differ in policy, budget, lifetime of approvals, clock and ids. */
  lemma CompletedLivesAgree(
    k: Kernel, k': Kernel, def: Definition, tenant: Tenant, data: Dict,
    r: nat, m: nat, actions: seq<Action>, r': nat, m': nat, actions': seq<Action>)
    requires k.maxSteps >= 1 && k'.maxSteps >= 1 && HandsOff(actions) && HandsOff(actions')
    requires k.handlers == k'.handlers
    requires Lived(k, def, tenant, data, r, m, actions).status == Completed
    requires Lived(k', def, tenant, data, r', m', actions').status == Completed
    ensures CourseOf(Lived(k, def, tenant, data, r, m, actions)) == CourseOf(Lived(k', def, tenant, data, r', m', actions'))
  {
    var s, s' := Lived(k, def, tenant, data, r, m, actions), Lived(k', def, tenant, data, r', m', actions');
    LivedInv(k, def, tenant, data, r, m, actions);
    LivedInv(k', def, tenant, data, r', m', actions');
    PathEndUnique(def, CountApplied(s.history), CountApplied(s'.history));
    CompletedRefinesInterpreter(k, def, tenant, data, r, m, actions, CountApplied(s.history));
    CompletedRefinesInterpreter(k', def, tenant, data, r', m', actions', CountApplied(s.history));
    AfterByHandlers(k, k', def, tenant, data, CountApplied(s.history));
  }

  lemma OnwardByHandlers(k: Kernel, k': Kernel, def: Definition, tenant: Tenant, c: Course)
    requires k.handlers == k'.handlers
    ensures Onward(k, def, tenant, c) == Onward(k', def, tenant, c)
  {
  }

  /** Of the runner, only the handlers matter to the interpreter. */
  lemma {:induction false} AfterByHandlers(k: Kernel, k': Kernel, def: Definition, tenant: Tenant, data: Dict, n: nat)
    requires k.handlers == k'.handlers
    ensures After(k, def, tenant, data, n) == After(k', def, tenant, data, n)
  {
    if n > 0 {
      AfterByHandlers(k, k', def, tenant, data, n - 1);
      var before := After(k, def, tenant, data, n - 1);
      if before.Some? {
        OnwardByHandlers(k, k', def, tenant, before.value);
      }
    }
  }
}
