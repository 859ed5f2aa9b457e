/** The runner in the form of its source: an object that changes a workflow
    instance step by step. Every method is proved to do what RunnerSpec says. */
module Runner {
  import opened Text
  import opened Json
  import opened IntentBinding
  import opened Workflows
  import Spec = RunnerSpec
  import opened RunnerSpec

  class WorkflowInstance {
    const definition: Definition
    const tenant: Tenant
    var state: string
    var status: Status
    var data: Dict
    var steps: nat
    var pendingIntent: Option<Intent>
    var pendingTransition: Option<Transition>
    var failure: Option<FailReason>
    var history: seq<Event>
    var executing: bool
    ghost var calls: seq<Call>
    ghost var sealed: Option<Dict>
    ghost var consulted: nat

    constructor (definition: Definition, tenant: Tenant, data: Dict)
      ensures this.definition == definition && this.tenant == tenant && this.data == data
      ensures state == definition.initialState && status == Running && steps == 0 && !executing
      ensures pendingIntent.None? && pendingTransition.None? && failure.None? && history == []
      ensures calls == [] && sealed.None? && consulted == 0
    {
      this.definition, this.tenant, this.data := definition, tenant, data;
      state, status, steps, executing := definition.initialState, Running, 0, false;
      pendingIntent, pendingTransition, failure, history := None, None, None, [];
      calls, sealed, consulted := [], None, 0;
    }
  }

  /** How `_advance` ends: it returns, or raises a protocol violation that `run`
      turns into a failure, or raises something that leaves `run`. */
  datatype Signal = Fine | Protocol(reason: FailReason) | Raise(cause: Escape)

  class NeutralRunner {
    const kernel: Kernel
    var readings: nat
    var minted: nat

    constructor (kernel: Kernel)
      ensures this.kernel == kernel && readings == 0 && minted == 0
    {
      this.kernel := kernel;
      readings, minted := 0, 0;
    }

    /** A runner with a step budget below one is refused. */
    static method Create(kernel: Kernel) returns (r: NeutralRunner?)
      ensures r == null <==> kernel.maxSteps < 1
      ensures r != null ==> fresh(r) && r.kernel == kernel && r.readings == 0 && r.minted == 0
    {
      if kernel.maxSteps < 1 {
        r := null;
      } else {
        r := new NeutralRunner(kernel);
      }
    }

    /** The instance and what the runner has drawn from the world, as one value. */
    ghost function View(i: WorkflowInstance): Inst
      reads this, i
    {
      Inst(i.definition, i.tenant, i.state, i.status, i.data, i.steps, i.pendingIntent, i.pendingTransition, i.failure,
           i.history, i.calls, i.sealed, i.consulted, readings, minted)
    }

    method Emit(i: WorkflowInstance, e: Event)
      modifies i`history
      ensures View(i) == Spec.Emit(old(View(i)), e)
    {
      i.history := i.history + [e];
    }

    /** The clock's next reading. */
    method Now() returns (now: int)
      modifies this`readings
      ensures now == kernel.clock(old(readings)) && readings == old(readings) + 1
    {
      now := kernel.clock(readings);
      readings := readings + 1;
    }

    method Fail(i: WorkflowInstance, reason: FailReason)
      modifies i`history, i`status, i`failure, i`pendingIntent, i`pendingTransition, i`sealed
      ensures View(i) == Spec.Fail(old(View(i)), reason)
    {
      i.status := Failed;
      i.failure := Some(reason);
      i.pendingIntent := None;
      i.pendingTransition := None;
      i.sealed := None;
      Emit(i, Broken(reason));
    }

    /** `start`: refused when the definition names a capability the catalog lacks. */
    method Start(definition: Definition, tenant: Tenant, data: Dict) returns (i: WorkflowInstance?)
      ensures i == null <==> exists t | t in definition.transitions ::
        t.action.Some? && kernel.catalog(t.action.value.capabilityId) == None
      ensures i != null ==> fresh(i) && !i.executing && View(i) == Spec.Start(definition, tenant, data, readings, minted)
      ensures i != null ==>
        && i.definition == definition && i.tenant == tenant && i.data == data
        && i.state == definition.initialState && i.status == Running && i.steps == 0
        && i.pendingIntent == None && i.pendingTransition == None && i.failure == None
        && i.history == [Started(definition.workflowId, definition.revision, definition.initialState)]
    {
      if exists c | c in ReferencedCapabilities(definition) :: kernel.catalog(c).None? {
        return null;
      }
      i := new WorkflowInstance(definition, tenant, data);
      Emit(i, Started(definition.workflowId, definition.revision, definition.initialState));
    }

    /** Follow each binding's path through the data; fail on the first that breaks. */
    method ResolveInput(action: ActionCall, data: Dict) returns (r: Resolution)
      ensures r == ResolvedInput(action, data)
    {
      var resolved := action.input;
      var n := 0;
      while n < |action.inputFrom|
        invariant 0 <= n <= |action.inputFrom|
        invariant Bind(resolved, action.inputFrom[n..], data) == ResolvedInput(action, data)
      {
        var (key, path) := action.inputFrom[n];
        assert action.inputFrom[n..][0] == (key, path) && action.inputFrom[n..][1..] == action.inputFrom[n + 1..];
        var parts := Split(path, '.');
        var value := Obj(data);
        var p := 0;
        while p < |parts|
          invariant 0 <= p <= |parts|
          invariant WellFormed(value)
          invariant Walk(value, parts[p..]) == Walk(Obj(data), parts)
        {
          assert parts[p..][0] == parts[p] && parts[p..][1..] == parts[p + 1..];
          if !value.Obj? || !Has(value.members, parts[p]) {
            return Missing(key, path);
          }
          value := Get(value.members, parts[p]);
          p := p + 1;
        }
        resolved := Put(resolved, key, value);
        n := n + 1;
      }
      return Resolved(resolved);
    }

    /** First arrival at a governed effect. */
    method Seal(i: WorkflowInstance, t: Transition) returns (signal: Signal)
      requires t.action.Some?
      modifies this, i
      ensures i.executing == old(i.executing)
      ensures Outcome(signal, View(i)) == Spec.Seal(kernel, old(View(i)), t)
    {
      var resolution := ResolveInput(t.action.value, i.data);
      if resolution.Missing? {
        return Protocol(MissingBinding(resolution.key, resolution.path));
      }
      var digest := SealDigest(kernel.hash, i.definition, i.tenant, t, resolution.input);
      ghost var before := View(i);
      var intent := NewIntent(i, t.action.value.capabilityId, digest);
      SealResolved(kernel, before, t, resolution.input, intent);
      if intent.None? {
        return Raise(UnsealableIntent);
      }
      Suspend(i, t, intent.value, resolution.input);
      return Fine;
    }

    method NewIntent(i: WorkflowInstance, capabilityId: string, digest: string) returns (intent: Option<Intent>)
      modifies this`readings, this`minted
      ensures intent == FreshIntent(kernel, old(View(i)), capabilityId, digest)
      ensures View(i) == old(View(i)).(readings := old(readings) + 2, minted := if intent.Some? then old(minted) + 1 else old(minted))
    {
      var created := Now();
      var base := Now();
      if base + kernel.ttl <= created {
        return None;
      }
      intent := Some(Intent(kernel.freshId(minted), i.tenant, "pending-human", capabilityId, digest, created, base + kernel.ttl));
      minted := minted + 1;
    }

    method Suspend(i: WorkflowInstance, t: Transition, intent: Intent, ghost input: Dict)
      modifies i`pendingIntent, i`pendingTransition, i`status, i`sealed, i`history
      ensures View(i) == Suspended(old(View(i)), t, intent, input)
    {
      i.pendingIntent, i.pendingTransition, i.status, i.sealed := Some(intent), Some(t), Paused, Some(input);
      Emit(i, Requested(intent.intentId, intent.capabilityId, i.state));
    }

    /** The way a method ended and the state it left, as the functions report it. */
    static function Outcome(signal: Signal, after: Inst): Advanced {
      match signal
      case Fine => Done(after)
      case Protocol(reason) => Violation(after, reason)
      case Raise(cause) => Thrown(after, cause)
    }

    method Dispatch(i: WorkflowInstance, t: Transition, spec: CapabilitySpec) returns (signal: Signal)
      requires t.action.Some?
      modifies i
      ensures i.executing == old(i.executing)
      ensures Outcome(signal, View(i)) == Spec.Dispatch(kernel, old(View(i)), t, spec)
    {
      var action := t.action.value;
      if !Allows(kernel.policy, spec.effect, i.pendingTransition.Some?) {
        return Protocol(PolicyDenied(spec.capabilityId, t.fromState));
      }
      var approvalDigest := if i.pendingIntent.Some? then Some(i.pendingIntent.value.payloadDigest) else None;
      var resolution := ResolveInput(action, i.data);
      if resolution.Missing? {
        return Protocol(MissingBinding(resolution.key, resolution.path));
      }
      i.calls := i.calls + [Call(t, spec.effect, resolution.input, i.sealed, i.pendingIntent)];
      var result := if action.capabilityId in kernel.handlers
        then kernel.handlers[action.capabilityId](i.tenant, action.capabilityId, resolution.input) else Returned([]);
      if result.Raised? {
        return Protocol(HandlerRaised(result.message));
      }
      Deliver(i, t, result.output,
              Dispatched(action.capabilityId, spec.effect, t.fromState, t.toState, approvalDigest,
                         InputDigest(kernel.hash, i.tenant, action.capabilityId, resolution.input)));
      return Fine;
    }

    /** Take the handler's result into the data, clear the pending effect and move on. */
    method Deliver(i: WorkflowInstance, t: Transition, output: Dict, sent: Event)
      modifies i`data, i`pendingIntent, i`pendingTransition, i`sealed, i`state, i`history
      ensures View(i) == old(View(i)).(
        state := t.toState, data := Merge(old(i.data), output),
        pendingIntent := None, pendingTransition := None, sealed := None,
        history := old(i.history) + [sent] + [Applied(t.fromState, t.toState)])
    {
      i.data := Merge(i.data, output);
      Emit(i, sent);
      i.pendingIntent, i.pendingTransition, i.sealed := None, None, None;
      i.state := t.toState;
      Emit(i, Applied(t.fromState, t.toState));
    }

    method Advance(i: WorkflowInstance, t: Transition) returns (signal: Signal)
      modifies this, i
      ensures i.executing == old(i.executing)
      ensures Outcome(signal, View(i)) == Spec.Advance(kernel, old(View(i)), t)
    {
      if t.action.None? {
        i.state := t.toState;
        Emit(i, Applied(t.fromState, t.toState));
        return Fine;
      }
      var found := kernel.catalog(t.action.value.capabilityId);
      if found.None? {
        return Raise(UnknownCapability);
      }
      if found.value.effect.ExternalMutation? && i.pendingTransition.None? {
        signal := Seal(i, t);
      } else {
        signal := Dispatch(i, t, found.value);
      }
    }

    method ResolvePending(i: WorkflowInstance, approver: Approver) returns (escape: Option<Escape>)
      modifies this, i
      ensures i.executing == old(i.executing)
      ensures Answered(View(i), escape) == Spec.ResolvePending(kernel, old(View(i)), approver)
    {
      if i.pendingIntent.None? || i.pendingTransition.None? || i.pendingTransition.value.action.None? {
        Fail(i, NoPendingEffect);
        return None;
      }
      ghost var s := View(i);
      ResolveUnfold(kernel, s, approver);
      var intent := i.pendingIntent.value;
      var decision := approver(intent);
      var verdict := Judge(i, intent, i.pendingTransition.value, decision);
      i.consulted := i.consulted + 1;
      assert View(i) == s.(consulted := s.consulted + 1, readings := s.readings + 1);
      escape := Enact(i, intent, verdict);
    }

    /** Read the clock and hold the decision against the sealed intent. */
    method Judge(i: WorkflowInstance, intent: Intent, t: Transition, decision: Decision) returns (verdict: Verdict)
      requires t.action.Some?
      modifies this`readings
      ensures readings == old(readings) + 1
      ensures verdict == Spec.Judge(kernel, old(View(i)), intent, t, decision)
    {
      var now := Now();
      if decision.intentId != intent.intentId {
        return OtherIntent(decision.intentId);
      }
      var resolution := ResolveInput(t.action.value, i.data);
      if resolution.Missing? {
        return NothingToApprove;
      }
      var relabeled, payload := intent.(actor := decision.decidedBy), GovernedPayload(i.definition, t, resolution.input);
      var ok, reasons := VerifyIntent(kernel.hash, relabeled, i.tenant, t.action.value.capabilityId, payload, now);
      if !decision.approved {
        return Refusal(decision.decidedBy);
      }
      return if ok then Grant(decision.decidedBy) else Unsound(reasons);
    }

    method Enact(i: WorkflowInstance, intent: Intent, verdict: Verdict) returns (escape: Option<Escape>)
      modifies i`history, i`status, i`failure, i`pendingIntent, i`pendingTransition, i`sealed
      ensures Answered(View(i), escape) == Spec.Enact(old(View(i)), intent, verdict)
    {
      escape := None;
      match verdict {
        case OtherIntent(intentId) =>
          Emit(i, Mismatched(intentId));
        case NothingToApprove =>
          escape := Some(VanishedBinding);
        case Refusal(actor) =>
          Emit(i, Rejected(intent.intentId, actor));
          Fail(i, RejectedBy(actor));
        case Unsound(reasons) =>
          Emit(i, Invalid(intent.intentId, reasons));
        case Grant(actor) =>
          Emit(i, Granted(intent.intentId, actor));
          i.status := Running;
      }
    }

    /** The loop of `run`. */
    method RunLocked(i: WorkflowInstance, approver: Option<Approver>) returns (escape: Option<Escape>)
      modifies this, i
      ensures i.executing == old(i.executing)
      ensures Answered(View(i), escape) == Loop(kernel, old(View(i)), approver, false)
    {
      var resolvedHere := false;
      while i.status != Completed && i.status != Failed
        invariant i.executing == old(i.executing)
        invariant Loop(kernel, View(i), approver, resolvedHere) == Loop(kernel, old(View(i)), approver, false)
        decreases StepsLeft(kernel, View(i)), !resolvedHere
      {
        StepShrinks(kernel, View(i), approver, resolvedHere);
        if i.status == Paused {
          if approver.None? || resolvedHere {
            return None;
          }
          escape := ResolvePending(i, approver.value);
          if escape.Some? || i.status != Running {
            return escape;
          }
          resolvedHere := true;
        } else {
          var stopped;
          stopped, escape := Turn(i, resolvedHere);
          if stopped {
            return escape;
          }
        }
      }
      return None;
    }

    /** One turn of a running instance: complete, fail, or take the first transition and charge it. */
    method Turn(i: WorkflowInstance, ghost resolvedHere: bool) returns (stopped: bool, escape: Option<Escape>)
      requires i.status == Running
      modifies this, i
      ensures i.executing == old(i.executing)
      ensures (if stopped then Stop(View(i), escape) else Go(View(i), resolvedHere))
           == StepRunning(kernel, old(View(i)), resolvedHere)
    {
      var transitions := TransitionsFrom(i.definition, i.state);
      if transitions == [] {
        if IsTerminal(i.definition, i.state) {
          i.status := Completed;
          Emit(i, Finished(i.state));
        } else {
          Fail(i, NoTransition(i.state));
        }
        return true, None;
      }
      var signal := Advance(i, transitions[0]);
      match signal {
        case Raise(cause) =>
          return true, Some(cause);
        case Protocol(reason) =>
          Fail(i, reason);
          return true, None;
        case Fine =>
          i.steps := i.steps + 1;
          if i.steps >= kernel.maxSteps {
            Fail(i, BudgetExhausted);
            return true, None;
          }
          return false, None;
      }
    }

    /** `run`: nothing on a final instance, an error when a run is already active,
        otherwise the loop, with the mark removed on every way out. */
    method Run(i: WorkflowInstance, approver: Option<Approver>) returns (escape: Option<Escape>)
      modifies this, i
      ensures i.executing == old(i.executing)
      ensures !old(i.executing) || Final(old(View(i))) ==>
        Answered(View(i), escape) == Spec.Run(kernel, old(View(i)), approver)
      ensures old(i.executing) && !Final(old(View(i))) ==> escape == Some(Reentrant) && View(i) == old(View(i))
    {
      if i.status == Completed || i.status == Failed {
        return None;
      }
      if i.executing {
        return Some(Reentrant);
      }
      i.executing := true;
      escape := RunLocked(i, approver);
      i.executing := false;
    }
  }

  /** StepDecreases, stated for the loop whatever the turn does. */
  lemma StepShrinks(k: Kernel, s: Inst, approver: Option<Approver>, resolvedHere: bool)
    ensures var r := Step(k, s, approver, resolvedHere);
      r.Go? ==>
        || StepsLeft(k, r.inst) < StepsLeft(k, s)
        || (StepsLeft(k, r.inst) == StepsLeft(k, s) && !resolvedHere && r.resolvedHere)
  {
    if Step(k, s, approver, resolvedHere).Go? {
      StepDecreases(k, s, approver, resolvedHere);
    }
  }
}
