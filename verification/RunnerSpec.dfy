/** The approval-gated runner as functions on instance values: one step of the
    loop, one call of `run`, and a whole life of calls. The class in module Runner
    is proved to do exactly this. */
module RunnerSpec {
  import opened Text
  import opened Json
  import opened IntentBinding
  import opened Workflows

  datatype HandlerResult = Returned(output: Dict) | Raised(message: string)
  type Handler = (Tenant, string, Dict) -> HandlerResult

  datatype Decision = Decision(intentId: string, approved: bool, decidedBy: string)
  type Approver = Intent -> Decision

  /** A configured runner with the outside world it reads: the clock as the
      sequence of its readings, and the intent ids it will mint. */
  datatype Kernel = Kernel(
    catalog: Catalog, policy: EffectPolicy, handlers: map<string, Handler>,
    maxSteps: nat, ttl: int, hash: Hash, clock: nat -> int, freshId: nat -> string)

  datatype Status = Running | Paused | Completed | Failed

  datatype FailReason =
    | NoTransition(state: string)
    | PolicyDenied(capabilityId: string, state: string)
    | MissingBinding(key: string, path: string)
    | HandlerRaised(message: string)
    | BudgetExhausted
    | RejectedBy(actor: string)
    | NoPendingEffect

  datatype Event =
    | Started(workflowId: string, revision: int, state: string)
    | Applied(fromState: string, toState: string)
    | Dispatched(capabilityId: string, effect: EffectClass, fromState: string, toState: string,
                 approvalDigest: Option<string>, inputDigest: string)
    | Requested(intentId: string, capabilityId: string, state: string)
    | Mismatched(intentId: string)
    | Invalid(intentId: string, reasons: seq<Reason>)
    | Granted(intentId: string, decidedBy: string)
    | Rejected(intentId: string, decidedBy: string)
    | Finished(state: string)
    | Broken(reason: FailReason)

  /** A handler invocation: the transition it serves, the input handed over and,
      for a governed effect, the input that was resolved when the intent was sealed. */
  datatype Call = Call(
    transition: Transition, effect: EffectClass, input: Dict, approved: Option<Dict>, intent: Option<Intent>)

  /** A workflow instance. `calls` and `sealed` are bookkeeping of the proof;
      `consulted` counts approver calls, `readings` and `minted` count what the
      runner has drawn from its clock and its ids. */
  datatype Inst = Inst(
    definition: Definition, tenant: Tenant, state: string, status: Status, data: Dict, steps: nat,
    pendingIntent: Option<Intent>, pendingTransition: Option<Transition>, failure: Option<FailReason>,
    history: seq<Event>, calls: seq<Call>, sealed: Option<Dict>,
    consulted: nat, readings: nat, minted: nat)

  /** What can leave `run` as an exception. */
  datatype Escape = UnknownCapability | VanishedBinding | UnsealableIntent | Reentrant

  // ------------------------------------------------------------- resolved input

  function Walk(value: Json, parts: seq<string>): (r: Option<Json>)
    ensures r.Some? && WellFormed(value) ==> WellFormed(r.value)
    decreases |parts|
  {
    if parts == [] then Some(value)
    else if value.Obj? && Has(value.members, parts[0]) then Walk(Get(value.members, parts[0]), parts[1..])
    else None
  }

  function Put(d: Dict, key: string, value: Json): Dict
    requires WellFormed(value)
  {
    SetWellFormed(d, key, value);
    Set(d, key, value)
  }

  function Merge(d: Dict, e: Dict): Dict {
    UpdateWellFormed(d, e);
    Update(d, e)
  }

  datatype Resolution = Resolved(input: Dict) | Missing(key: string, path: string)

  function Bind(resolved: Dict, bindings: seq<(string, string)>, data: Dict): Resolution
    decreases |bindings|
  {
    if bindings == [] then Resolved(resolved)
    else
      var (key, path) := bindings[0];
      match Walk(Obj(data), Split(path, '.'))
      case None => Missing(key, path)
      case Some(value) => Bind(Put(resolved, key, value), bindings[1..], data)
  }

  /** Static input overlaid with the values found in the workflow data. */
  function ResolvedInput(action: ActionCall, data: Dict): Resolution {
    Bind(action.input, action.inputFrom, data)
  }

  function GovernedPayload(def: Definition, t: Transition, input: Dict): (r: Dict)
    ensures |r| == 5
  {
    [ Member("workflow_id", Str(def.workflowId)), Member("revision", Int(def.revision)),
      Member("from_state", Str(t.fromState)), Member("to_state", Str(t.toState)),
      Member("input", Obj(input)) ]
  }

  /** The digest that seals `input` for the transition. */
  function SealDigest(hash: Hash, def: Definition, tenant: Tenant, t: Transition, input: Dict): string
    requires t.action.Some?
  {
    BindIntent(hash, tenant, t.action.value.capabilityId, GovernedPayload(def, t, input))
  }

  function InputPayload(input: Dict): (r: Dict)
    ensures |r| == 1
  {
    [Member("input", Obj(input))]
  }

  function InputDigest(hash: Hash, tenant: Tenant, capabilityId: string, input: Dict): string {
    BindIntent(hash, tenant, capabilityId, InputPayload(input))
  }

  // ------------------------------------------------------------------ one step

  function Emit(s: Inst, e: Event): Inst {
    s.(history := s.history + [e])
  }

  function Fail(s: Inst, reason: FailReason): Inst {
    Emit(s.(status := Failed, failure := Some(reason), pendingIntent := None, pendingTransition := None, sealed := None),
         Broken(reason))
  }

  datatype Advanced =
    | Done(inst: Inst)
    | Violation(inst: Inst, reason: FailReason)
    | Thrown(inst: Inst, cause: Escape)

  function Move(s: Inst, t: Transition): Inst {
    Emit(s.(state := t.toState), Applied(t.fromState, t.toState))
  }

  /** A new intent, unless it would expire by its creation; the two times are
      separate readings of the clock. */
  function FreshIntent(k: Kernel, s: Inst, capabilityId: string, digest: string): Option<Intent> {
    var created, expires := k.clock(s.readings), k.clock(s.readings + 1) + k.ttl;
    if expires <= created then None
    else
      Some(Intent(k.freshId(s.minted), s.tenant, "pending-human", capabilityId, digest, created, expires))
  }

  /** The instance held at a sealed intent. */
  function Suspended(s: Inst, t: Transition, intent: Intent, input: Dict): Inst {
    Emit(s.(pendingIntent := Some(intent), pendingTransition := Some(t), status := Paused, sealed := Some(input)),
         Requested(intent.intentId, intent.capabilityId, s.state))
  }

  /** First arrival at a governed effect: seal the resolved input and pause. */
  function Seal(k: Kernel, s: Inst, t: Transition): Advanced
    requires t.action.Some?
  {
    match ResolvedInput(t.action.value, s.data)
    case Missing(key, path) => Violation(s, MissingBinding(key, path))
    case Resolved(input) =>
      match FreshIntent(k, s, t.action.value.capabilityId, SealDigest(k.hash, s.definition, s.tenant, t, input))
      case None => Thrown(s.(readings := s.readings + 2), UnsealableIntent)
      case Some(intent) => Done(Suspended(s.(readings := s.readings + 2, minted := s.minted + 1), t, intent, input))
  }

  /** Once the input is resolved, the fresh intent decides. */
  lemma SealResolved(k: Kernel, s: Inst, t: Transition, input: Dict, intent: Option<Intent>)
    requires t.action.Some? && ResolvedInput(t.action.value, s.data) == Resolved(input)
    requires intent == FreshIntent(k, s, t.action.value.capabilityId, SealDigest(k.hash, s.definition, s.tenant, t, input))
    ensures var asked := s.(readings := s.readings + 2);
      Seal(k, s, t) ==
        if intent.None? then Thrown(asked, UnsealableIntent)
        else Done(Suspended(asked.(minted := s.minted + 1), t, intent.value, input))
  {
  }

  function Invoke(k: Kernel, tenant: Tenant, capabilityId: string, input: Dict): HandlerResult {
    if capabilityId in k.handlers then k.handlers[capabilityId](tenant, capabilityId, input) else Returned([])
  }

  /** Check the policy, resolve the input, call the handler and move on. */
  function Dispatch(k: Kernel, s: Inst, t: Transition, spec: CapabilitySpec): Advanced
    requires t.action.Some?
  {
    var action := t.action.value;
    if !Allows(k.policy, spec.effect, s.pendingTransition.Some?) then
      Violation(s, PolicyDenied(spec.capabilityId, t.fromState))
    else
      match ResolvedInput(action, s.data)
      case Missing(key, path) => Violation(s, MissingBinding(key, path))
      case Resolved(input) =>
        var called := s.(calls := s.calls + [Call(t, spec.effect, input, s.sealed, s.pendingIntent)]);
        match Invoke(k, s.tenant, action.capabilityId, input)
        case Raised(message) => Violation(called, HandlerRaised(message))
        case Returned(output) =>
          var approvalDigest := if s.pendingIntent.Some? then Some(s.pendingIntent.value.payloadDigest) else None;
          var sent := Emit(
            called.(data := Merge(s.data, output)),
            Dispatched(action.capabilityId, spec.effect, t.fromState, t.toState, approvalDigest,
                       InputDigest(k.hash, s.tenant, action.capabilityId, input)));
          Done(Move(sent.(pendingIntent := None, pendingTransition := None, sealed := None), t))
  }

  /** The event of a dispatch. */
  function DispatchEvent(k: Kernel, s: Inst, t: Transition, effect: EffectClass, input: Dict): Event
    requires t.action.Some?
  {
    Dispatched(t.action.value.capabilityId, effect, t.fromState, t.toState,
               if s.pendingIntent.Some? then Some(s.pendingIntent.value.payloadDigest) else None,
               InputDigest(k.hash, s.tenant, t.action.value.capabilityId, input))
  }

  /** A dispatch that succeeds, in one equation. */
  lemma DispatchDone(k: Kernel, s: Inst, t: Transition, spec: CapabilitySpec)
    requires t.action.Some? && Dispatch(k, s, t, spec).Done?
    ensures var resolution := ResolvedInput(t.action.value, s.data);
      && Allows(k.policy, spec.effect, s.pendingTransition.Some?)
      && resolution.Resolved?
      && var result := Invoke(k, s.tenant, t.action.value.capabilityId, resolution.input);
         && result.Returned?
         && Dispatch(k, s, t, spec).inst == s.(
              state := t.toState, data := Merge(s.data, result.output),
              pendingIntent := None, pendingTransition := None, sealed := None,
              calls := s.calls + [Call(t, spec.effect, resolution.input, s.sealed, s.pendingIntent)],
              history := s.history + [DispatchEvent(k, s, t, spec.effect, resolution.input)] + [Applied(t.fromState, t.toState)])
  {
  }

  function Advance(k: Kernel, s: Inst, t: Transition): Advanced {
    if t.action.None? then Done(Move(s, t))
    else
      match k.catalog(t.action.value.capabilityId)
      case None => Thrown(s, UnknownCapability)
      case Some(spec) =>
        if spec.effect.ExternalMutation? && s.pendingTransition.None? then Seal(k, s, t) else Dispatch(k, s, t, spec)
  }

  datatype Answered = Answered(inst: Inst, escape: Option<Escape>)

  /** What comes of an approver's answer. */
  datatype Verdict =
    | OtherIntent(intentId: string)
    | NothingToApprove
    | Refusal(actor: string)
    | Unsound(reasons: seq<Reason>)
    | Grant(actor: string)

  function Judge(k: Kernel, s: Inst, intent: Intent, t: Transition, decision: Decision): Verdict
    requires t.action.Some?
  {
    if decision.intentId != intent.intentId then OtherIntent(decision.intentId)
    else
      match ResolvedInput(t.action.value, s.data)
      case Missing(_, _) => NothingToApprove
      case Resolved(input) =>
        var reasons := VerifyReasons(
          k.hash, intent.(actor := decision.decidedBy), s.tenant, t.action.value.capabilityId,
          GovernedPayload(s.definition, t, input), k.clock(s.readings));
        if !decision.approved then Refusal(decision.decidedBy)
        else if reasons != [] then Unsound(reasons)
        else Grant(decision.decidedBy)
  }

  function Enact(s: Inst, intent: Intent, verdict: Verdict): Answered {
    match verdict
    case OtherIntent(intentId) => Answered(Emit(s, Mismatched(intentId)), None)
    case NothingToApprove => Answered(s, Some(VanishedBinding))
    case Refusal(actor) => Answered(Fail(Emit(s, Rejected(intent.intentId, actor)), RejectedBy(actor)), None)
    case Unsound(reasons) => Answered(Emit(s, Invalid(intent.intentId, reasons)), None)
    case Grant(actor) => Answered(Emit(s, Granted(intent.intentId, actor)).(status := Running), None)
  }

  /** Ask the approver about the pending intent and act on the answer. */
  function ResolvePending(k: Kernel, s: Inst, approver: Approver): Answered {
    if s.pendingIntent.None? || s.pendingTransition.None? || s.pendingTransition.value.action.None? then
      Answered(Fail(s, NoPendingEffect), None)
    else
      var intent := s.pendingIntent.value;
      var asked := s.(consulted := s.consulted + 1, readings := s.readings + 1);
      Enact(asked, intent, Judge(k, s, intent, s.pendingTransition.value, approver(intent)))
  }

  lemma ResolveUnfold(k: Kernel, s: Inst, approver: Approver)
    requires s.pendingIntent.Some? && s.pendingTransition.Some? && s.pendingTransition.value.action.Some?
    ensures ResolvePending(k, s, approver) == Enact(
      s.(consulted := s.consulted + 1, readings := s.readings + 1), s.pendingIntent.value,
      Judge(k, s, s.pendingIntent.value, s.pendingTransition.value, approver(s.pendingIntent.value)))
  {
  }

  datatype StepResult = Stop(inst: Inst, escape: Option<Escape>) | Go(inst: Inst, resolvedHere: bool)

  function StepsLeft(k: Kernel, s: Inst): nat {
    if s.steps < k.maxSteps then k.maxSteps - s.steps else 0
  }

  predicate Final(s: Inst) {
    s.status == Completed || s.status == Failed
  }

  function StepPaused(k: Kernel, s: Inst, approver: Option<Approver>, resolvedHere: bool): StepResult {
    if approver.None? || resolvedHere then Stop(s, None)
    else
      var answer := ResolvePending(k, s, approver.value);
      if answer.escape.Some? || answer.inst.status != Running then Stop(answer.inst, answer.escape)
      else Go(answer.inst, true)
  }

  function StepRunning(k: Kernel, s: Inst, resolvedHere: bool): StepResult {
    match First(s.definition, s.state)
    case None =>
      if IsTerminal(s.definition, s.state) then Stop(Emit(s.(status := Completed), Finished(s.state)), None)
      else Stop(Fail(s, NoTransition(s.state)), None)
    case Some(t) => Charge(k, Advance(k, s, t), resolvedHere)
  }

  /** What the loop makes of a transition: a violation fails the instance, and what
      went through costs a step. */
  function Charge(k: Kernel, r: Advanced, resolvedHere: bool): StepResult {
    match r
    case Thrown(s, cause) => Stop(s, Some(cause))
    case Violation(s, reason) => Stop(Fail(s, reason), None)
    case Done(s) =>
      var charged := s.(steps := s.steps + 1);
      if charged.steps >= k.maxSteps then Stop(Fail(charged, BudgetExhausted), None) else Go(charged, resolvedHere)
  }

  /** The charge for a transition that went through, in one equation. */
  lemma StepCharges(k: Kernel, s: Inst, t: Transition, resolvedHere: bool)
    requires First(s.definition, s.state) == Some(t) && Advance(k, s, t).Done?
    ensures var done := Advance(k, s, t).inst; var charged := done.(steps := done.steps + 1);
      StepRunning(k, s, resolvedHere) ==
        if charged.steps >= k.maxSteps then Stop(Fail(charged, BudgetExhausted), None) else Go(charged, resolvedHere)
  {
  }

  /** One turn of the loop in `run`. */
  function Step(k: Kernel, s: Inst, approver: Option<Approver>, resolvedHere: bool): StepResult {
    match s.status
    case Paused => StepPaused(k, s, approver, resolvedHere)
    case Running => StepRunning(k, s, resolvedHere)
    case _ => Stop(s, None)
  }

  lemma AdvanceKeepsSteps(k: Kernel, s: Inst, t: Transition)
    ensures Advance(k, s, t).inst.steps == s.steps
  {
  }

  /** Every turn that goes on charges a step or uses the one decision of the call:
      the loop ends on every graph. */
  lemma StepDecreases(k: Kernel, s: Inst, approver: Option<Approver>, resolvedHere: bool)
    requires Step(k, s, approver, resolvedHere).Go?
    ensures var r := Step(k, s, approver, resolvedHere);
      || StepsLeft(k, r.inst) < StepsLeft(k, s)
      || (StepsLeft(k, r.inst) == StepsLeft(k, s) && !resolvedHere && r.resolvedHere)
  {
    if s.status == Running {
      AdvanceKeepsSteps(k, s, First(s.definition, s.state).value);
    }
  }

  function Loop(k: Kernel, s: Inst, approver: Option<Approver>, resolvedHere: bool): Answered
    decreases StepsLeft(k, s), !resolvedHere
  {
    var r := Step(k, s, approver, resolvedHere);
    if r.Stop? then Answered(r.inst, r.escape)
    else
      StepDecreases(k, s, approver, resolvedHere);
      Loop(k, r.inst, approver, r.resolvedHere)
  }

  /** A call of `run`. */
  function Run(k: Kernel, s: Inst, approver: Option<Approver>): Answered {
    if Final(s) then Answered(s, None) else Loop(k, s, approver, false)
  }

  // ---------------------------------------------------------------- whole lives

  predicate Startable(k: Kernel, def: Definition) {
    forall c | c in ReferencedCapabilities(def) :: k.catalog(c).Some?
  }

  function Start(def: Definition, tenant: Tenant, data: Dict, readings: nat, minted: nat): Inst {
    Inst(def, tenant, def.initialState, Running, data, 0, None, None, None,
         [Started(def.workflowId, def.revision, def.initialState)], [], None, 0, readings, minted)
  }

  /** What may happen to an instance between calls: the host runs it, the host
      replaces its data, or other instances draw on the runner's clock and ids. */
  datatype Action =
    | CallRun(approver: Option<Approver>)
    | ReplaceData(data: Dict)
    | Elsewhere(readings: nat, minted: nat)

  function Act(k: Kernel, s: Inst, action: Action): Inst {
    match action
    case CallRun(approver) => Run(k, s, approver).inst
    case ReplaceData(data) => s.(data := data)
    case Elsewhere(readings, minted) => s.(readings := s.readings + readings, minted := s.minted + minted)
  }

  function Live(k: Kernel, s: Inst, actions: seq<Action>): Inst {
    if actions == [] then s else Act(k, Live(k, s, actions[..|actions| - 1]), actions[|actions| - 1])
  }

  /** Induction over a call of `run`: what every turn keeps, the call keeps. */
  lemma {:induction false} LoopKeeps(k: Kernel, s: Inst, approver: Option<Approver>, resolvedHere: bool, inv: Inst -> bool)
    requires inv(s)
    requires forall x: Inst, a: Option<Approver>, f: bool :: inv(x) ==> inv(Step(k, x, a, f).inst)
    ensures inv(Loop(k, s, approver, resolvedHere).inst)
    decreases StepsLeft(k, s), !resolvedHere
  {
    var r := Step(k, s, approver, resolvedHere);
    if r.Go? {
      StepDecreases(k, s, approver, resolvedHere);
      LoopKeeps(k, r.inst, approver, r.resolvedHere, inv);
    }
  }
}
