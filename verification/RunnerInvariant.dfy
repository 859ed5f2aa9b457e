/** What holds of an instance at every moment of its life: where it stands on the
    one path of its definition, what is pending, and how its steps are charged. */
module RunnerInvariant {
  import opened Text
  import opened Json
  import opened IntentBinding
  import opened Workflows
  import opened RunnerSpec

  function CountApplied(h: seq<Event>): nat {
    if h == [] then 0 else CountApplied(h[..|h| - 1]) + if h[|h| - 1].Applied? then 1 else 0
  }

  function CountRequested(h: seq<Event>): nat {
    if h == [] then 0 else CountRequested(h[..|h| - 1]) + if h[|h| - 1].Requested? then 1 else 0
  }

  predicate IsGate(catalog: Catalog, t: Transition) {
    t.action.Some? &&
    var spec := catalog(t.action.value.capabilityId);
    spec.Some? && spec.value.effect.ExternalMutation?
  }

  /** The governed transitions among the first `n` of the path. */
  function Gates(catalog: Catalog, def: Definition, n: nat): nat {
    if n == 0 then 0
    else
      Gates(catalog, def, n - 1) +
      if PathTransition(def, n - 1).Some? && IsGate(catalog, PathTransition(def, n - 1).value) then 1 else 0
  }

  /** What is pending is the first transition out of the current state, a governed
      one, with an intent that seals the input resolved for it. */
  ghost predicate PendingInv(k: Kernel, s: Inst) {
    match s.pendingTransition
    case None => s.pendingIntent.None? && s.sealed.None? && s.status != Paused
    case Some(t) =>
      && s.pendingIntent.Some? && s.sealed.Some? && !Final(s)
      && First(s.definition, s.state) == Some(t) && IsGate(k.catalog, t)
      && Seals(k.hash, s.definition, s.tenant, s.pendingIntent.value, t, s.sealed.value)
  }

  ghost predicate Seals(hash: Hash, def: Definition, tenant: Tenant, intent: Intent, t: Transition, input: Dict)
    requires t.action.Some?
  {
    && intent.tenant == tenant
    && intent.capabilityId == t.action.value.capabilityId
    && intent.payloadDigest == SealDigest(hash, def, tenant, t, input)
  }

  /** On the path after `applied` transitions and `requested` pauses, each of which
      cost one step: one pause for every gate passed, and one if a gate is open. */
  predicate At(catalog: Catalog, def: Definition, applied: nat, requested: nat, state: string, steps: int, open: bool) {
    match PathState(def, applied)
    case None => false
    case Some(here) =>
      here == state && steps == applied + requested && requested == Gates(catalog, def, applied) + if open then 1 else 0
  }

  predicate Standing(k: Kernel, s: Inst, steps: int) {
    match s
    case _ =>
      At(k.catalog, s.definition, CountApplied(s.history), CountRequested(s.history), s.state, steps, s.pendingTransition.Some?)
  }

  /** The same without knowing whether a gate is open: a failure forgets it. */
  predicate Paid(k: Kernel, s: Inst) {
    match PathState(s.definition, CountApplied(s.history))
    case None => false
    case Some(here) =>
      var applied, requested := CountApplied(s.history), CountRequested(s.history);
      && here == s.state
      && s.steps == applied + requested
      && Gates(k.catalog, s.definition, applied) <= requested <= Gates(k.catalog, s.definition, applied + 1)
  }

  /** Where the instance stands, and what it has paid to get there. */
  predicate ChargeInv(k: Kernel, s: Inst) {
    match s.status
    case Failed => Paid(k, s)
    case Completed =>
      Standing(k, s, s.steps) && s.steps < k.maxSteps
      && First(s.definition, s.state).None? && IsTerminal(s.definition, s.state)
    case _ => Standing(k, s, s.steps) && s.steps < k.maxSteps
  }

  ghost predicate CoreInv(k: Kernel, s: Inst) {
    PendingInv(k, s) && ChargeInv(k, s)
  }

  /** Between calls an instance is never running with an effect still pending: a
      granted approval is used up inside the call that granted it. */
  predicate AtRest(s: Inst) {
    s.status == Running ==> s.pendingTransition.None?
  }
}
