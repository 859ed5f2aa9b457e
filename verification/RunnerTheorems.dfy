/** Theorems about every life of an instance, whatever the approvers answer and
    whatever the host puts into the data. */
module RunnerTheorems {
  import opened Text
  import opened Json
  import opened IntentBinding
  import opened Workflows
  import opened RunnerSpec
  import opened RunnerInvariant
  import opened RunnerBudget
  import opened TraceAutomaton
  import opened RunnerTrace
  import opened RunnerApproval

  /** The instance after a life that starts with `start`. */
  function Lived(k: Kernel, def: Definition, tenant: Tenant, data: Dict, readings: nat, minted: nat, actions: seq<Action>): Inst {
    Live(k, Start(def, tenant, data, readings, minted), actions)
  }

  lemma LivedInv(k: Kernel, def: Definition, tenant: Tenant, data: Dict, readings: nat, minted: nat, actions: seq<Action>)
    requires k.maxSteps >= 1
    ensures var s := Lived(k, def, tenant, data, readings, minted, actions);
      CoreInv(k, s) && AtRest(s) && s.definition == def && s.tenant == tenant
  {
    StartCore(k, def, tenant, data, readings, minted);
    LiveCore(k, Start(def, tenant, data, readings, minted), actions);
    LiveIdentity(k, Start(def, tenant, data, readings, minted), actions);
  }

  /** The history is a trace of the automaton, and reading it gives the status. */
  lemma HistoryIsTrace(k: Kernel, def: Definition, tenant: Tenant, data: Dict, readings: nat, minted: nat, actions: seq<Action>)
    requires k.maxSteps >= 1
    ensures var s := Lived(k, def, tenant, data, readings, minted, actions);
      Replay(k.catalog, def, s.history) == Shape(s) && !Shape(s).Bad?
  {
    var s0 := Start(def, tenant, data, readings, minted);
    LivedInv(k, def, tenant, data, readings, minted, actions);
    StartCore(k, def, tenant, data, readings, minted);
    StartTraced(k, def, tenant, data, readings, minted);
    LiveTraced(k, s0, actions);
  }

  /** The step budget is exact: a step for every pause and every transition, below
      the budget unless the instance has failed. */
  lemma StepsAreExact(k: Kernel, def: Definition, tenant: Tenant, data: Dict, readings: nat, minted: nat, actions: seq<Action>)
    requires k.maxSteps >= 1
    ensures var s := Lived(k, def, tenant, data, readings, minted, actions);
      && s.steps == CountApplied(s.history) + CountRequested(s.history)
      && (s.status != Failed ==> s.steps < k.maxSteps)
      && (s.status != Failed ==>
           CountRequested(s.history) == Gates(k.catalog, def, CountApplied(s.history)) + if s.status == Paused then 1 else 0)
  {
    LivedInv(k, def, tenant, data, readings, minted, actions);
  }

  /** A completed instance stands at the end of the one path of its definition: a
      terminal state that nothing leaves. It has visited no state twice, so it has
      taken fewer transitions than there are states, and it has paid exactly for
      that path. */
  lemma CompletedWalk(k: Kernel, def: Definition, tenant: Tenant, data: Dict, readings: nat, minted: nat, actions: seq<Action>)
    requires k.maxSteps >= 1 && Consistent(def)
    requires Lived(k, def, tenant, data, readings, minted, actions).status == Completed
    ensures var s := Lived(k, def, tenant, data, readings, minted, actions);
      var n := CountApplied(s.history);
      && PathEnds(def, n) && PathState(def, n) == Some(s.state)
      && (exists st | st in def.states :: st.name == s.state && st.terminal)
      && (forall t | t in def.transitions :: t.fromState != s.state)
      && (forall i, j | 0 <= i < j <= n :: PathState(def, i) != PathState(def, j))
      && n + 1 <= |def.states|
      && s.steps == n + Gates(k.catalog, def, n) < k.maxSteps
  {
    var s := Lived(k, def, tenant, data, readings, minted, actions);
    var n := CountApplied(s.history);
    LivedInv(k, def, tenant, data, readings, minted, actions);
    assert PathEnds(def, n);
    FromIsFilter(def.transitions, s.state);
    forall i, j | 0 <= i < j <= n
      ensures PathState(def, i) != PathState(def, j)
    {
      EndingPathDistinct(def, n, i, j);
    }
    EndingPathShort(def, n);
  }

  /** If the path comes back to a state, no life of any instance completes. */
  lemma LoopNeverCompletes(
    k: Kernel, def: Definition, tenant: Tenant, data: Dict, readings: nat, minted: nat, actions: seq<Action>, i: nat, j: nat)
    requires k.maxSteps >= 1
    requires i < j && PathState(def, i).Some? && PathState(def, i) == PathState(def, j)
    ensures Lived(k, def, tenant, data, readings, minted, actions).status != Completed
  {
    var s := Lived(k, def, tenant, data, readings, minted, actions);
    LivedInv(k, def, tenant, data, readings, minted, actions);
    LoopNeverEnds(def, i, j, CountApplied(s.history));
  }

  // -------------------------------------------------------- one call of `run`

  lemma ResolveConsults(k: Kernel, s: Inst, approver: Approver)
    ensures var r := ResolvePending(k, s, approver).inst; s.consulted <= r.consulted <= s.consulted + 1
  {
    if s.pendingIntent.Some? && s.pendingTransition.Some? && s.pendingTransition.value.action.Some? {
      ResolveUnfold(k, s, approver);
    }
  }

  lemma AdvanceConsults(k: Kernel, s: Inst, t: Transition)
    ensures Advance(k, s, t).inst.consulted == s.consulted
  {
  }

  lemma StepConsults(k: Kernel, s: Inst, approver: Option<Approver>, resolvedHere: bool)
    ensures var r := Step(k, s, approver, resolvedHere);
      && (resolvedHere || approver.None? ==> r.inst.consulted == s.consulted)
      && r.inst.consulted <= s.consulted + 1
      && (r.Go? && !r.resolvedHere ==> r.inst.consulted == s.consulted && !resolvedHere)
  {
    if s.status == Paused && approver.Some? && !resolvedHere {
      ResolveConsults(k, s, approver.value);
    } else if s.status == Running && First(s.definition, s.state).Some? {
      AdvanceConsults(k, s, First(s.definition, s.state).value);
    }
  }

  lemma {:induction false} LoopConsults(k: Kernel, s: Inst, approver: Option<Approver>, resolvedHere: bool)
    ensures var r := Loop(k, s, approver, resolvedHere);
      && (resolvedHere || approver.None? ==> r.inst.consulted == s.consulted)
      && r.inst.consulted <= s.consulted + 1
    decreases StepsLeft(k, s), !resolvedHere
  {
    StepConsults(k, s, approver, resolvedHere);
    var r := Step(k, s, approver, resolvedHere);
    if r.Go? {
      StepDecreases(k, s, approver, resolvedHere);
      LoopConsults(k, r.inst, approver, r.resolvedHere);
    }
  }

  lemma {:induction false} LoopReturns(k: Kernel, s: Inst, approver: Option<Approver>, resolvedHere: bool)
    ensures var r := Loop(k, s, approver, resolvedHere); r.escape.None? ==> r.inst.status != Running
    decreases StepsLeft(k, s), !resolvedHere
  {
    var r := Step(k, s, approver, resolvedHere);
    if r.Go? {
      StepDecreases(k, s, approver, resolvedHere);
      LoopReturns(k, r.inst, approver, r.resolvedHere);
    }
  }

  /** A call of `run` asks the approver at most once, not at all without one, and
      comes back paused, completed or failed; it is paused exactly when an intent
      and a transition are pending, and that transition is the first one out of the
      current state. */
  lemma RunContract(k: Kernel, s: Inst, approver: Option<Approver>)
    requires CoreInv(k, s) && AtRest(s)
    ensures var r := Run(k, s, approver);
      && r.inst.consulted <= s.consulted + (if approver.Some? then 1 else 0)
      && (r.escape.None? ==> r.inst.status == Paused || Final(r.inst))
      && (r.inst.status == Paused <==> r.inst.pendingIntent.Some? && r.inst.pendingTransition.Some?)
      && (r.inst.status == Paused ==> First(r.inst.definition, r.inst.state) == r.inst.pendingTransition)
      && (Final(s) ==> r.inst == s)
  {
    RunKeeps(k, s, approver, (x: Inst) => true);
    if !Final(s) {
      LoopConsults(k, s, approver, false);
      LoopReturns(k, s, approver, false);
    }
  }
}
