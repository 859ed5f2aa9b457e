/** Each governed dispatch in a history belongs to one intent: the one requested
    last, granted immediately before, and whose digest the event carries. */
module RunnerLinks {
  import opened Text
  import opened Json
  import opened IntentBinding
  import opened Workflows
  import opened RunnerSpec
  import opened RunnerInvariant
  import opened RunnerBudget
  import opened RunnerApproval
  import opened RunnerTheorems

  /** An approval as a history shows it: the id requested last, the id granted by
      the event just before, and the digest on the dispatch. */
  datatype Link = Link(requested: Option<string>, granted: Option<string>, digest: string)

  function LastRequested(h: seq<Event>): Option<string> {
    if h == [] then None
    else if h[|h| - 1].Requested? then Some(h[|h| - 1].intentId)
    else LastRequested(h[..|h| - 1])
  }

  function JustGranted(h: seq<Event>): Option<string> {
    if h != [] && h[|h| - 1].Granted? then Some(h[|h| - 1].intentId) else None
  }

  /** The governed dispatches of a history, in order. */
  function Links(h: seq<Event>): seq<Link> {
    if h == [] then []
    else
      var init, last := h[..|h| - 1], h[|h| - 1];
      if last.Dispatched? && last.approvalDigest.Some? then
        Links(init) + [Link(LastRequested(init), JustGranted(init), last.approvalDigest.value)]
      else Links(init)
  }

  /** The same from the intents under which handlers were called. */
  function Approvals(calls: seq<Call>): seq<Link> {
    if calls == [] then []
    else
      var init, last := calls[..|calls| - 1], calls[|calls| - 1];
      if last.intent.Some? then Approvals(init) + [LinkOf(last.intent.value)] else Approvals(init)
  }

  function LinkOf(intent: Intent): Link {
    Link(Some(intent.intentId), Some(intent.intentId), intent.payloadDigest)
  }

  /** An external call is made under an intent that seals the approved input, for
      this tenant and this capability; no other call is made under an intent. */
  ghost predicate UnderIntent(k: Kernel, s: Inst, c: Call) {
    && (c.effect.ExternalMutation? <==> c.intent.Some?)
    && (c.intent.Some? ==>
         && c.transition.action.Some? && c.approved.Some?
         && Seals(k.hash, s.definition, s.tenant, c.intent.value, c.transition, c.approved.value))
  }

  ghost predicate LinkInv(k: Kernel, s: Inst) {
    && Links(s.history) <= Approvals(s.calls)
    && (s.status != Failed ==> Links(s.history) == Approvals(s.calls))
    && (s.pendingIntent.Some? ==> LastRequested(s.history) == Some(s.pendingIntent.value.intentId))
    && (s.pendingIntent.Some? && s.status == Running ==> JustGranted(s.history) == Some(s.pendingIntent.value.intentId))
    && forall i | 0 <= i < |s.calls| :: UnderIntent(k, s, s.calls[i])
  }

  lemma LinksEmit(h: seq<Event>, e: Event)
    ensures LastRequested(h + [e]) == if e.Requested? then Some(e.intentId) else LastRequested(h)
    ensures JustGranted(h + [e]) == if e.Granted? then Some(e.intentId) else None
    ensures Links(h + [e]) ==
      if e.Dispatched? && e.approvalDigest.Some? then Links(h) + [Link(LastRequested(h), JustGranted(h), e.approvalDigest.value)]
      else Links(h)
  {
    assert (h + [e])[..|h|] == h;
  }

  lemma ApprovalsSnoc(calls: seq<Call>, c: Call)
    ensures Approvals(calls + [c]) == if c.intent.Some? then Approvals(calls) + [LinkOf(c.intent.value)] else Approvals(calls)
  {
    assert (calls + [c])[..|calls|] == calls;
  }

  /** A change that neither calls nor dispatches, and leaves nothing newly granted. */
  lemma QuietLinks(k: Kernel, s: Inst, s': Inst)
    requires LinkInv(k, s) && SameInstance(s, s') && s'.calls == s.calls && Links(s'.history) == Links(s.history)
    requires s.status == Failed ==> s'.status == Failed
    requires s'.pendingIntent.Some? ==> LastRequested(s'.history) == Some(s'.pendingIntent.value.intentId)
    requires s'.pendingIntent.Some? && s'.status == Running ==> JustGranted(s'.history) == Some(s'.pendingIntent.value.intentId)
    ensures LinkInv(k, s')
  {
    assert forall i | 0 <= i < |s.calls| :: UnderIntent(k, s, s.calls[i]) == UnderIntent(k, s', s.calls[i]);
  }

  lemma FailLinks(k: Kernel, s: Inst, reason: FailReason)
    requires LinkInv(k, s)
    ensures LinkInv(k, Fail(s, reason))
  {
    LinksEmit(s.history, Broken(reason));
    QuietLinks(k, s, Fail(s, reason));
  }

  lemma EnactLinks(k: Kernel, s: Inst, intent: Intent, verdict: Verdict)
    requires LinkInv(k, s) && s.status == Paused && s.pendingIntent == Some(intent)
    ensures LinkInv(k, Enact(s, intent, verdict).inst)
  {
    var s' := Enact(s, intent, verdict).inst;
    match verdict
    case NothingToApprove =>
    case OtherIntent(other) => LinksEmit(s.history, Mismatched(other)); QuietLinks(k, s, s');
    case Unsound(reasons) => LinksEmit(s.history, Invalid(intent.intentId, reasons)); QuietLinks(k, s, s');
    case Grant(actor) => LinksEmit(s.history, Granted(intent.intentId, actor)); QuietLinks(k, s, s');
    case Refusal(actor) =>
      LinksEmit(s.history, Rejected(intent.intentId, actor));
      QuietLinks(k, s, Emit(s, Rejected(intent.intentId, actor)));
      FailLinks(k, Emit(s, Rejected(intent.intentId, actor)), RejectedBy(actor));
  }

  /** The call that a dispatch makes is made under the pending intent. */
  lemma NextCallUnder(k: Kernel, s: Inst, t: Transition, spec: CapabilitySpec, input: Dict)
    requires PendingInv(k, s) && s.status == Running && First(s.definition, s.state) == Some(t)
    requires t.action.Some? && k.catalog(t.action.value.capabilityId) == Some(spec)
    requires spec.effect.ExternalMutation? ==> s.pendingTransition.Some?
    ensures UnderIntent(k, s, Call(t, spec.effect, input, s.sealed, s.pendingIntent))
  {
  }

  lemma CalledLinks(k: Kernel, s: Inst, s': Inst, c: Call)
    requires LinkInv(k, s) && s.status != Failed && SameInstance(s, s') && UnderIntent(k, s, c)
    requires s'.calls == s.calls + [c] && s'.pendingIntent.None?
    requires
      || (s'.status == Failed && Links(s'.history) == Links(s.history))
      || Links(s'.history) == Approvals(s.calls + [c])
    ensures LinkInv(k, s')
  {
    ApprovalsSnoc(s.calls, c);
    forall i | 0 <= i < |s'.calls|
      ensures UnderIntent(k, s', s'.calls[i])
    {
      assert i < |s.calls| ==> UnderIntent(k, s, s.calls[i]);
    }
  }

  lemma DispatchLinks(k: Kernel, s: Inst, t: Transition, spec: CapabilitySpec)
    requires PendingInv(k, s) && LinkInv(k, s) && s.status == Running && First(s.definition, s.state) == Some(t)
    requires t.action.Some? && k.catalog(t.action.value.capabilityId) == Some(spec)
    requires spec.effect.ExternalMutation? ==> s.pendingTransition.Some?
    requires Dispatch(k, s, t, spec).Done?
    ensures LinkInv(k, Dispatch(k, s, t, spec).inst)
  {
    DispatchDone(k, s, t, spec);
    var input := ResolvedInput(t.action.value, s.data).input;
    var sent := DispatchEvent(k, s, t, spec.effect, input);
    var c := Call(t, spec.effect, input, s.sealed, s.pendingIntent);
    NextCallUnder(k, s, t, spec, input);
    ApprovalsSnoc(s.calls, c);
    LinksEmit(s.history, sent);
    LinksEmit(s.history + [sent], Applied(t.fromState, t.toState));
    CalledLinks(k, s, Dispatch(k, s, t, spec).inst, c);
  }

  lemma DispatchBreaksLinks(k: Kernel, s: Inst, t: Transition, spec: CapabilitySpec)
    requires PendingInv(k, s) && LinkInv(k, s) && s.status == Running && First(s.definition, s.state) == Some(t)
    requires t.action.Some? && k.catalog(t.action.value.capabilityId) == Some(spec)
    requires spec.effect.ExternalMutation? ==> s.pendingTransition.Some?
    requires Dispatch(k, s, t, spec).Violation?
    ensures var r := Dispatch(k, s, t, spec); LinkInv(k, Fail(r.inst, r.reason))
  {
    var r := Dispatch(k, s, t, spec);
    if r.inst == s {
      FailLinks(k, s, r.reason);
    } else {
      var input := ResolvedInput(t.action.value, s.data).input;
      NextCallUnder(k, s, t, spec, input);
      LinksEmit(s.history, Broken(r.reason));
      CalledLinks(k, s, Fail(r.inst, r.reason), Call(t, spec.effect, input, s.sealed, s.pendingIntent));
    }
  }

  lemma SealLinks(k: Kernel, s: Inst, t: Transition)
    requires LinkInv(k, s) && t.action.Some? && s.status == Running && s.pendingIntent.None?
    ensures LinkInv(k, Seal(k, s, t).inst)
  {
    var r := Seal(k, s, t);
    if r.Done? {
      var intent := r.inst.pendingIntent.value;
      var requested := Requested(intent.intentId, intent.capabilityId, s.state);
      assert r.inst.history == s.history + [requested];
      LinksEmit(s.history, requested);
    }
    QuietLinks(k, s, r.inst);
  }

  lemma AdvanceLinks(k: Kernel, s: Inst, t: Transition)
    requires CoreInv(k, s) && LinkInv(k, s) && s.status == Running && First(s.definition, s.state) == Some(t)
    ensures var r := Advance(k, s, t);
      if r.Violation? then LinkInv(k, Fail(r.inst, r.reason)) else LinkInv(k, r.inst)
  {
    var r := Advance(k, s, t);
    if t.action.None? {
      LinksEmit(s.history, Applied(t.fromState, t.toState));
      QuietLinks(k, s, r.inst);
    } else if k.catalog(t.action.value.capabilityId).Some? {
      var spec := k.catalog(t.action.value.capabilityId).value;
      if spec.effect.ExternalMutation? && s.pendingTransition.None? {
        SealLinks(k, s, t);
        if r.Violation? {
          FailLinks(k, r.inst, r.reason);
        }
      } else if r.Done? {
        DispatchLinks(k, s, t, spec);
      } else if r.Violation? {
        DispatchBreaksLinks(k, s, t, spec);
      }
    }
  }

  lemma RunningLinks(k: Kernel, s: Inst, resolvedHere: bool)
    requires CoreInv(k, s) && LinkInv(k, s) && s.status == Running
    ensures LinkInv(k, StepRunning(k, s, resolvedHere).inst)
  {
    match First(s.definition, s.state)
    case None =>
      LinksEmit(s.history, Finished(s.state));
      FailLinks(k, s, NoTransition(s.state));
      assert s.pendingIntent.None?;
      QuietLinks(k, s, Emit(s.(status := Completed), Finished(s.state)));
    case Some(t) =>
      AdvanceLinks(k, s, t);
      var r := Advance(k, s, t);
      if r.Done? {
        StepCharges(k, s, t, resolvedHere);
        var charged := r.inst.(steps := r.inst.steps + 1);
        QuietLinks(k, r.inst, charged);
        FailLinks(k, charged, BudgetExhausted);
      }
  }

  lemma StepLinks(k: Kernel, s: Inst, approver: Option<Approver>, resolvedHere: bool)
    requires CoreInv(k, s) && LinkInv(k, s)
    ensures LinkInv(k, Step(k, s, approver, resolvedHere).inst)
  {
    if s.status == Paused {
      if approver.Some? && !resolvedHere {
        var intent := s.pendingIntent.value;
        var asked := s.(consulted := s.consulted + 1, readings := s.readings + 1);
        ResolveUnfold(k, s, approver.value);
        QuietLinks(k, s, asked);
        EnactLinks(k, asked, intent, Judge(k, s, intent, s.pendingTransition.value, approver.value(intent)));
      }
    } else if s.status == Running {
      RunningLinks(k, s, resolvedHere);
    }
  }

  lemma TurnsLinked(k: Kernel)
    ensures forall x: Inst, a: Option<Approver>, f: bool ::
      CoreInv(k, x) && LinkInv(k, x) ==> LinkInv(k, Step(k, x, a, f).inst)
  {
    forall x: Inst, a: Option<Approver>, f: bool | CoreInv(k, x) && LinkInv(k, x)
      ensures LinkInv(k, Step(k, x, a, f).inst)
    {
      StepLinks(k, x, a, f);
    }
  }

  lemma IdlesLinked(k: Kernel)
    ensures forall x: Inst, d: Dict :: LinkInv(k, x) ==> LinkInv(k, x.(data := d))
    ensures forall x: Inst, r: nat, m: nat :: LinkInv(k, x) ==> LinkInv(k, x.(readings := r, minted := m))
  {
    forall x: Inst, d: Dict, r: nat, m: nat | LinkInv(k, x)
      ensures LinkInv(k, x.(data := d)) && LinkInv(k, x.(readings := r, minted := m))
    {
      QuietLinks(k, x, x.(data := d));
      QuietLinks(k, x, x.(readings := r, minted := m));
    }
  }

  /** In every life each governed dispatch, in order, follows at once the grant of the
      intent under which the handler was called, which is the intent requested last,
      and carries the digest of that intent; that digest seals the approved input. */
  lemma DispatchesLinked(k: Kernel, def: Definition, tenant: Tenant, data: Dict, readings: nat, minted: nat, actions: seq<Action>)
    requires k.maxSteps >= 1
    ensures var s := Lived(k, def, tenant, data, readings, minted, actions);
      && Links(s.history) <= Approvals(s.calls)
      && (s.status != Failed ==> Links(s.history) == Approvals(s.calls))
      && forall i | 0 <= i < |s.calls| :: UnderIntent(k, s, s.calls[i])
  {
    var s0 := Start(def, tenant, data, readings, minted);
    StartCore(k, def, tenant, data, readings, minted);
    LinksEmit([], Started(def.workflowId, def.revision, def.initialState));
    var inv := (x: Inst) => LinkInv(k, x);
    TurnsLinked(k);
    IdlesLinked(k);
    LiveKeeps(k, s0, actions, inv);
    assert inv(Live(k, s0, actions));
  }
}
