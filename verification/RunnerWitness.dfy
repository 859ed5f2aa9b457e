/** A run in which a rejecting decision leaves `run` by an exception: one governed
    transition, whose input is bound to data that the host removes while the
    instance waits. */
module RunnerWitness {
  import opened Text
  import opened Json
  import opened IntentBinding
  import opened Workflows
  import opened RunnerSpec
  import opened RunnerInvariant
  import opened RunnerBudget

  function Send(): Transition {
    Transition("draft", "sent", Some(ActionCall("mail.send", [], [("to", "to")])))
  }

  function Letter(): Definition {
    Definition("letter", 1, "draft", [StateSpec("draft", false), StateSpec("sent", true)], [Send()])
  }

  function Mailer(): Kernel {
    Kernel(c => if c == "mail.send" then Some(CapabilitySpec("mail.send", ExternalMutation)) else None,
           map[ExternalMutation := true], map[], 10, 900, text => "", reading => 0, minted => "intent")
  }

  function Addressed(): Dict {
    [Member("to", Str("ann"))]
  }

  function Waiting(): Inst {
    Run(Mailer(), Start(Letter(), Tenant("demo", None, None), Addressed(), 0, 0), None).inst
  }

  function Refuse(): Approver {
    (intent: Intent) => Decision(intent.intentId, false, "eva")
  }

  lemma SendComesFirst()
    ensures First(Letter(), "draft") == Some(Send())
  {
    assert TransitionsFrom(Letter(), "draft") == [Send()] + From([Send()][1..], "draft");
  }

  lemma PathIsOneStep()
    ensures Split("to", '.') == ["to"]
  {
    var t, o, none := Split("to", '.'), Split("o", '.'), Split("", '.');
    assert "to"[1..] == "o" && "o"[1..] == "";
    assert none == [""] && none[1..] == [] && ['o'] + none[0] == "o";
    assert o == ["o"] && o[1..] == [] && ['t'] + o[0] == "to";
    assert t == ["to"];
  }

  lemma InputOf(data: Dict)
    ensures ResolvedInput(Send().action.value, data) ==
      if Has(data, "to") then Resolved([Member("to", Get(data, "to"))]) else Missing("to", "to")
  {
    PathIsOneStep();
    var bindings := Send().action.value.inputFrom;
    assert bindings == [("to", "to")] && bindings[1..] == [];
    assert ["to"][1..] == [];
    if Has(data, "to") {
      var value := Get(data, "to");
      assert Walk(Obj(data), ["to"]) == Walk(value, []) == Some(value);
      assert Put([], "to", value) == [Member("to", value)];
    } else {
      assert Walk(Obj(data), ["to"]) == None;
    }
  }

  lemma WaitingIsPaused()
    ensures CoreInv(Mailer(), Waiting()) && AtRest(Waiting())
    ensures Waiting().status == Paused && Waiting().pendingTransition == Some(Send())
  {
    var k, s := Mailer(), Start(Letter(), Tenant("demo", None, None), Addressed(), 0, 0);
    StartCore(k, Letter(), s.tenant, Addressed(), 0, 0);
    SendComesFirst();
    InputOf(Addressed());
    assert Addressed()[0].key == "to";
    var r := Advance(k, s, Send());
    assert r == Seal(k, s, Send()) && r.Done? && r.inst.status == Paused;
    StepCharges(k, s, Send(), false);
    var paused := r.inst.(steps := 1);
    assert Step(k, s, None, false) == Go(paused, false);
    assert Step(k, paused, None, false) == Stop(paused, None);
    assert Loop(k, paused, None, false) == Answered(paused, None);
    assert Waiting() == paused;
    RunKeeps(k, s, None, (x: Inst) => true);
  }

  /** The refusal raises, and the instance goes on waiting, unrefused. */
  lemma RefusalEscapes()
    ensures var r := Run(Mailer(), Waiting().(data := []), Some(Refuse()));
      && r.escape == Some(VanishedBinding)
      && r.inst.status == Paused && r.inst.history == Waiting().history
  {
    WaitingIsPaused();
    var k, s := Mailer(), Waiting().(data := []);
    IdleKeepsCore(k, Waiting(), [], 0, 0);
    InputOf([]);
    assert !Has([], "to");
    ResolveUnfold(k, s, Refuse());
    assert Judge(k, s, s.pendingIntent.value, Send(), Refuse()(s.pendingIntent.value)) == NothingToApprove;
    assert Step(k, s, Some(Refuse()), false) == Stop(s.(consulted := s.consulted + 1, readings := s.readings + 1), Some(VanishedBinding));
  }
}
