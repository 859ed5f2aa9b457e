/** The stream of a child, from its lines: what each line becomes, which line is the
    last, and how the stream closes. */
module HarnessOutcomes {
  import opened Text
  import opened Json
  import opened Harness

  // -------------------------------------------------------------------- a line

  /** What kinds are called, by the child and in the ledger. */
  lemma {:induction false} KindsSpelled(text: string)
    ensures KindText(Spawned) == "spawned" && KindText(Message) == "message" && KindText(ToolCall) == "tool_call"
    ensures KindText(ToolResult) == "tool_result" && KindText(Usage) == "usage" && KindText(HitlRequired) == "hitl_required"
    ensures KindText(Completed) == "completed" && KindText(Failed) == "failed" && KindText(Cancelled) == "cancelled"
    ensures KindText(KindOf(text)) == text || KindOf(text) == Message
    ensures forall k: Kind :: KindOf(KindText(k)) == k
  {
  }

  lemma {:induction false} WithoutLooksUp(ms: Dict, key: string, other: string)
    ensures Lookup(WithoutKey(ms, key), other) == if other == key then None else Lookup(ms, other)
    decreases |ms|
  {
    if ms != [] {
      assert WellFormedMembers(ms[1..]);
      WithoutLooksUp(ms[1..], key, other);
      LookupCons(ms, other);
      NotAgain(ms);
      if ms[0].key != key {
        var rest := WithoutKey(ms[1..], key);
        assert ([ms[0]] + rest)[1..] == rest;
        LookupCons([ms[0]] + rest, other);
      }
    }
  }

  /** An object is an event of the kind it claims, and holds its other members; any
      other line is a message that holds the line. */
  lemma {:induction false} LineIs(raw: string, parsed: Parsed, key: string)
    ensures parsed == NotJson ==> ParseLine(raw, parsed) == Some(Event(Message, Raw(raw)))
    ensures parsed == Unconvertible ==> ParseLine(raw, parsed) == None
    ensures parsed.Value? && !parsed.json.Obj? ==> ParseLine(raw, parsed) == Some(Event(Message, Raw(raw)))
    ensures parsed.Value? && parsed.json.Obj? ==>
      var ms, e := parsed.json.members, ParseLine(raw, parsed);
      && e.Some? && e.value.data.Fields?
      && Lookup(e.value.data.members, key) == (if key == "type" then None else Lookup(ms, key))
      && (forall k: Kind :: Lookup(ms, "type") == Some(Str(KindText(k))) ==> e.value.kind == k)
      && ((forall k: Kind :: Lookup(ms, "type") != Some(Str(KindText(k)))) ==> e.value.kind == Message)
  {
    if parsed.Value? && parsed.json.Obj? {
      WithoutLooksUp(parsed.json.members, "type", key);
      var claimed := Lookup(parsed.json.members, "type");
      KindsSpelled(if claimed.Some? && claimed.value.Str? then claimed.value.s else "");
    }
  }

  // ------------------------------------------------------------------ the loop

  /** The loop gets an event out of the line. */
  predicate Delivers(line: Read) {
    line.Line? && !line.cancelled && line.parsed != Unconvertible
  }

  predicate Turn(line: Read) {
    Delivers(line) &&
    var e := ParseLine(line.raw, line.parsed);
    e.Some? && (e.value.kind == Message || e.value.kind == ToolCall)
  }

  /** How many of the first `n` lines are turns. */
  function Tally(lines: seq<Read>, n: nat): nat
    requires n <= |lines|
  {
    if n == 0 then 0 else Tally(lines, n - 1) + if Turn(lines[n - 1]) then 1 else 0
  }

  lemma {:induction false} TallyFirst(lines: seq<Read>, n: nat)
    requires n < |lines|
    ensures Tally(lines, n + 1) == (if Turn(lines[0]) then 1 else 0) + Tally(lines[1..], n)
  {
    if n > 0 {
      TallyFirst(lines, n - 1);
    }
  }

  /** With the line at `n` the turns reach the limit, or the time is over. */
  predicate Spent(budget: Option<Budget>, turns: nat, lines: seq<Read>, n: nat)
    requires n < |lines| && lines[n].Line?
  {
    && budget.Some?
    && ((budget.value.maxTurns.Some? && turns + Tally(lines, n + 1) >= budget.value.maxTurns.value)
        || (budget.value.deadline.Some? && lines[n].elapsed > budget.value.deadline.value))
  }

  lemma {:induction false} SpentShift(budget: Option<Budget>, turns: nat, lines: seq<Read>, n: nat)
    requires n + 1 < |lines| && lines[n + 1].Line?
    ensures Spent(budget, turns, lines, n + 1) <==> Spent(budget, turns + (if Turn(lines[0]) then 1 else 0), lines[1..], n)
  {
    TallyFirst(lines, n + 1);
  }

  /** The first `n` lines deliver, and none of them spends the budget. */
  ghost predicate Runs(budget: Option<Budget>, turns: nat, lines: seq<Read>, n: nat) {
    n <= |lines| && forall i | 0 <= i < n :: Delivers(lines[i]) && !Spent(budget, turns, lines, i)
  }

  /** The loop ends at line `n`: the budget is spent with it, or it delivers nothing,
      or there is none. */
  ghost predicate EndsAt(budget: Option<Budget>, turns: nat, lines: seq<Read>, n: nat, run: Run)
    requires n <= |lines|
  {
    if n < |lines| && Delivers(lines[n]) then
      Spent(budget, turns, lines, n) && |run.events| == n + 1 && run.ended == ByBudget
    else
      |run.events| == n && run.ended == if n < |lines| && lines[n].Line? && lines[n].cancelled then ByCancel else Drained
  }

  lemma {:induction false} LoopIs(budget: Option<Budget>, turns: nat, lines: seq<Read>) returns (n: nat)
    ensures Runs(budget, turns, lines, n) && EndsAt(budget, turns, lines, n, Loop(budget, turns, lines))
    decreases |lines|
  {
    if lines == [] || !Delivers(lines[0]) {
      n := 0;
    } else {
      var e := ParseLine(lines[0].raw, lines[0].parsed).value;
      assert Tally(lines, 1) == Tally(lines, 0) + if Turn(lines[0]) then 1 else 0;
      assert Exceeded(budget, Turns(turns, e), lines[0].elapsed) <==> Spent(budget, turns, lines, 0);
      if Spent(budget, turns, lines, 0) {
        n := 0;
      } else {
        var rest := LoopIs(budget, Turns(turns, e), lines[1..]);
        n := rest + 1;
        RunsCons(budget, turns, lines, rest);
        if n < |lines| && Delivers(lines[n]) {
          SpentShift(budget, turns, lines, rest);
        }
      }
    }
  }

  lemma {:induction false} RunsCons(budget: Option<Budget>, turns: nat, lines: seq<Read>, rest: nat)
    requires lines != [] && Delivers(lines[0]) && !Spent(budget, turns, lines, 0)
    requires Runs(budget, turns + (if Turn(lines[0]) then 1 else 0), lines[1..], rest)
    ensures Runs(budget, turns, lines, rest + 1)
  {
    forall i | 0 <= i < rest + 1
      ensures Delivers(lines[i]) && !Spent(budget, turns, lines, i)
    {
      if i > 0 {
        assert Delivers(lines[1..][i - 1]);
        SpentShift(budget, turns, lines, i - 1);
      }
    }
  }

  /** The stream of a script. It opens with the spawn; then the lines come, one event
      each, up to the first that delivers nothing or spends the budget, which still
      delivers its own; and it closes with what ended it. */
  lemma {:induction false} StreamIs(budget: Option<Budget>, script: Script) returns (n: nat)
    ensures Runs(budget, 0, script.output, n)
    ensures var es, lines := Stream(budget, script), script.output;
      && es[0] == Event(Spawned, Argv)
      && (forall i | 0 <= i < |es| - 2 :: i < |lines| && lines[i].Line? && ParseLine(lines[i].raw, lines[i].parsed) == Some(es[i + 1]))
      && if n < |lines| && Delivers(lines[n]) then
           Spent(budget, 0, lines, n) && |es| == n + 3 && es[n + 2] == Event(Failed, BudgetExceeded)
         else
           && |es| == n + 2
           && es[n + 1] ==
                if (n < |lines| && lines[n].Line? && lines[n].cancelled) || script.cancelledAtEnd then Event(Cancelled, NoData)
                else Event(if script.returnCode == 0 then Completed else Failed, ReturnCode(script.returnCode))
  {
    n := LoopIs(budget, 0, script.output);
    EventsAreLines(budget, 0, script.output);
  }
}
