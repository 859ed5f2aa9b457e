/** The process harness: a child's output lines become a stream of events under a
    budget that the kernel enforces. */
module Harness {
  import opened Text
  import opened Json

  datatype Kind =
    | Spawned | Message | ToolCall | ToolResult | Usage | HitlRequired | Completed | Failed | Cancelled

  datatype Data = Argv | Raw(line: string) | Fields(members: Dict) | BudgetExceeded | ReturnCode(code: int) | NoData

  datatype Event = Event(kind: Kind, data: Data)

  function KindText(k: Kind): string {
    match k
    case Spawned => "spawned"
    case Message => "message"
    case ToolCall => "tool_call"
    case ToolResult => "tool_result"
    case Usage => "usage"
    case HitlRequired => "hitl_required"
    case Completed => "completed"
    case Failed => "failed"
    case Cancelled => "cancelled"
  }

  /** The kind a child claims for its line; unknown kinds are messages. */
  function KindOf(text: string): Kind {
    if text == "spawned" then Spawned
    else if text == "tool_call" then ToolCall
    else if text == "tool_result" then ToolResult
    else if text == "usage" then Usage
    else if text == "hitl_required" then HitlRequired
    else if text == "completed" then Completed
    else if text == "failed" then Failed
    else if text == "cancelled" then Cancelled
    else Message
  }

  datatype Budget = Budget(maxTurns: Option<nat>, deadline: Option<int>)

  /** A parsed value: its objects have distinct keys. */
  type Parsable = j: Json | WellFormed(j) witness Null

  /** What `json.loads` makes of a line: no JSON, a number too long to convert, or a value. */
  datatype Parsed = NotJson | Unconvertible | Value(json: Parsable)

  /** One turn of the read loop: a line, with the cancel flag as the loop finds it and
      the time gone by when the budget is checked; or a read that fails because the
      pipe was closed. */
  datatype Read = Line(raw: string, parsed: Parsed, cancelled: bool, elapsed: int) | ReadError

  /** Everything the outside world does to one run. */
  datatype Script = Script(output: seq<Read>, cancelledAtEnd: bool, returnCode: int)

  function WithoutKey(ms: Dict, key: string): (r: Dict)
    ensures forall i | 0 <= i < |r| :: Has(ms, r[i].key)
  {
    if ms == [] then []
    else
      assert WellFormedMembers(ms[1..]);
      var rest := WithoutKey(ms[1..], key);
      if ms[0].key == key then rest
      else
        WithoutHead(ms, rest);
        [ms[0]] + rest
  }

  lemma WithoutHead(ms: Dict, rest: Dict)
    requires ms != [] && forall i | 0 <= i < |rest| :: Has(ms[1..], rest[i].key)
    ensures WellFormedMembers([ms[0]] + rest)
    ensures forall i | 0 <= i < |rest| :: Has(ms, rest[i].key)
  {
    forall i | 0 <= i < |rest|
      ensures rest[i].key != ms[0].key
    {
      var j := IndexOf(ms[1..], rest[i].key);
      assert ms[j + 1].key == rest[i].key;
    }
  }

  /** `None` is the `ValueError` that the loop takes for a closed pipe. */
  function ParseLine(raw: string, parsed: Parsed): Option<Event> {
    match parsed
    case NotJson => Some(Event(Message, Raw(raw)))
    case Unconvertible => None
    case Value(json) =>
      if !json.Obj? then Some(Event(Message, Raw(raw)))
      else
        var claimed := Lookup(json.members, "type");
        var kind := if claimed.Some? && claimed.value.Str? then KindOf(claimed.value.s) else Message;
        Some(Event(kind, Fields(WithoutKey(json.members, "type"))))
  }

  predicate IsTurn(e: Event) {
    e.kind == Message || e.kind == ToolCall
  }

  predicate Exceeded(budget: Option<Budget>, turns: nat, elapsed: int) {
    && budget.Some?
    && ((budget.value.maxTurns.Some? && turns >= budget.value.maxTurns.value)
        || (budget.value.deadline.Some? && elapsed > budget.value.deadline.value))
  }

  // ---------------------------------------------------------------- the stream

  datatype Ended = ByCancel | ByBudget | Drained

  datatype Run = Run(events: seq<Event>, ended: Ended)

  function Turns(turns: nat, e: Event): nat {
    if IsTurn(e) then turns + 1 else turns
  }

  /** The events of the read loop and why it ended. */
  function Loop(budget: Option<Budget>, turns: nat, lines: seq<Read>): Run
    decreases |lines|
  {
    if lines == [] || lines[0].ReadError? then Run([], Drained)
    else if lines[0].cancelled then Run([], ByCancel)
    else
      match ParseLine(lines[0].raw, lines[0].parsed)
      case None => Run([], Drained)
      case Some(e) =>
        if Exceeded(budget, Turns(turns, e), lines[0].elapsed) then Run([e], ByBudget)
        else
          var rest := Loop(budget, Turns(turns, e), lines[1..]);
          Run([e] + rest.events, rest.ended)
  }

  function Closing(ended: Ended, cancelled: bool, returnCode: int): Event {
    if ended == ByBudget then Event(Failed, BudgetExceeded)
    else if ended == ByCancel || cancelled then Event(Cancelled, NoData)
    else Event(if returnCode == 0 then Completed else Failed, ReturnCode(returnCode))
  }

  function Stream(budget: Option<Budget>, script: Script): seq<Event> {
    var run := Loop(budget, 0, script.output);
    [Event(Spawned, Argv)] + run.events + [Closing(run.ended, script.cancelledAtEnd, script.returnCode)]
  }

  function CountTurns(es: seq<Event>): nat {
    if es == [] then 0 else (if IsTurn(es[0]) then 1 else 0) + CountTurns(es[1..])
  }

  lemma {:induction false} CountTurnsAppend(es: seq<Event>, fs: seq<Event>)
    ensures CountTurns(es + fs) == CountTurns(es) + CountTurns(fs)
  {
    if es == [] {
      assert es + fs == fs;
    } else {
      CountTurnsAppend(es[1..], fs);
      assert (es + fs)[1..] == es[1..] + fs;
    }
  }

  /** The turns never pass the limit, and the turn that reaches it is the last event
      of the loop. */
  lemma {:induction false} LoopTurns(budget: Budget, limit: nat, turns: nat, lines: seq<Read>)
    requires budget.maxTurns == Some(limit) && turns < limit
    ensures var run := Loop(Some(budget), turns, lines); var total := turns + CountTurns(run.events);
      && total <= limit
      && (total == limit ==> run.ended == ByBudget && run.events != [] && IsTurn(run.events[|run.events| - 1]))
    decreases |lines|
  {
    if lines != [] && lines[0].Line? && !lines[0].cancelled {
      var e := ParseLine(lines[0].raw, lines[0].parsed);
      if e.Some? && !Exceeded(Some(budget), Turns(turns, e.value), lines[0].elapsed) {
        LoopTurns(budget, limit, Turns(turns, e.value), lines[1..]);
        var rest := Loop(Some(budget), Turns(turns, e.value), lines[1..]);
        assert ([e.value] + rest.events)[1..] == rest.events;
      }
    }
  }

  /** A turn budget holds: never more turns than allowed, and the turn that reaches
      the limit is followed at once by the budget failure, which ends the stream. */
  lemma TurnBudget(budget: Budget, limit: nat, script: Script)
    requires budget.maxTurns == Some(limit) && limit >= 1
    ensures var es := Stream(Some(budget), script);
      && CountTurns(es) <= limit
      && (CountTurns(es) == limit ==> |es| >= 3 && es[|es| - 1] == Event(Failed, BudgetExceeded) && IsTurn(es[|es| - 2]))
  {
    var run := Loop(Some(budget), 0, script.output);
    var closing := Closing(run.ended, script.cancelledAtEnd, script.returnCode);
    LoopTurns(budget, limit, 0, script.output);
    CountTurnsAppend([Event(Spawned, Argv)] + run.events, [closing]);
    CountTurnsAppend([Event(Spawned, Argv)], run.events);
  }

  /** Every stream opens with the spawn and closes with a final kind; it completes
      exactly when nothing cut it short and the child returned zero. */
  lemma StreamEnds(budget: Option<Budget>, script: Script)
    ensures var es, run := Stream(budget, script), Loop(budget, 0, script.output); var last := es[|es| - 1].kind;
      && |es| == |run.events| + 2
      && es[0].kind == Spawned
      && last in {Completed, Failed, Cancelled}
      && (last == Completed <==> run.ended == Drained && !script.cancelledAtEnd && script.returnCode == 0)
  {
  }

  predicate Readable(r: Read) {
    r.Line? && !r.parsed.Unconvertible?
  }

  /** The events between spawn and end are the first lines, one event a line, in
      order. */
  lemma {:induction false} EventsAreLines(budget: Option<Budget>, turns: nat, lines: seq<Read>)
    ensures var es := Loop(budget, turns, lines).events;
      |es| <= |lines| && forall i | 0 <= i < |es| :: lines[i].Line? && Some(es[i]) == ParseLine(lines[i].raw, lines[i].parsed)
    decreases |lines|
  {
    if lines != [] && lines[0].Line? && !lines[0].cancelled {
      var e := ParseLine(lines[0].raw, lines[0].parsed);
      if e.Some? && !Exceeded(budget, Turns(turns, e.value), lines[0].elapsed) {
        EventsAreLines(budget, Turns(turns, e.value), lines[1..]);
      }
    }
  }

  lemma {:induction false} DrainedAll(budget: Option<Budget>, turns: nat, lines: seq<Read>)
    requires Loop(budget, turns, lines).ended == Drained
    ensures |Loop(budget, turns, lines).events| == |lines| <==> forall i | 0 <= i < |lines| :: Readable(lines[i])
    decreases |lines|
  {
    if lines != [] && lines[0].Line? {
      var e := ParseLine(lines[0].raw, lines[0].parsed);
      if e.Some? {
        DrainedAll(budget, Turns(turns, e.value), lines[1..]);
        assert lines == [lines[0]] + lines[1..];
      }
    }
  }

  /** A completed stream has delivered every line exactly when every line was
      readable: the handler for a closed pipe also takes a line with an overlong
      number for the end, drops what follows, and still reports completion. */
  lemma CompletedDeliversAll(budget: Option<Budget>, script: Script)
    requires var es := Stream(budget, script); es[|es| - 1].kind == Completed
    ensures |Stream(budget, script)| == |script.output| + 2 <==> forall i | 0 <= i < |script.output| :: Readable(script.output[i])
  {
    StreamEnds(budget, script);
    DrainedAll(budget, 0, script.output);
  }

  /** Two lines: a number too long to convert, and a message. The stream completes
      and holds neither. */
  lemma LongNumberHidesTheRest(number: string, text: string)
    ensures Stream(None, Script([Line(number, Unconvertible, false, 0), Line(text, NotJson, false, 0)], false, 0)) ==
      [Event(Spawned, Argv), Event(Completed, ReturnCode(0))]
  {
    assert [Event(Spawned, Argv)] + [] == [Event(Spawned, Argv)];
  }

  // -------------------------------------------------------------- the harness

  class ProcessHarness {
    var alive: bool
    var cancelled: bool

    constructor ()
      ensures !alive && !cancelled
    {
      alive, cancelled := false, false;
    }

    /** Flag the run and reap the process. */
    method Cancel()
      modifies this
      ensures cancelled && !alive
    {
      cancelled := true;
      alive := false;
    }

    /** The generator, drained: each `yield` is one more event. */
    method Start(budget: Option<Budget>, script: Script) returns (events: seq<Event>)
      modifies this
      ensures events == Stream(budget, script)
      ensures !alive
      ensures var ended := Loop(budget, 0, script.output).ended;
        cancelled <==> ended == ByBudget || ended == ByCancel || script.cancelledAtEnd
    {
      cancelled := false;
      alive := true;
      events := [Event(Spawned, Argv)];
      var sent, ended := Pump(budget, script.output);
      events := events + sent;
      if ended == ByBudget {
        events := events + [Event(Failed, BudgetExceeded)];
        return;
      }
      alive := false;
      if cancelled || script.cancelledAtEnd {
        cancelled := true;
        events := events + [Event(Cancelled, NoData)];
        return;
      }
      events := events + [Event(if script.returnCode == 0 then Completed else Failed, ReturnCode(script.returnCode))];
    }

    /** The loop over the child's lines. */
    method Pump(budget: Option<Budget>, lines: seq<Read>) returns (events: seq<Event>, ended: Ended)
      requires alive && !cancelled
      modifies this
      ensures Run(events, ended) == Loop(budget, 0, lines)
      ensures alive <==> ended != ByBudget
      ensures cancelled <==> ended != Drained
    {
      var turns := 0;
      var n := 0;
      events := [];
      while n < |lines|
        invariant 0 <= n <= |lines| && alive && !cancelled
        invariant Loop(budget, 0, lines) == Prepend(events, Loop(budget, turns, lines[n..]))
      {
        var read := lines[n];
        assert lines[n..][0] == read && lines[n..][1..] == lines[n + 1..];
        if read.ReadError? {
          return events, Drained;
        }
        if read.cancelled {
          cancelled := true;
          return events, ByCancel;
        }
        var parsed := ParseLine(read.raw, read.parsed);
        if parsed.None? {
          return events, Drained;
        }
        var event := parsed.value;
        PrependNext(events, event, Loop(budget, Turns(turns, event), lines[n + 1..]));
        if IsTurn(event) {
          turns := turns + 1;
        }
        events := events + [event];
        if Exceeded(budget, turns, read.elapsed) {
          Cancel();
          return events, ByBudget;
        }
        n := n + 1;
      }
      return events, Drained;
    }
  }

  function Prepend(sent: seq<Event>, rest: Run): Run {
    Run(sent + rest.events, rest.ended)
  }

  lemma PrependNext(sent: seq<Event>, event: Event, rest: Run)
    ensures Prepend(sent + [event], rest) == Prepend(sent, Run([event] + rest.events, rest.ended))
  {
    assert (sent + [event]) + rest.events == sent + ([event] + rest.events);
  }
}
