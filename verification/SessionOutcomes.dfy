/** The records of a session's run, spelled out: the first, one for each event, and
    the one that says how it ended. */
module SessionOutcomes {
  import opened Text
  import opened Json
  import opened IntentBinding
  import opened Ledger
  import opened Sessions
  import H = Harness
  import O = HarnessOutcomes
  import U = Usage

  /** The row records a state of the session. */
  predicate SaysState(row: Row, session: Session, eventType: string, state: string) {
    && row.tenantId == session.tenant.tenantId && row.eventType == eventType
    && Lookup(row.payload, "session_id") == Some(Str(session.id))
    && Lookup(row.payload, "state") == Some(Str(state))
  }

  /** What an event's data look like in its record. */
  predicate SaysData(data: Json, e: H.Event) {
    match e.data
    case Argv => data.Obj? && Has(data.members, "argv")
    case Raw(line) => data == Obj([Member("raw", Str(line))])
    case Fields(members) => data == Obj(members)
    case BudgetExceeded => data == Obj([Member("reason", Str("budget_exceeded"))])
    case ReturnCode(code) => data == Obj([Member("returncode", Int(code))])
    case NoData => data == Obj([])
  }

  /** The row records an event of the session. */
  predicate SaysEvent(row: Row, session: Session, e: H.Event) {
    && row.tenantId == session.tenant.tenantId && row.eventType == "harness." + H.KindText(e.kind)
    && Lookup(row.payload, "session_id") == Some(Str(session.id))
    && Lookup(row.payload, "adapter") == Some(Str(session.adapter))
    && var data := Lookup(row.payload, "data"); data.Some? && SaysData(data.value, e)
  }

  /** The type of the last record, and the word in it. */
  function Ending(completed: bool): (string, string) {
    if completed then ("session.state.completed", "completed") else ("session.state.failed", "failed")
  }

  lemma {:induction false} StateSaid(py: U.Python, row: Row, session: Session, state: SessionState)
    requires IsOf(py, row, session) && TellsState(row, session, state)
    ensures SaysState(row, session,
      match state case Running => "session.state.running" case Completed => "session.state.completed" case Failed => "session.state.failed",
      match state case Running => "running" case Completed => "completed" case Failed => "failed")
  {
    IndexIs(row.payload, "session_id", 0);
    IndexIs(row.payload, "state", 1);
    assert "session.state." + "running" == "session.state.running";
    assert "session.state." + "completed" == "session.state.completed";
    assert "session.state." + "failed" == "session.state.failed";
  }

  lemma {:induction false} EventSaid(py: U.Python, row: Row, session: Session, e: H.Event)
    requires IsOf(py, row, session) && TellsEvent(row, session, e)
    ensures SaysEvent(row, session, e)
  {
    IndexIs(row.payload, "session_id", 0);
    IndexIs(row.payload, "adapter", 1);
    IndexIs(row.payload, "data", 2);
  }

  lemma {:induction false} LastSays(
    py: U.Python, hash: Hash, rows: seq<Row>, session: Session, draw: Draw, stream: seq<H.Event>, completed: bool)
    requires Run(hash, rows, session, draw, stream).all
    requires completed <==> stream != [] && stream[|stream| - 1].kind == H.Kind.Completed
    ensures var after := Run(hash, rows, session, draw, stream).rows;
      after != [] && SaysState(after[|after| - 1], session, Ending(completed).0, Ending(completed).1)
  {
    var first, added := RunAddsTurns(py, hash, rows, session, draw, stream);
    var n := |stream|;
    ToldAt(py, added, session, draw, 1, stream, FinalState(stream), n);
    StateSaid(py, added[n], session, FinalState(stream));
    LastOf(rows, first, added);
  }

  lemma LastOf(rows: seq<Row>, first: Row, added: seq<Row>)
    requires added != []
    ensures var after := rows + ([first] + added); after != [] && after[|after| - 1] == added[|added| - 1]
  {
  }

  /** A recorded run leaves a record that the session is running, one for each event
      in order, and one that says completed exactly when the last event does. */
  lemma {:induction false} RunSays(py: U.Python, hash: Hash, rows: seq<Row>, session: Session, draw: Draw, stream: seq<H.Event>)
    requires Run(hash, rows, session, draw, stream).all
    ensures var after, n := Run(hash, rows, session, draw, stream).rows, |stream|;
      && |after| == |rows| + n + 2 && after[..|rows|] == rows
      && SaysState(after[|rows|], session, "session.state.running", "running")
      && (forall i | 0 <= i < n :: SaysEvent(after[|rows| + 1 + i], session, stream[i]))
      && var ending := Ending(n > 0 && stream[n - 1].kind == H.Kind.Completed);
         SaysState(after[|rows| + n + 1], session, ending.0, ending.1)
  {
    var first, added := RunAddsTurns(py, hash, rows, session, draw, stream);
    var after := Run(hash, rows, session, draw, stream).rows;
    assert after[|rows|] == first;
    StateSaid(py, first, session, Running);
    forall i | 0 <= i < |stream|
      ensures SaysEvent(after[|rows| + 1 + i], session, stream[i])
    {
      ToldAt(py, added, session, draw, 1, stream, FinalState(stream), i);
      EventSaid(py, added[i], session, stream[i]);
    }
    LastSays(py, hash, rows, session, draw, stream, stream != [] && stream[|stream| - 1].kind == H.Kind.Completed);
  }

  lemma {:induction false} ToldDraws(
    py: U.Python, first: Row, added: seq<Row>, session: Session, draw: Draw, stream: seq<H.Event>, final: SessionState, i: nat)
    requires Drawn(first, draw, 0) && Tells(py, added, session, draw, 1, stream, final) && i <= |stream| + 1
    ensures |added| == |stream| + 1 && Drawn(([first] + added)[i], draw, i)
  {
    if i > 0 {
      ToldAt(py, added, session, draw, 1, stream, final, i - 1);
    }
  }

  lemma AfterAll(rows: seq<Row>, added: seq<Row>, i: nat)
    requires i < |added|
    ensures (rows + added)[|rows| + i] == added[i]
  {
  }

  /** The records take the event ids and the times that are drawn, in order. */
  lemma {:induction false} RunDraws(
    py: U.Python, hash: Hash, rows: seq<Row>, session: Session, draw: Draw, stream: seq<H.Event>, i: nat) returns (row: Row)
    requires Run(hash, rows, session, draw, stream).all && i < |stream| + 2
    ensures var after := Run(hash, rows, session, draw, stream).rows; |rows| + i < |after| && after[|rows| + i] == row
    ensures row.eventId == draw.eventId(i) && row.occurredAt == draw.stamp(i)
  {
    var first, added := RunAddsTurns(py, hash, rows, session, draw, stream);
    ToldDraws(py, first, added, session, draw, stream, FinalState(stream), i);
    AfterAll(rows, [first] + added, i);
    row := ([first] + added)[i];
  }

  /** No line spent the budget, and nothing was cancelled. */
  predicate Undisturbed(script: H.Script, n: nat) {
    && !(n < |script.output| && script.output[n].Line? && (script.output[n].cancelled || O.Delivers(script.output[n])))
    && !script.cancelledAtEnd
  }

  lemma {:induction false} StreamCompletes(budget: Option<H.Budget>, script: H.Script) returns (n: nat)
    ensures O.Runs(budget, 0, script.output, n)
    ensures var es := H.Stream(budget, script);
      es[|es| - 1].kind == H.Kind.Completed <==> Undisturbed(script, n) && script.returnCode == 0
  {
    n := O.StreamIs(budget, script);
  }

  /** How a session ends: completed when the harness stayed in scope, no line spent the
      budget, nothing was cancelled and the child returned zero; failed otherwise. A
      harness that leaves the tenant's scope records no event. */
  lemma {:induction false} SessionEnds(py: U.Python, hash: Hash, rows: seq<Row>, session: Session, draw: Draw,
                    inScope: bool, budget: Option<H.Budget>, script: H.Script, stream: seq<H.Event>)
      returns (n: nat, completed: bool)
    requires stream == if inScope then H.Stream(budget, script) else []
    requires Run(hash, rows, session, draw, stream).all
    ensures O.Runs(budget, 0, script.output, n)
    ensures completed <==> inScope && Undisturbed(script, n) && script.returnCode == 0
    ensures var after := Run(hash, rows, session, draw, stream).rows;
      after != [] && SaysState(after[|after| - 1], session, Ending(completed).0, Ending(completed).1)
  {
    n := StreamCompletes(budget, script);
    completed := inScope && Undisturbed(script, n) && script.returnCode == 0;
    LastSays(py, hash, rows, session, draw, stream, completed);
  }
}
