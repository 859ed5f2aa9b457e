/** A session's run on the ledger: its states and the events of its harness become
    rows, and the turns of the stream are the turns of the session's usage line. */
module Sessions {
  import opened Text
  import opened Json
  import opened IntentBinding
  import opened Ledger
  import H = Harness
  import U = Usage

  datatype Session = Session(id: string, tenant: Tenant, adapter: string)

  datatype SessionState = Running | Completed | Failed

  function StateText(state: SessionState): string {
    match state
    case Running => "running"
    case Completed => "completed"
    case Failed => "failed"
  }

  /** What each record of a run draws: an event id and a time. */
  datatype Draw = Draw(eventId: nat -> EventId, stamp: nat -> int)

  function DataOf(data: H.Data): Dict {
    match data
    case Argv => [Member("argv", Arr([]))]
    case Raw(line) => [Member("raw", Str(line))]
    case Fields(members) => members
    case BudgetExceeded => [Member("reason", Str("budget_exceeded"))]
    case ReturnCode(code) => [Member("returncode", Int(code))]
    case NoData => []
  }

  function StatePayload(session: Session, state: SessionState): (payload: Dict)
    ensures |payload| > 0 && payload[0] == Member("session_id", Str(session.id))
  {
    [Member("session_id", Str(session.id)), Member("state", Str(StateText(state)))]
  }

  function EventPayload(session: Session, e: H.Event): (payload: Dict)
    ensures |payload| > 0 && payload[0] == Member("session_id", Str(session.id))
  {
    [Member("session_id", Str(session.id)), Member("adapter", Str(session.adapter)), Member("data", Obj(DataOf(e.data)))]
  }

  function Record(hash: Hash, session: Session, draw: Draw, n: nat, eventType: string, payload: Dict): Envelope {
    Envelope(draw.eventId(n), eventType, session.tenant, draw.stamp(n), payload, Some(DigestMapping(hash, payload)))
  }

  function StateRecord(hash: Hash, session: Session, draw: Draw, n: nat, state: SessionState): Envelope {
    Record(hash, session, draw, n, "session.state." + StateText(state), StatePayload(session, state))
  }

  function EventRecord(hash: Hash, session: Session, draw: Draw, n: nat, e: H.Event): Envelope {
    Record(hash, session, draw, n, "harness." + H.KindText(e.kind), EventPayload(session, e))
  }

  /** The table when a run is over, and whether the ledger took every record; the
      first one it refuses raises. */
  datatype Recording = Recording(rows: seq<Row>, all: bool)

  function PutLast(hash: Hash, rows: seq<Row>, record: Envelope): Recording {
    if Taken(rows, record.eventId) then Recording(rows, false) else Recording(Appended(hash, rows, record), true)
  }

  /** The events in order from record `n` on, then the final state. */
  function Recorded(
    hash: Hash, rows: seq<Row>, session: Session, draw: Draw, n: nat, events: seq<H.Event>, final: SessionState): Recording
    decreases |events|
  {
    if events == [] then PutLast(hash, rows, StateRecord(hash, session, draw, n, final))
    else
      var record := EventRecord(hash, session, draw, n, events[0]);
      if Taken(rows, record.eventId) then Recording(rows, false)
      else Recorded(hash, Appended(hash, rows, record), session, draw, n + 1, events[1..], final)
  }

  function FinalState(stream: seq<H.Event>): SessionState {
    if stream != [] && stream[|stream| - 1].kind == H.Completed then Completed else Failed
  }

  /** A whole run: the session is running, its stream, its final state. */
  function Run(hash: Hash, rows: seq<Row>, session: Session, draw: Draw, stream: seq<H.Event>): Recording {
    var record := StateRecord(hash, session, draw, 0, Running);
    if Taken(rows, record.eventId) then Recording(rows, false)
    else Recorded(hash, Appended(hash, rows, record), session, draw, 1, stream, FinalState(stream))
  }

  // ------------------------------------------------------------- what it adds

  lemma TypeIsTurn(kind: H.Kind)
    ensures var t := "harness." + H.KindText(kind);
      (t == U.MESSAGE || t == U.TOOL_CALL) <==> (kind == H.Message || kind == H.ToolCall)
  {
    var t := "harness." + H.KindText(kind);
    assert t[8..] == H.KindText(kind) && U.MESSAGE[8..] == "message" && U.TOOL_CALL[8..] == "tool_call";
    assert U.MESSAGE == "harness." + "message" && U.TOOL_CALL == "harness." + "tool_call";
  }

  lemma StateIsNoTurn(state: SessionState)
    ensures var t := "session.state." + StateText(state); t != U.MESSAGE && t != U.TOOL_CALL
  {
    assert ("session.state." + StateText(state))[0] == 's';
  }

  /** The row names the session and its tenant. */
  predicate IsOf(py: U.Python, row: Row, session: Session) {
    row.tenantId == session.tenant.tenantId && U.SessionId(py, row) == session.id
  }

  lemma PayloadNames(py: U.Python, row: Row, id: string)
    requires |row.payload| > 0 && row.payload[0] == Member("session_id", Str(id))
    ensures U.SessionId(py, row) == id
  {
    IndexIs(row.payload, "session_id", 0);
  }

  predicate TellsEvent(row: Row, session: Session, e: H.Event) {
    row.eventType == "harness." + H.KindText(e.kind) && row.payload == EventPayload(session, e)
  }

  /** The row has the event id and the time of the `n`th record. */
  predicate Drawn(row: Row, draw: Draw, n: nat) {
    row.eventId == draw.eventId(n) && row.occurredAt == draw.stamp(n)
  }

  predicate TellsState(row: Row, session: Session, state: SessionState) {
    row.eventType == "session.state." + StateText(state) && row.payload == StatePayload(session, state)
  }

  lemma EventRow(py: U.Python, hash: Hash, rows: seq<Row>, session: Session, draw: Draw, n: nat, e: H.Event)
    ensures var row := NewRow(hash, rows, EventRecord(hash, session, draw, n, e));
      IsOf(py, row, session) && TellsEvent(row, session, e) && Drawn(row, draw, n)
  {
    PayloadNames(py, NewRow(hash, rows, EventRecord(hash, session, draw, n, e)), session.id);
  }

  lemma StateRow(py: U.Python, hash: Hash, rows: seq<Row>, session: Session, draw: Draw, n: nat, state: SessionState)
    ensures var row := NewRow(hash, rows, StateRecord(hash, session, draw, n, state));
      IsOf(py, row, session) && TellsState(row, session, state) && Drawn(row, draw, n) && !U.IsTurn(row)
  {
    StateIsNoTurn(state);
    PayloadNames(py, NewRow(hash, rows, StateRecord(hash, session, draw, n, state)), session.id);
  }

  /** Each event has its row, in order, then the final state has one; all are the
      session's. */
  predicate Tells(py: U.Python, rows: seq<Row>, session: Session, draw: Draw, n: nat, events: seq<H.Event>, final: SessionState)
    decreases |events|
  {
    && |rows| == |events| + 1
    && IsOf(py, rows[0], session) && Drawn(rows[0], draw, n)
    && if events == [] then TellsState(rows[0], session, final)
       else TellsEvent(rows[0], session, events[0]) && Tells(py, rows[1..], session, draw, n + 1, events[1..], final)
  }

  lemma TellsCons(
    py: U.Python, row: Row, rows: seq<Row>, session: Session, draw: Draw, n: nat, e: H.Event, events: seq<H.Event>,
    final: SessionState)
    requires Tells(py, rows, session, draw, n + 1, events, final)
    requires IsOf(py, row, session) && TellsEvent(row, session, e) && Drawn(row, draw, n)
    ensures Tells(py, [row] + rows, session, draw, n, [e] + events, final)
  {
    assert ([row] + rows)[1..] == rows && ([e] + events)[1..] == events;
  }

  /** The rows are those of the session's tenant, and row by row those of the events. */
  lemma {:induction false} ToldAt(
    py: U.Python, rows: seq<Row>, session: Session, draw: Draw, n: nat, events: seq<H.Event>, final: SessionState, i: nat)
    requires Tells(py, rows, session, draw, n, events, final) && i <= |events|
    ensures IsOf(py, rows[i], session) && Drawn(rows[i], draw, n + i)
    ensures if i < |events| then TellsEvent(rows[i], session, events[i]) else TellsState(rows[i], session, final)
    decreases |events|
  {
    if i > 0 {
      ToldAt(py, rows[1..], session, draw, n + 1, events[1..], final, i - 1);
    }
  }

  /** One event more than `rest`. */
  lemma RecordedCons(
    hash: Hash, rows: seq<Row>, session: Session, draw: Draw, n: nat, e: H.Event, rest: seq<H.Event>, final: SessionState)
    ensures var record := EventRecord(hash, session, draw, n, e);
      Recorded(hash, rows, session, draw, n, [e] + rest, final) ==
        if Taken(rows, record.eventId) then Recording(rows, false)
        else Recorded(hash, Appended(hash, rows, record), session, draw, n + 1, rest, final)
  {
    assert ([e] + rest)[1..] == rest;
  }

  lemma {:induction false} RecordedTells(
    py: U.Python, hash: Hash, rows: seq<Row>, session: Session, draw: Draw, n: nat, events: seq<H.Event>, final: SessionState)
      returns (added: seq<Row>)
    requires Recorded(hash, rows, session, draw, n, events, final).all
    ensures Recorded(hash, rows, session, draw, n, events, final).rows == rows + added
    ensures Tells(py, added, session, draw, n, events, final)
    decreases |events|
  {
    if events == [] {
      StateRow(py, hash, rows, session, draw, n, final);
      added := [NewRow(hash, rows, StateRecord(hash, session, draw, n, final))];
    } else {
      var e, rest := events[0], events[1..];
      assert events == [e] + rest;
      var record := EventRecord(hash, session, draw, n, e);
      var row := NewRow(hash, rows, record);
      RecordedCons(hash, rows, session, draw, n, e, rest, final);
      var more := RecordedTells(py, hash, rows + [row], session, draw, n + 1, rest, final);
      added := [row] + more;
      ConsMoves(rows, row, more);
      EventRow(py, hash, rows, session, draw, n, e);
      TellsCons(py, row, more, session, draw, n, e, rest, final);
    }
  }

  /** Rows that tell a stretch of a stream hold as many turns as the stretch. */
  lemma {:induction false} TurnsTold(
    py: U.Python, rows: seq<Row>, session: Session, draw: Draw, n: nat, events: seq<H.Event>, final: SessionState)
    requires Tells(py, rows, session, draw, n, events, final)
    ensures U.TurnsOf(py, rows, session.id) == H.CountTurns(events)
    decreases |events|
  {
    if events == [] {
      StateIsNoTurn(final);
      assert rows[1..] == [];
    } else {
      TypeIsTurn(events[0].kind);
      TurnsTold(py, rows[1..], session, draw, n + 1, events[1..], final);
    }
  }

  /** What a run adds to the ledger: a row that says the session is running, one row
      for each event in order, one row for the final state, and as many turns as the
      stream has. */
  lemma RunAddsTurns(py: U.Python, hash: Hash, rows: seq<Row>, session: Session, draw: Draw, stream: seq<H.Event>)
      returns (first: Row, added: seq<Row>)
    requires Run(hash, rows, session, draw, stream).all
    ensures Run(hash, rows, session, draw, stream).rows == rows + ([first] + added)
    ensures IsOf(py, first, session) && TellsState(first, session, Running) && Drawn(first, draw, 0)
    ensures |added| == |stream| + 1 && Tells(py, added, session, draw, 1, stream, FinalState(stream))
    ensures U.TurnsOf(py, [first] + added, session.id) == H.CountTurns(stream)
  {
    first := NewRow(hash, rows, StateRecord(hash, session, draw, 0, Running));
    StateRow(py, hash, rows, session, draw, 0, Running);
    added := RecordedTells(py, hash, rows + [first], session, draw, 1, stream, FinalState(stream));
    ConsMoves(rows, first, added);
    TurnsTold(py, added, session, draw, 1, stream, FinalState(stream));
    assert ([first] + added)[1..] == added;
  }

  lemma Snoc(rows: seq<Row>, init: seq<Row>, last: Row)
    ensures rows + (init + [last]) == (rows + init) + [last]
  {
  }

  lemma {:induction false} SelectOwn(rows: seq<Row>, more: seq<Row>, tenantId: string)
    requires forall i | 0 <= i < |more| :: more[i].tenantId == tenantId
    ensures Select(rows + more, ByTenant(tenantId)) == Select(rows, ByTenant(tenantId)) + more
  {
    if more == [] {
      assert rows + more == rows;
      assert Select(rows, ByTenant(tenantId)) + [] == Select(rows, ByTenant(tenantId));
    } else {
      var init, last := more[..|more| - 1], more[|more| - 1];
      assert more == init + [last];
      SelectOwn(rows, init, tenantId);
      SelectAppend(rows + init, last, ByTenant(tenantId));
      Snoc(rows, init, last);
      Snoc(Select(rows, ByTenant(tenantId)), init, last);
    }
  }

  /** The usage line of the session counts what it counted before the run and the
      turns of the stream, as long as the report covers the tenant's records. */
  lemma StreamInReport(
    py: U.Python, hash: Hash, rows: seq<Row>, session: Session, draw: Draw, stream: seq<H.Event>, k: nat)
    requires Run(hash, rows, session, draw, stream).all
    requires var after, t := Run(hash, rows, session, draw, stream).rows, session.tenant.tenantId;
      && |Select(after, ByTenant(t))| <= U.WINDOW
      && U.Report(py, after, t).Some? && k < |U.Report(py, after, t).value| && U.Report(py, after, t).value[k].id == session.id
    ensures var after, t := Run(hash, rows, session, draw, stream).rows, session.tenant.tenantId;
      U.Report(py, after, t).value[k].turns ==
        U.TurnsOf(py, Select(rows, ByTenant(t)), session.id) + H.CountTurns(stream)
  {
    var after, t := Run(hash, rows, session, draw, stream).rows, session.tenant.tenantId;
    var first, told := RunAddsTurns(py, hash, rows, session, draw, stream);
    var added := [first] + told;
    forall i | 0 <= i < |added|
      ensures added[i].tenantId == t
    {
      if i > 0 {
        ToldAt(py, told, session, draw, 1, stream, FinalState(stream), i - 1);
      }
    }
    SelectOwn(rows, added, t);
    U.ReportCounts(py, after, t, k);
    U.TurnsAppend(py, Select(rows, ByTenant(t)), added, session.id, "");
  }

  // -------------------------------------------------------------------- object

  datatype Outcome = Events(events: seq<H.Event>) | ScopeError | LedgerError

  class SessionService {
    const ledger: EventLedger

    constructor (ledger: EventLedger)
      ensures this.ledger == ledger
    {
      this.ledger := ledger;
    }

    method Transition(session: Session, draw: Draw, n: nat, state: SessionState) returns (done: bool)
      modifies ledger
      ensures Recording(ledger.rows, done) == PutLast(ledger.hash, old(ledger.rows), StateRecord(ledger.hash, session, draw, n, state))
    {
      var record := ledger.Append(StateRecord(ledger.hash, session, draw, n, state));
      return record.Some?;
    }

    /** One record for each event; an append that fails ends the run. */
    method RecordEvents(session: Session, draw: Draw, events: seq<H.Event>, ghost final: SessionState) returns (all: bool)
      modifies ledger
      ensures Recorded(ledger.hash, old(ledger.rows), session, draw, 1, events, final) ==
        if all then PutLast(ledger.hash, ledger.rows, StateRecord(ledger.hash, session, draw, |events| + 1, final))
        else Recording(ledger.rows, false)
    {
      var n := 0;
      assert events[n..] == events;
      while n < |events|
        invariant 0 <= n <= |events|
        invariant Recorded(ledger.hash, old(ledger.rows), session, draw, 1, events, final) ==
          Recorded(ledger.hash, ledger.rows, session, draw, n + 1, events[n..], final)
      {
        assert events[n..][0] == events[n] && events[n..][1..] == events[n + 1..];
        var record := ledger.Append(EventRecord(ledger.hash, session, draw, n + 1, events[n]));
        if record.None? {
          return false;
        }
        n := n + 1;
      }
      return true;
    }

    /** The events, then the final state that the last of them names. */
    method RecordStream(session: Session, draw: Draw, events: seq<H.Event>) returns (all: bool)
      modifies ledger
      ensures Recording(ledger.rows, all) == Recorded(ledger.hash, old(ledger.rows), session, draw, 1, events, FinalState(events))
    {
      all := RecordEvents(session, draw, events, FinalState(events));
      if all {
        var terminal := if events != [] then events[|events| - 1].kind else H.Failed;
        all := Transition(session, draw, |events| + 1, if terminal == H.Completed then Completed else Failed);
      }
    }

    /** `run`: the session is running, then every event in order, then exactly one
        final state, completed exactly when the last event is. A harness that leaves
        the tenant's scope before it starts fails the session at once. */
    method RunSession(
        session: Session, draw: Draw, harness: H.ProcessHarness, inScope: bool, budget: Option<H.Budget>, script: H.Script)
      returns (outcome: Outcome)
      modifies ledger, harness
      ensures var stream := if inScope then H.Stream(budget, script) else [];
        var recording := Run(ledger.hash, old(ledger.rows), session, draw, stream);
        && ledger.rows == recording.rows
        && outcome == if !recording.all then LedgerError else if inScope then Events(stream) else ScopeError
    {
      var running := Transition(session, draw, 0, Running);
      if !running {
        return LedgerError;
      }
      var events: seq<H.Event> := [];
      if inScope {
        events := harness.Start(budget, script);
      }
      var recorded := RecordStream(session, draw, events);
      return if !recorded then LedgerError else if inScope then Events(events) else ScopeError;
    }
  }
}
