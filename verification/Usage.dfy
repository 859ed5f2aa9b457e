/** The usage report of a tenant: one line for each session, accumulated over the
    ledger from the newest record backwards. */
module Usage {
  import opened Text
  import opened Json
  import opened JsonText
  import opened Ledger

  const SESSION_CREATED := "session.created"
  const MESSAGE := "harness.message"
  const TOOL_CALL := "harness.tool_call"
  const USAGE := "harness.usage"
  const WINDOW: int := 1_000_000

  /** Python's `str` of a container and `int` of a text. */
  datatype Python = Python(repr: Json -> string, toInt: string -> Option<int>)

  function TextOf(py: Python, j: Option<Json>): string {
    match j
    case None => "None"
    case Some(Null) => "None"
    case Some(Bool(b)) => if b then "True" else "False"
    case Some(Int(n)) => IntText(n)
    case Some(Str(s)) => s
    case Some(other) => py.repr(other)
  }

  function SessionId(py: Python, row: Row): string {
    TextOf(py, Lookup(row.payload, "session_id"))
  }

  /** `int(value or 0)`; nothing when it raises. */
  function Tokens(py: Python, j: Option<Json>): Option<int> {
    match j
    case None => Some(0)
    case Some(Null) => Some(0)
    case Some(Bool(b)) => Some(if b then 1 else 0)
    case Some(Int(n)) => Some(n)
    case Some(Str(s)) => if s == "" then Some(0) else py.toInt(s)
    case Some(Arr(items)) => if items == [] then Some(0) else None
    case Some(Obj(ms)) => if ms == [] then Some(0) else None
  }

  datatype Session = Session(
    id: string, clientRef: Option<Json>, periodRef: Option<Json>, model: Option<Json>,
    turns: nat, inputTokens: int, outputTokens: int)

  function Opened(py: Python, row: Row): Session {
    Session(SessionId(py, row), Lookup(row.payload, "client_ref"), Lookup(row.payload, "period_ref"),
            Lookup(row.payload, "model_ref"), 0, 0, 0)
  }

  // -------------------------------------------------- what one record adds

  predicate IsTurn(row: Row) {
    row.eventType == MESSAGE || row.eventType == TOOL_CALL
  }

  /** The data of a usage record, when it is an object. */
  function UsageData(row: Row): Option<seq<Member>> {
    if row.eventType != USAGE then None
    else
      var data := Lookup(row.payload, "data");
      if data.Some? && data.value.Obj? then Some(data.value.members) else None
  }

  function Amount(py: Python, row: Row, field: string): Option<int> {
    var data := UsageData(row);
    if data.None? then Some(0) else Tokens(py, Lookup(data.value, field))
  }

  predicate Readable(py: Python, row: Row) {
    Amount(py, row, "input_tokens").Some? && Amount(py, row, "output_tokens").Some?
  }

  function AmountOr0(py: Python, row: Row, field: string): int {
    var amount := Amount(py, row, field);
    if amount.Some? then amount.value else 0
  }

  function Add(py: Python, s: Session, row: Row): Session {
    if SessionId(py, row) != s.id then s
    else
      s.(turns := s.turns + (if IsTurn(row) then 1 else 0),
         inputTokens := s.inputTokens + AmountOr0(py, row, "input_tokens"),
         outputTokens := s.outputTokens + AmountOr0(py, row, "output_tokens"))
  }

  function AddAll(py: Python, s: Session, rows: seq<Row>): (r: Session)
    ensures r.id == s.id
  {
    if rows == [] then s else Add(py, AddAll(py, s, rows[..|rows| - 1]), rows[|rows| - 1])
  }

  // ---------------------------------------------------- what it should add up to

  /** The turns of a session among the records. */
  function TurnsOf(py: Python, rows: seq<Row>, id: string): nat {
    if rows == [] then 0
    else TurnsOf(py, rows[1..], id) + if SessionId(py, rows[0]) == id && IsTurn(rows[0]) then 1 else 0
  }

  function TokensOf(py: Python, rows: seq<Row>, id: string, field: string): int {
    if rows == [] then 0
    else TokensOf(py, rows[1..], id, field) + if SessionId(py, rows[0]) == id then AmountOr0(py, rows[0], field) else 0
  }

  lemma {:induction false} TurnsAppend(py: Python, rows: seq<Row>, more: seq<Row>, id: string, field: string)
    ensures TurnsOf(py, rows + more, id) == TurnsOf(py, rows, id) + TurnsOf(py, more, id)
    ensures TokensOf(py, rows + more, id, field) == TokensOf(py, rows, id, field) + TokensOf(py, more, id, field)
  {
    if rows == [] {
      assert rows + more == more;
    } else {
      TurnsAppend(py, rows[1..], more, id, field);
      assert (rows + more)[1..] == rows[1..] + more;
    }
  }

  /** The accumulation is a sum. */
  lemma {:induction false} AddAllSums(py: Python, s: Session, rows: seq<Row>)
    ensures var r := AddAll(py, s, rows);
      && r.turns == s.turns + TurnsOf(py, rows, s.id)
      && r.inputTokens == s.inputTokens + TokensOf(py, rows, s.id, "input_tokens")
      && r.outputTokens == s.outputTokens + TokensOf(py, rows, s.id, "output_tokens")
      && (r.clientRef, r.periodRef, r.model) == (s.clientRef, s.periodRef, s.model)
  {
    if rows != [] {
      var init, last := rows[..|rows| - 1], rows[|rows| - 1];
      AddAllSums(py, s, init);
      TurnsAppend(py, init, [last], s.id, "input_tokens");
      TurnsAppend(py, init, [last], s.id, "output_tokens");
      assert [last][1..] == [];
      TakeLast(rows);
    }
  }

  /** Reading backwards makes no difference to a sum. */
  lemma {:induction false} SumsReversed(py: Python, rows: seq<Row>, id: string, field: string)
    ensures TurnsOf(py, Reversed(rows), id) == TurnsOf(py, rows, id)
    ensures TokensOf(py, Reversed(rows), id, field) == TokensOf(py, rows, id, field)
  {
    if rows != [] {
      var init, last := rows[..|rows| - 1], rows[|rows| - 1];
      SumsReversed(py, init, id, field);
      TurnsAppend(py, init, [last], id, field);
      TakeLast(rows);
      assert [last][1..] == [];
      assert Reversed(rows)[1..] == Reversed(init);
    }
  }

  // ------------------------------------------------------------- the sessions

  /** `d[sid] = entry`. */
  function Place(ss: seq<Session>, s: Session): seq<Session> {
    if ss == [] then [s] else if ss[0].id == s.id then [s] + ss[1..] else [ss[0]] + Place(ss[1..], s)
  }

  function Sessions(py: Python, created: seq<Row>): seq<Session> {
    if created == [] then [] else Place(Sessions(py, created[..|created| - 1]), Opened(py, created[|created| - 1]))
  }

  ghost predicate Distinct(ss: seq<Session>) {
    forall i, j | 0 <= i < j < |ss| :: ss[i].id != ss[j].id
  }

  predicate KnownId(ss: seq<Session>, id: string) {
    exists i | 0 <= i < |ss| :: ss[i].id == id
  }

  lemma {:induction false} PlaceIds(ss: seq<Session>, s: Session, id: string)
    ensures KnownId(Place(ss, s), id) <==> KnownId(ss, id) || s.id == id
  {
    if ss == [] {
      assert Place(ss, s)[0] == s;
    } else if ss[0].id == s.id {
      var placed := Place(ss, s);
      assert forall i | 0 <= i < |ss| :: placed[i].id == ss[i].id;
    } else {
      PlaceIds(ss[1..], s, id);
      KnownCons(ss, id);
      KnownCons(Place(ss, s), id);
      assert Place(ss, s)[1..] == Place(ss[1..], s);
    }
  }

  lemma KnownCons(ss: seq<Session>, id: string)
    requires ss != []
    ensures KnownId(ss, id) <==> ss[0].id == id || KnownId(ss[1..], id)
  {
    if KnownId(ss, id) {
      var i :| 0 <= i < |ss| && ss[i].id == id;
      assert i > 0 ==> ss[1..][i - 1].id == id;
    }
    if KnownId(ss[1..], id) {
      var i :| 0 <= i < |ss[1..]| && ss[1..][i].id == id;
      assert ss[i + 1].id == id;
    }
  }

  lemma {:induction false} PlaceDistinct(ss: seq<Session>, s: Session)
    requires Distinct(ss)
    ensures Distinct(Place(ss, s))
  {
    if ss != [] && ss[0].id != s.id {
      PlaceDistinct(ss[1..], s);
      PlaceIds(ss[1..], s, ss[0].id);
      assert !KnownId(ss[1..], ss[0].id);
      var placed := Place(ss[1..], s);
      assert forall i | 0 <= i < |placed| :: placed[i].id != ss[0].id;
    }
  }

  /** The report lists each session that was created, once. */
  lemma {:induction false} SessionsAre(py: Python, created: seq<Row>, id: string)
    ensures Distinct(Sessions(py, created))
    ensures KnownId(Sessions(py, created), id) <==> CreatedId(py, created, id)
  {
    if created != [] {
      var init, last := created[..|created| - 1], created[|created| - 1];
      SessionsAre(py, init, id);
      PlaceDistinct(Sessions(py, init), Opened(py, last));
      PlaceIds(Sessions(py, init), Opened(py, last), id);
      CreatedLast(py, created, id);
    }
  }

  /** Some record creates a session with this id. */
  predicate CreatedId(py: Python, created: seq<Row>, id: string) {
    exists i | 0 <= i < |created| :: SessionId(py, created[i]) == id
  }

  lemma CreatedLast(py: Python, created: seq<Row>, id: string)
    requires created != []
    ensures var n := |created| - 1;
      CreatedId(py, created, id) <==> CreatedId(py, created[..n], id) || SessionId(py, created[n]) == id
  {
    assert forall i | 0 <= i < |created| - 1 :: created[..|created| - 1][i] == created[i];
  }

  // ---------------------------------------------------------------- the report

  function AddEach(py: Python, ss: seq<Session>, rows: seq<Row>): (r: seq<Session>)
    ensures |r| == |ss| && forall i | 0 <= i < |ss| :: r[i] == AddAll(py, ss[i], rows)
  {
    seq(|ss|, i requires 0 <= i < |ss| => AddAll(py, ss[i], rows))
  }

  function Window(rows: seq<Row>, tenantId: string): seq<Row> {
    Newest(rows, tenantId, WINDOW)
  }

  /** No usage record of a known session has a count that `int` refuses. */
  predicate AllReadable(py: Python, ss: seq<Session>, rows: seq<Row>) {
    forall i | 0 <= i < |rows| && KnownId(ss, SessionId(py, rows[i])) :: Readable(py, rows[i])
  }

  function Report(py: Python, rows: seq<Row>, tenantId: string): Option<seq<Session>> {
    var ss := Sessions(py, Select(rows, ByType(tenantId, SESSION_CREATED)));
    if AllReadable(py, ss, Window(rows, tenantId)) then Some(AddEach(py, ss, Window(rows, tenantId))) else None
  }

  /** Each session's line counts exactly its own records: all of the tenant's when
      there are at most a million of them, the newest million otherwise. */
  lemma ReportCounts(py: Python, rows: seq<Row>, tenantId: string, k: nat)
    requires Report(py, rows, tenantId).Some? && k < |Report(py, rows, tenantId).value|
    ensures var s, counted := Report(py, rows, tenantId).value[k], Counted(rows, tenantId);
      && s.turns == TurnsOf(py, counted, s.id)
      && s.inputTokens == TokensOf(py, counted, s.id, "input_tokens")
      && s.outputTokens == TokensOf(py, counted, s.id, "output_tokens")
  {
    var created := Select(rows, ByType(tenantId, SESSION_CREATED));
    var s := Sessions(py, created)[k];
    SessionsStartAtZero(py, created, k);
    AddAllSums(py, s, Window(rows, tenantId));
    SumsReversed(py, Counted(rows, tenantId), s.id, "input_tokens");
    SumsReversed(py, Counted(rows, tenantId), s.id, "output_tokens");
  }

  /** The records that a report covers. */
  function Counted(rows: seq<Row>, tenantId: string): (counted: seq<Row>)
    ensures |Select(rows, ByTenant(tenantId))| <= WINDOW ==> counted == Select(rows, ByTenant(tenantId))
  {
    var all := Select(rows, ByTenant(tenantId));
    all[|all| - Limited(|all|, WINDOW)..]
  }

  lemma {:induction false} SessionsStartAtZero(py: Python, created: seq<Row>, k: nat)
    requires k < |Sessions(py, created)|
    ensures var s := Sessions(py, created)[k]; s.turns == 0 && s.inputTokens == 0 && s.outputTokens == 0
  {
    if created != [] {
      PlacedFrom(Sessions(py, created[..|created| - 1]), Opened(py, created[|created| - 1]), k);
      var before := Sessions(py, created[..|created| - 1]);
      if k < |before| {
        SessionsStartAtZero(py, created[..|created| - 1], k);
      }
    }
  }

  lemma {:induction false} PlacedFrom(ss: seq<Session>, s: Session, k: nat)
    requires k < |Place(ss, s)|
    ensures Place(ss, s)[k] == s || (k < |ss| && Place(ss, s)[k] == ss[k])
  {
    if ss != [] && ss[0].id != s.id && k > 0 {
      PlacedFrom(ss[1..], s, k - 1);
    }
  }

  // --------------------------------------------------------------- conservation

  function SumTurns(ss: seq<Session>): nat {
    if ss == [] then 0 else ss[0].turns + SumTurns(ss[1..])
  }

  function SumTokens(ss: seq<Session>): int {
    if ss == [] then 0 else ss[0].inputTokens + ss[0].outputTokens + SumTokens(ss[1..])
  }

  function KnownTurns(py: Python, ss: seq<Session>, rows: seq<Row>): nat {
    if rows == [] then 0
    else
      var last := rows[|rows| - 1];
      KnownTurns(py, ss, rows[..|rows| - 1]) + (if KnownId(ss, SessionId(py, last)) && IsTurn(last) then 1 else 0)
  }

  function KnownTokens(py: Python, ss: seq<Session>, rows: seq<Row>): int {
    if rows == [] then 0
    else
      var last := rows[|rows| - 1];
      KnownTokens(py, ss, rows[..|rows| - 1]) +
      (if KnownId(ss, SessionId(py, last)) then AmountOr0(py, last, "input_tokens") + AmountOr0(py, last, "output_tokens") else 0)
  }

  function AddRow(py: Python, ss: seq<Session>, row: Row): (r: seq<Session>)
    ensures |r| == |ss| && forall i | 0 <= i < |ss| :: r[i] == Add(py, ss[i], row)
  {
    seq(|ss|, i requires 0 <= i < |ss| => Add(py, ss[i], row))
  }

  /** A record is counted by one session if its session is known, and by none otherwise. */
  lemma {:induction false} OneCounts(py: Python, ss: seq<Session>, row: Row)
    requires Distinct(ss)
    ensures var r, known := AddRow(py, ss, row), KnownId(ss, SessionId(py, row));
      && SumTurns(r) == SumTurns(ss) + (if known && IsTurn(row) then 1 else 0)
      && SumTokens(r) == SumTokens(ss)
           + (if known then AmountOr0(py, row, "input_tokens") + AmountOr0(py, row, "output_tokens") else 0)
  {
    if ss != [] {
      OneCounts(py, ss[1..], row);
      KnownCons(ss, SessionId(py, row));
      assert AddRow(py, ss, row)[1..] == AddRow(py, ss[1..], row);
      if ss[0].id == SessionId(py, row) {
        assert !KnownId(ss[1..], SessionId(py, row));
      }
    }
  }

  /** Nothing is counted twice and nothing is lost: the totals over the lines are the
      totals over the records of known sessions. */
  lemma {:induction false} TotalsConserved(py: Python, ss: seq<Session>, rows: seq<Row>)
    requires Distinct(ss)
    ensures SumTurns(AddEach(py, ss, rows)) == SumTurns(ss) + KnownTurns(py, ss, rows)
    ensures SumTokens(AddEach(py, ss, rows)) == SumTokens(ss) + KnownTokens(py, ss, rows)
  {
    if rows == [] {
      assert AddEach(py, ss, rows) == ss;
    } else {
      var init, last := rows[..|rows| - 1], rows[|rows| - 1];
      var before := AddEach(py, ss, init);
      TotalsConserved(py, ss, init);
      OneCounts(py, before, last);
      assert AddEach(py, ss, rows) == AddRow(py, before, last);
      SameIds(ss, before, SessionId(py, last));
    }
  }

  lemma SameIds(ss: seq<Session>, ts: seq<Session>, id: string)
    requires |ss| == |ts| && forall i | 0 <= i < |ss| :: ss[i].id == ts[i].id
    ensures KnownId(ss, id) <==> KnownId(ts, id)
  {
  }

  lemma {:induction false} ZeroSums(ss: seq<Session>)
    requires forall i | 0 <= i < |ss| :: ss[i].turns == 0 && ss[i].inputTokens == 0 && ss[i].outputTokens == 0
    ensures SumTurns(ss) == 0 && SumTokens(ss) == 0
  {
    if ss != [] {
      ZeroSums(ss[1..]);
    }
  }

  /** The totals of a report. */
  lemma ReportTotals(py: Python, rows: seq<Row>, tenantId: string)
    requires Report(py, rows, tenantId).Some?
    ensures var r := Report(py, rows, tenantId).value;
      var ss := Sessions(py, Select(rows, ByType(tenantId, SESSION_CREATED)));
      && SumTurns(r) == KnownTurns(py, ss, Window(rows, tenantId))
      && SumTokens(r) == KnownTokens(py, ss, Window(rows, tenantId))
  {
    var created := Select(rows, ByType(tenantId, SESSION_CREATED));
    var ss := Sessions(py, created);
    forall k | 0 <= k < |ss|
      ensures ss[k].turns == 0 && ss[k].inputTokens == 0 && ss[k].outputTokens == 0
    {
      SessionsStartAtZero(py, created, k);
    }
    ZeroSums(ss);
    SessionsAre(py, created, "");
    TotalsConserved(py, ss, Window(rows, tenantId));
  }

  // -------------------------------------------------------------------- method

  /** Where the session stands in the dictionary, or its size. */
  function IndexOfId(ss: seq<Session>, id: string): (k: nat)
    ensures k <= |ss| && (k < |ss| ==> ss[k].id == id) && forall i | 0 <= i < k :: ss[i].id != id
  {
    if ss == [] || ss[0].id == id then 0 else 1 + IndexOfId(ss[1..], id)
  }

  /** `usage_summary`; nothing when a count makes it raise. */
  method UsageSummary(py: Python, ledger: EventLedger, tenantId: string) returns (r: Option<seq<Session>>)
    ensures r == Report(py, ledger.rows, tenantId)
  {
    var created := ledger.Find(ByType(tenantId, SESSION_CREATED));
    var sessions: seq<Session> := [];
    var n := 0;
    while n < |created|
      invariant 0 <= n <= |created|
      invariant sessions == Sessions(py, created[..n])
    {
      TakeNext(created, n);
      sessions := Place(sessions, Opened(py, created[n]));
      n := n + 1;
    }
    assert created[..n] == created;
    var window := ledger.Tail(tenantId, WINDOW);
    r := Accumulate(py, sessions, created, window);
  }

  method Accumulate(py: Python, sessions: seq<Session>, ghost created: seq<Row>, window: seq<Row>) returns (r: Option<seq<Session>>)
    requires sessions == Sessions(py, created)
    ensures r == if AllReadable(py, sessions, window) then Some(AddEach(py, sessions, window)) else None
  {
    var entries := sessions;
    var n := 0;
    assert AddEach(py, sessions, []) == sessions;
    while n < |window|
      invariant 0 <= n <= |window|
      invariant entries == AddEach(py, sessions, window[..n])
      invariant AllReadable(py, sessions, window[..n])
    {
      var next := AccumulateOne(py, sessions, created, entries, window[n]);
      NextRow(py, sessions, window, n);
      if next.None? {
        return None;
      }
      entries := next.value;
      n := n + 1;
    }
    assert window[..n] == window;
    return Some(entries);
  }

  /** One record: the entry of its session, if it is known, is updated in place. */
  method AccumulateOne(
      py: Python, ghost sessions: seq<Session>, ghost created: seq<Row>, entries: seq<Session>, row: Row)
    returns (r: Option<seq<Session>>)
    requires sessions == Sessions(py, created)
    requires |sessions| == |entries| && forall i | 0 <= i < |sessions| :: sessions[i].id == entries[i].id
    ensures r == if KnownId(sessions, SessionId(py, row)) && !Readable(py, row) then None else Some(AddRow(py, entries, row))
  {
    var k := IndexOfId(entries, SessionId(py, row));
    SessionsAre(py, created, SessionId(py, row));
    AddInPlace(py, sessions, entries, row, k);
    if k == |entries| {
      return Some(entries);
    }
    if !Readable(py, row) {
      return None;
    }
    return Some(entries[k := Add(py, entries[k], row)]);
  }

  /** The entry that is updated in place is the only one that the record touches. */
  lemma AddInPlace(py: Python, ss: seq<Session>, entries: seq<Session>, row: Row, k: nat)
    requires Distinct(ss) && |ss| == |entries| && forall i | 0 <= i < |ss| :: ss[i].id == entries[i].id
    requires k == IndexOfId(entries, SessionId(py, row))
    ensures k < |entries| <==> KnownId(ss, SessionId(py, row))
    ensures AddRow(py, entries, row) == if k < |entries| then entries[k := Add(py, entries[k], row)] else entries
  {
    SameIds(ss, entries, SessionId(py, row));
  }

  lemma NextRow(py: Python, ss: seq<Session>, window: seq<Row>, n: nat)
    requires n < |window|
    ensures AddEach(py, ss, window[..n + 1]) == AddRow(py, AddEach(py, ss, window[..n]), window[n])
    ensures AllReadable(py, ss, window[..n + 1]) <==>
      AllReadable(py, ss, window[..n]) && (KnownId(ss, SessionId(py, window[n])) ==> Readable(py, window[n]))
    ensures AllReadable(py, ss, window) ==> AllReadable(py, ss, window[..n + 1])
  {
    TakeNext(window, n);
  }
}
