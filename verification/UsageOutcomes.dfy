/** What one record adds to the report, and where the other fields of a line come
    from. */
module UsageOutcomes {
  import opened Text
  import opened Json
  import opened JsonText
  import opened Ledger
  import opened Usage

  /** The count in a usage record's data: absent and empty values are zero. */
  predicate Counts(py: Python, value: Option<Json>, n: int) {
    match value
    case None => n == 0
    case Some(Null) => n == 0
    case Some(Int(m)) => n == m
    case Some(Bool(b)) => n == if b then 1 else 0
    case Some(Str(s)) => if s == "" then n == 0 else py.toInt(s) == Some(n)
    case Some(Arr(items)) => items == [] && n == 0
    case Some(Obj(ms)) => ms == [] && n == 0
  }

  /** A record of a session: a turn for a message and for a tool call, tokens for a
      usage record whose data are an object, and nothing for any other. */
  lemma {:induction false} RecordAdds(py: Python, row: Row, id: string, field: string, n: int)
    requires Lookup(row.payload, "session_id") == Some(Str(id))
    ensures TurnsOf(py, [row], id) == if row.eventType == "harness.message" || row.eventType == "harness.tool_call" then 1 else 0
    ensures row.eventType != "harness.usage" ==> TokensOf(py, [row], id, field) == 0
    ensures var data := Lookup(row.payload, "data");
      row.eventType == "harness.usage" ==>
        && (data.None? || !data.value.Obj? ==> TokensOf(py, [row], id, field) == 0)
        && (data.Some? && data.value.Obj? && Counts(py, Lookup(data.value.members, field), n) ==> TokensOf(py, [row], id, field) == n)
  {
    assert [row][1..] == [];
  }

  /** A record of another session adds nothing. */
  lemma {:induction false} OtherAddsNothing(py: Python, row: Row, other: string, id: string, field: string)
    requires Lookup(row.payload, "session_id") == Some(Str(other)) && other != id
    ensures TurnsOf(py, [row], id) == 0 && TokensOf(py, [row], id, field) == 0
  {
    assert [row][1..] == [];
  }

  /** Which records can be read. */
  lemma {:induction false} ReadableIff(py: Python, row: Row)
    ensures var data := Lookup(row.payload, "data");
      Readable(py, row) <==>
        row.eventType == "harness.usage" && data.Some? && data.value.Obj? ==>
          && (exists n :: Counts(py, Lookup(data.value.members, "input_tokens"), n))
          && (exists n :: Counts(py, Lookup(data.value.members, "output_tokens"), n))
  {
    var data := Lookup(row.payload, "data");
    if row.eventType == "harness.usage" && data.Some? && data.value.Obj? {
      TokensIff(py, Lookup(data.value.members, "input_tokens"));
      TokensIff(py, Lookup(data.value.members, "output_tokens"));
    }
  }

  lemma {:induction false} TokensIff(py: Python, value: Option<Json>)
    ensures Tokens(py, value).Some? <==> exists n :: Counts(py, value, n)
  {
    var tokens := Tokens(py, value);
    if tokens.Some? {
      assert Counts(py, value, tokens.value);
    }
  }

  /** How a record names its session. */
  lemma {:induction false} NamesSession(py: Python, row: Row)
    ensures match Lookup(row.payload, "session_id")
      case None => SessionId(py, row) == "None"
      case Some(Null) => SessionId(py, row) == "None"
      case Some(Bool(b)) => SessionId(py, row) == if b then "True" else "False"
      case Some(Int(n)) => SessionId(py, row) == Print(Int(n))
      case Some(Str(s)) => SessionId(py, row) == s
      case Some(other) => SessionId(py, row) == py.repr(other)
  {
  }

  /** The line shows what the record says. */
  predicate ShowsRecord(py: Python, s: Session, row: Row) {
    && s.id == SessionId(py, row)
    && s.clientRef == Lookup(row.payload, "client_ref")
    && s.periodRef == Lookup(row.payload, "period_ref")
    && s.model == Lookup(row.payload, "model_ref")
  }

  /** The record at `i` is the last one for the line's session, and shows in the line. */
  ghost predicate ShowsLast(py: Python, created: seq<Row>, s: Session, i: nat) {
    && i < |created| && ShowsRecord(py, s, created[i])
    && forall j | i < j < |created| :: SessionId(py, created[j]) != s.id
  }

  lemma {:induction false} ShowsStill(py: Python, created: seq<Row>, row: Row, s: Session, i: nat)
    requires ShowsLast(py, created, s, i) && SessionId(py, row) != s.id
    ensures ShowsLast(py, created + [row], s, i)
  {
  }

  lemma {:induction false} LineShows(py: Python, created: seq<Row>, k: nat) returns (i: nat)
    requires k < |Sessions(py, created)|
    ensures ShowsLast(py, created, Sessions(py, created)[k], i)
  {
    var n := |created| - 1;
    var before, latest := Sessions(py, created[..n]), Opened(py, created[n]);
    SessionsAre(py, created[..n], "");
    PlacedAt(before, latest, k);
    if Place(before, latest)[k] == latest {
      i := n;
      assert ShowsRecord(py, latest, created[n]);
    } else {
      i := LineShows(py, created[..n], k);
      ShowsStill(py, created[..n], created[n], before[k], i);
      TakeLast(created);
    }
  }

  lemma {:induction false} PlacedAt(ss: seq<Session>, s: Session, k: nat)
    requires Distinct(ss) && k < |Place(ss, s)|
    ensures Place(ss, s)[k] == s || (k < |ss| && Place(ss, s)[k] == ss[k] && ss[k].id != s.id)
  {
    if ss != [] && ss[0].id != s.id && k > 0 {
      PlacedAt(ss[1..], s, k - 1);
    }
  }

  /** The lines of a report, in the order in which their sessions were first created:
      a record of a known session keeps its place, a new one comes last. */
  lemma {:induction false} PlaceKeepsOrder(ss: seq<Session>, s: Session)
    ensures var r := Place(ss, s);
      && |r| == |ss| + (if KnownId(ss, s.id) then 0 else 1)
      && (forall k | 0 <= k < |ss| :: r[k].id == ss[k].id)
      && (!KnownId(ss, s.id) ==> r[|ss|] == s)
  {
    if ss != [] && ss[0].id != s.id {
      PlaceKeepsOrder(ss[1..], s);
      KnownCons(ss, s.id);
    }
  }

  /** A report's line: the session it is for was created in the tenant, its references
      are those of the last such record, and it is in the order of creation. */
  lemma {:induction false} ReportLine(py: Python, rows: seq<Row>, tenantId: string, k: nat) returns (i: nat)
    requires Report(py, rows, tenantId).Some? && k < |Report(py, rows, tenantId).value|
    ensures var s := Report(py, rows, tenantId).value[k];
      && i < |rows| && rows[i].tenantId == tenantId && rows[i].eventType == "session.created"
      && ShowsRecord(py, s, rows[i])
      && forall j | i < j < |rows| && rows[j].tenantId == tenantId && rows[j].eventType == "session.created" ::
           SessionId(py, rows[j]) != s.id
  {
    var q := ByType(tenantId, SESSION_CREATED);
    var created := Select(rows, q);
    var ss := Sessions(py, created);
    AddAllSums(py, ss[k], Window(rows, tenantId));
    var p := LineShows(py, created, k);
    i := LastCreated(py, rows, tenantId, ss[k], p);
  }

  /** The last record of a session among the created ones, in the whole table. */
  lemma {:induction false} LastCreated(py: Python, rows: seq<Row>, tenantId: string, s: Session, p: nat) returns (i: nat)
    requires ShowsLast(py, Select(rows, ByType(tenantId, SESSION_CREATED)), s, p)
    ensures i < |rows| && rows[i].tenantId == tenantId && rows[i].eventType == "session.created" && ShowsRecord(py, s, rows[i])
    ensures forall j | i < j < |rows| && rows[j].tenantId == tenantId && rows[j].eventType == "session.created" ::
      SessionId(py, rows[j]) != s.id
  {
    var q := ByType(tenantId, SESSION_CREATED);
    var created := Select(rows, q);
    var places := SelectInOrder(rows, q);
    i := places[p];
    forall j | i < j < |rows| && rows[j].tenantId == tenantId && rows[j].eventType == "session.created"
      ensures SessionId(py, rows[j]) != s.id
    {
      assert Wanted(q, rows[j]);
      var l :| 0 <= l < |places| && places[l] == j;
      assert l > p && created[l] == rows[j];
    }
  }

  /** What the report covers: the tenant's newest million records. */
  lemma {:induction false} CoverIs(rows: seq<Row>, tenantId: string)
    ensures var all := Select(rows, ByTenant(tenantId));
      Counted(rows, tenantId) == if |all| <= 1_000_000 then all else all[|all| - 1_000_000..]
  {
  }
}
