/** The queue's two RPC methods over the shared ledger, and how one line's failure
    reaches into the answer of the next. */
module RpcQueue {
  import opened Text
  import opened Json
  import opened IntentBinding
  import opened Ledger
  import opened Pauses
  import opened HitlLog
  import opened Hitl
  import opened HitlStore
  import opened HitlWitness
  import opened HitlOutcomes
  import R = Rpc

  const FAIL_CLOSED: int := 100
  const TENANT_SCOPE: int := 101

  /** What the handlers draw from outside, and how the source reads ids and tenants. */
  datatype World = World(
    hash: Hash, clock: nat -> int, stamp: nat -> int, eventId: nat -> EventId, intentId: nat -> string,
    uuid: string -> Option<string>, scope: string -> Option<string>)

  /** The handlers' state: the table, and how many decisions have drawn on the world. */
  datatype Queue = Queue(rows: seq<Row>, drawn: nat)

  function TextOf(params: seq<Member>, key: string): string {
    var text := StrOf(Lookup(params, key));
    if text.Some? then text.value else ""
  }

  function DecideParams(ms: seq<Member>): Option<seq<Member>> {
    var id, decision, actor := TextOf(ms, "pause_id"), TextOf(ms, "decision"), TextOf(ms, "actor");
    if OnlyKeys(ms, ["pause_id", "decision", "actor"]) && |id| == 36 && decision in ["approved", "rejected"] && ValidActor(actor)
    then Some([Member("pause_id", Str(id)), Member("decision", Str(decision)), Member("actor", Str(actor))])
    else None
  }

  function TenantParams(ms: seq<Member>): Option<seq<Member>> {
    var tenantId := TextOf(ms, "tenant_id");
    var limit := if Has(ms, "limit") then IntOf(Lookup(ms, "limit")) else Some(50);
    if OnlyKeys(ms, ["tenant_id", "limit"]) && 1 <= |tenantId| <= 64 && limit.Some? && 1 <= limit.value <= 500
    then Some([Member("tenant_id", Str(tenantId)), Member("limit", Int(limit.value))])
    else None
  }

  function EndOf(decision: Decision): R.HandlerEnd {
    match decision
    case Sealed(intent) => R.Returned(Obj([Member("intent", Obj(DumpIntent(intent)))]))
    case Refused(verdict) =>
      if verdict.UnknownPause? || verdict.NotPending? || verdict.Late? then R.RaisedRpc(FAIL_CLOSED) else R.RaisedOther
    case DuplicateEvent => R.RaisedOther
  }

  /** The operation behind a decision. */
  function OpOf(w: World, q: Queue, id: string, params: seq<Member>): Op {
    Decide(id, if TextOf(params, "decision") == "approved" then Approve else Reject, TextOf(params, "actor"),
           w.clock(q.drawn), w.intentId(q.drawn), w.eventId(q.drawn), w.stamp(q.drawn))
  }

  function VerdictOf(w: World, q: Queue, id: string, params: seq<Member>): Verdict {
    Judge(LogOf(q.rows), id, TextOf(params, "actor"), w.clock(q.drawn))
  }

  function DecideLine(w: World, q: Queue, params: seq<Member>): R.HandlerRun<Queue> {
    var id := w.uuid(TextOf(params, "pause_id"));
    if id.None? then R.HandlerRun([], R.RaisedRpc(R.INVALID_PARAMS), q)
    else
      var op := OpOf(w, q, id.value, params);
      var answer := Answer(VerdictOf(w, q, id.value, params), Taken(q.rows, op.eventId), op.actor, op.now, op.intentId);
      R.HandlerRun([], EndOf(answer), Queue(Apply(w.hash, q.rows, op), q.drawn + 1))
  }

  function DumpAll(ps: seq<Pause>): seq<Json> {
    seq(|ps|, i requires 0 <= i < |ps| => Obj(Dump(ps[i])))
  }

  function ListLine(w: World, q: Queue, params: seq<Member>): R.HandlerRun<Queue> {
    var tenantId := w.scope(TextOf(params, "tenant_id"));
    if tenantId.None? then R.HandlerRun([], R.RaisedRpc(TENANT_SCOPE), q)
    else
      match Listed(LogOf(q.rows), tenantId.value)
      case None => R.HandlerRun([], R.RaisedOther, q)
      case Some(ps) => R.HandlerRun([], R.Returned(Obj([Member("pending", Arr(DumpAll(ps)))])), q)
  }

  function Methods(w: World): R.Table<Queue> {
    map["seasi.hitl.decide" := R.Entry(Some(DecideParams), false, (q: Queue, ps: seq<Member>) => DecideLine(w, q, ps)),
        "seasi.hitl.list" := R.Entry(Some(TenantParams), false, (q: Queue, ps: seq<Member>) => ListLine(w, q, ps))]
  }

  /** When a decision changes the table, and when it does so although it is answered
      with an error: exactly when it finds the pause past its deadline and its event
      is accepted. Every other failing decision leaves later lines alone. */
  lemma FailingDecideIff(w: World, q: Queue, params: seq<Member>)
    ensures var run, id := DecideLine(w, q, params), w.uuid(TextOf(params, "pause_id"));
      var accepted := id.Some? && !Taken(q.rows, w.eventId(q.drawn));
      && (run.state.rows != q.rows <==>
            accepted && (VerdictOf(w, q, id.value, params).Late? || VerdictOf(w, q, id.value, params).Open?))
      && (run.state.rows != q.rows && !run.end.Returned? <==> accepted && VerdictOf(w, q, id.value, params).Late?)
  {
    var id := w.uuid(TextOf(params, "pause_id"));
    if id.Some? {
      var op, verdict := OpOf(w, q, id.value, params), VerdictOf(w, q, id.value, params);
      assert EventOf(w.hash, LogOf(q.rows), op) == DecideEvent(w.hash, verdict, op);
      assert |Apply(w.hash, q.rows, op)| == |q.rows| + if (verdict.Late? || verdict.Open?) && !Taken(q.rows, op.eventId) then 1 else 0;
    }
  }

  /** A decide line on an open pause writes the word it brought, and answers with the
      intent that was sealed. */
  lemma {:induction false} DecideLineRow(w: World, q: Queue, params: seq<Member>, id: string, p: Pause) returns (ms: seq<Member>)
    requires w.uuid(TextOf(params, "pause_id")) == Some(id) && Fresh(q.rows, w.eventId(q.drawn))
    requires VerdictOf(w, q, id, params) == Open(p)
    ensures var run := DecideLine(w, q, params);
      && Adds(q.rows, run.state.rows, p.tenant.tenantId, "hitl.pause.decided", w.eventId(q.drawn), w.stamp(q.drawn))
      && Lookup(run.state.rows[|q.rows|].payload, "decision") ==
           Some(Str(if TextOf(params, "decision") == "approved" then "approved" else "rejected"))
      && run.end == R.Returned(Obj([Member("intent", Obj(ms))]))
      && Grants(ms, Sealing(p, TextOf(params, "actor"), w.clock(q.drawn), w.intentId(q.drawn)))
  {
    var op := OpOf(w, q, id, params);
    var intent := Sealing(p, op.actor, op.now, op.intentId);
    ms := DumpIntent(intent);
    DecisionRow(w.hash, q.rows, op, p);
    IntentShown(intent);
    AnswerIs(LogOf(q.rows), id, op.actor, op.now, op.intentId, false);
  }

  /** How a decide line fails, in numbers: an id that is none with the code for refused
      parameters, a pause that is unknown, settled or late with the queue's own code,
      and anything else unforeseen. */
  lemma {:induction false} DecideLineFails(w: World, q: Queue, params: seq<Member>)
    ensures var end, id := DecideLine(w, q, params).end, w.uuid(TextOf(params, "pause_id"));
      if id == None then end == R.RaisedRpc(-32602)
      else
        var verdict, unused := VerdictOf(w, q, id.value, params), Fresh(q.rows, w.eventId(q.drawn));
        && (verdict.UnknownPause? || verdict.NotPending? || (verdict.Late? && unused) ==> end == R.RaisedRpc(100))
        && (verdict.CorruptRecord? || verdict.InvalidActor? || ((verdict.Open? || verdict.Late?) && !unused) ==> end == R.RaisedOther)
  {
  }

  /** A list line shows the tenant's pending pauses, oldest first, each as it would be
      written; it fails on a text that is no tenant, and on a log it cannot read. */
  lemma {:induction false} ListLineIs(w: World, q: Queue, params: seq<Member>)
    ensures var run, tenantId := ListLine(w, q, params), w.scope(TextOf(params, "tenant_id"));
      && run.state == q && run.notes == []
      && if tenantId == None then run.end == R.RaisedRpc(101)
         else
           var listed := Listed(LogOf(q.rows), tenantId.value);
           if listed == None then run.end == R.RaisedOther
           else
             && run.end.Returned? && run.end.result.Obj? && |run.end.result.members| == 1
             && run.end.result.members[0].key == "pending" && run.end.result.members[0].value.Arr?
             && var items := run.end.result.members[0].value.items;
                && |items| == |listed.value|
                && (forall i | 0 <= i < |items| :: items[i] == Obj(Dump(listed.value[i])))
                && forall i, j | 0 <= i < j < |items| :: listed.value[i].createdAt <= listed.value[j].createdAt
  {
    var tenantId := w.scope(TextOf(params, "tenant_id"));
    if tenantId.Some? {
      var board := Board(LogOf(q.rows), tenantId.value);
      if board.Some? {
        ArrangeIs(StillOpen(board.value, LogOf(q.rows), tenantId.value), 0);
      }
    }
  }

  // --------------------------------------------------------------- a witness

  function DecideArgs(): seq<Member> {
    [Member("pause_id", Str(Id('p'))), Member("decision", Str("approved")), Member("actor", Str("ann"))]
  }

  function ListArgs(): seq<Member> {
    [Member("tenant_id", Str("demo"))]
  }

  function Asks(name: string, args: seq<Member>, id: int): R.Kind {
    R.Answered(R.Request(name, Some(Obj(args)), Some(Int(id))), Int(id))
  }

  function Pending(ps: seq<Pause>): Json {
    Obj([Member("pending", Arr(DumpAll(ps)))])
  }

  lemma TextAt(ms: seq<Member>, i: nat)
    requires i < |ms| && ms[i].value.Str? && forall j | 0 <= j < i :: ms[j].key != ms[i].key
    ensures TextOf(ms, ms[i].key) == ms[i].value.s
  {
    IndexIs(ms, ms[i].key, i);
  }

  lemma ArgsAdmitted(w: World)
    ensures R.Admit(Methods(w), "seasi.hitl.decide", Some(Obj(DecideArgs()))) == R.Admitted(DecideArgs())
    ensures R.Admit(Methods(w), "seasi.hitl.list", Some(Obj(ListArgs()))) ==
      R.Admitted([Member("tenant_id", Str("demo")), Member("limit", Int(50))])
    ensures TextOf(DecideArgs(), "pause_id") == Id('p') && TextOf(DecideArgs(), "actor") == "ann"
    ensures TextOf([Member("tenant_id", Str("demo")), Member("limit", Int(50))], "tenant_id") == "demo"
  {
    TextAt(DecideArgs(), 0);
    TextAt(DecideArgs(), 1);
    TextAt(DecideArgs(), 2);
    TextAt(ListArgs(), 0);
    TextAt([Member("tenant_id", Str("demo")), Member("limit", Int(50))], 0);
    assert !Has(ListArgs(), "limit");
  }

  lemma ListsOf()
    ensures Listed(Waits(), "demo") == Some([Brief()]) && Listed(TimedOut(), "demo") == Some([])
  {
    assert Waits()[..0] == [] && TimedOut()[..1] == Waits();
    assert Board(Waits(), "demo") == Some([Brief()]) == Board(TimedOut(), "demo");
    assert [Brief()][..0] == [];
    assert TimedOut()[1].Lapsed?;
    assert Gone(TimedOut(), "demo", Brief().pauseId);
    assert !Gone(Waits(), "demo", Brief().pauseId);
  }

  /** A decide line that is answered with an error changes the answer to the line
      after it: the listing holds the pause without that line, and is empty with it. */
  lemma FailingLineShortensList(w: World, q: Queue, load: R.Loader, decide: string, list: string)
    requires LogOf(q.rows) == Waits() && w.clock(q.drawn) == 10 && !Taken(q.rows, w.eventId(q.drawn))
    requires w.uuid(Id('p')) == Some(Id('p')) && w.scope("demo") == Some("demo")
    requires R.KindOf(load, decide) == Asks("seasi.hitl.decide", DecideArgs(), 1)
    requires R.KindOf(load, list) == Asks("seasi.hitl.list", ListArgs(), 2)
    ensures R.ServeAll(load, Methods(w), q, [list]).out == [R.Result(Int(2), Pending([Brief()]))]
    ensures R.ServeAll(load, Methods(w), q, [decide, list]).out ==
      [R.Error(Int(1), FAIL_CLOSED), R.Result(Int(2), Pending([]))]
  {
    ListsOf();
    LateDecide(w, q);
    DecideAnswer(w, q, load, decide);
    ListAnswer(w, q, load, list, [Brief()]);
    ListAnswer(w, DecideLine(w, q, DecideArgs()).state, load, list, []);
    R.ServePair(load, Methods(w), q, decide, list);
  }

  lemma DecideAnswer(w: World, q: Queue, load: R.Loader, decide: string)
    requires R.KindOf(load, decide) == Asks("seasi.hitl.decide", DecideArgs(), 1)
    requires DecideLine(w, q, DecideArgs()).end == R.RaisedRpc(FAIL_CLOSED)
    ensures R.ServeLine(load, Methods(w), q, decide) ==
      R.LineRun([R.Error(Int(1), FAIL_CLOSED)], DecideLine(w, q, DecideArgs()).state)
  {
    ArgsAdmitted(w);
    assert [] + [R.Error(Int(1), FAIL_CLOSED)] == [R.Error(Int(1), FAIL_CLOSED)];
  }

  lemma LateDecide(w: World, q: Queue)
    requires LogOf(q.rows) == Waits() && w.clock(q.drawn) == 10 && !Taken(q.rows, w.eventId(q.drawn))
    requires w.uuid(Id('p')) == Some(Id('p'))
    ensures var run := DecideLine(w, q, DecideArgs());
      run.end == R.RaisedRpc(FAIL_CLOSED) && LogOf(run.state.rows) == TimedOut()
  {
    ArgsAdmitted(w);
    BriefIsLate();
    var op := OpOf(w, q, Id('p'), DecideArgs());
    assert VerdictOf(w, q, Id('p'), DecideArgs()) == Late(Brief());
    LateAppends(w.hash, q.rows, op);
  }

  lemma ListAnswer(w: World, q: Queue, load: R.Loader, list: string, ps: seq<Pause>)
    requires Listed(LogOf(q.rows), "demo") == Some(ps) && w.scope("demo") == Some("demo")
    requires R.KindOf(load, list) == Asks("seasi.hitl.list", ListArgs(), 2)
    ensures R.ServeAll(load, Methods(w), q, [list]).out == [R.Result(Int(2), Pending(ps))]
  {
    ArgsAdmitted(w);
    assert R.ServeLine(load, Methods(w), q, list).out == [] + [R.Result(Int(2), Pending(ps))];
    assert [list][1..] == [];
  }
}
