/** What the server writes for a line, from the members of the value in it. */
module RpcOutcomes {
  import opened Text
  import opened Json
  import opened Rpc

  /** A valid request: version 2.0, a named method, parameters that are an object if
      there are any, and an id that is a text, an integer or a boolean if there is one. */
  predicate WellShaped(payload: Json) {
    payload.Obj? &&
    var ms := payload.members;
    var name, params, id := Lookup(ms, "method"), Lookup(ms, "params"), Lookup(ms, "id");
    && Lookup(ms, "jsonrpc") == Some(Str("2.0"))
    && name.Some? && name.value.Str? && |name.value.s| > 0
    && (params.Some? ==> params.value.Null? || params.value.Obj?)
    && (id.Some? ==> id.value.Null? || id.value.Str? || id.value.Int? || id.value.Bool?)
  }

  predicate AsksAnswer(ms: seq<Member>) {
    Lookup(ms, "id").Some? && Lookup(ms, "id") != Some(Null)
  }

  predicate OnlyNotes(os: seq<Output>) {
    forall i | 0 <= i < |os| :: os[i].Notification?
  }

  /** The request in a line. */
  lemma {:induction false} ServedRequest<S>(load: Loader, table: Table<S>, s: S, raw: string, payload: Json)
    requires Strip(raw) != "" && load(Strip(raw)) == Loaded.Value(payload) && WellShaped(payload)
    ensures var ms := payload.members;
      var request := Request(Lookup(ms, "method").value.s, Present(ms, "params"), Present(ms, "id"));
      KindOf(load, raw) == if request.id == None then Silent(request) else Kind.Answered(request, request.id.value)
  {
  }

  /** Notes, and then one response under the id. */
  predicate ClosesWith(os: seq<Output>, id: Json) {
    os != [] && OnlyNotes(os[..|os| - 1]) && !os[|os| - 1].Notification? && os[|os| - 1].id == id
  }

  lemma {:induction false} NotesThen(notes: seq<Note>, o: Output)
    requires !o.Notification?
    ensures OnlyNotes(Streamed(notes)) && ClosesWith(Streamed(notes) + [o], o.id)
  {
    assert (Streamed(notes) + [o])[..|notes|] == Streamed(notes);
  }

  lemma {:induction false} AnsweredKind<S>(table: Table<S>, s: S, request: Request, id: Json)
    ensures ClosesWith(ServeKind(table, s, Kind.Answered(request, id)).out, id)
  {
    var run := Call(table, s, request.name, request.params);
    NotesThen(run.notes, Respond(id, run.end));
    assert ServeKind(table, s, Kind.Answered(request, id)).out == Streamed(run.notes) + [Respond(id, run.end)];
  }

  lemma {:induction false} SilentKind<S>(table: Table<S>, s: S, request: Request)
    ensures OnlyNotes(ServeKind(table, s, Silent(request)).out)
  {
    var run := Call(table, s, request.name, request.params);
    assert ServeKind(table, s, Silent(request)).out == Streamed(run.notes);
  }

  /** A line with a valid request: with an id it gets one response, under that id, as
      its last output; without one it gets none. */
  lemma {:induction false} RequestLine<S>(load: Loader, table: Table<S>, s: S, raw: string, payload: Json)
    requires Strip(raw) != "" && load(Strip(raw)) == Loaded.Value(payload) && WellShaped(payload)
    ensures var os, ms := ServeLine(load, table, s, raw).out, payload.members;
      if AsksAnswer(ms) then ClosesWith(os, Lookup(ms, "id").value) else OnlyNotes(os)
  {
    var ms := payload.members;
    ServedRequest(load, table, s, raw, payload);
    var request := Request(Lookup(ms, "method").value.s, Present(ms, "params"), Present(ms, "id"));
    if AsksAnswer(ms) {
      AnsweredKind(table, s, request, Lookup(ms, "id").value);
    } else {
      SilentKind(table, s, request);
    }
  }

  /** Any other line: a value that is no valid request, a text that is no JSON, and
      white space. None of them reaches a handler. */
  lemma {:induction false} OtherLine<S>(load: Loader, table: Table<S>, s: S, raw: string)
    ensures var loaded, run := load(Strip(raw)), ServeLine(load, table, s, raw);
      && (Strip(raw) == "" ==> run == LineRun([], s))
      && (Strip(raw) != "" && loaded.SyntaxError? ==> run == LineRun([Error(Null, -32700)], s))
      && (Strip(raw) != "" && loaded.Value? && !WellShaped(loaded.json) ==> run == LineRun([Error(Null, -32600)], s))
  {
  }

  /** What the handler of a request gets, if it is called at all. */
  predicate Reaches<S>(entry: Entry<S>, params: Option<Json>, got: seq<Member>) {
    if entry.model == None then got == [] && (params == None || params == Some(Null) || params == Some(Obj([])))
    else params.Some? && params.value.Obj? && entry.model.value(params.value.members) == Some(got)
  }

  function Code(end: HandlerEnd): int
    requires !end.Returned?
  {
    if end.RaisedRpc? then end.code else -32603
  }

  /** The output for a handler's run: its notes if it streams, then its result or its
      error under the request's id. */
  function Answers<S>(run: HandlerRun<S>, streams: bool, id: Option<Json>): seq<Output> {
    var notes := if streams then Streamed(run.notes) else [];
    if id == None || id == Some(Null) then notes
    else notes + [if run.end.Returned? then Result(id.value, run.end.result) else Error(id.value, Code(run.end))]
  }

  /** The only output for a request that reaches no handler. */
  function Refuses(code: int, id: Option<Json>): seq<Output> {
    if id == None || id == Some(Null) then [] else [Error(id.value, code)]
  }

  /** An unknown method. */
  lemma {:induction false} UnknownMethod<S>(load: Loader, table: Table<S>, s: S, raw: string, payload: Json)
    requires Strip(raw) != "" && load(Strip(raw)) == Loaded.Value(payload) && WellShaped(payload)
    requires Lookup(payload.members, "method").value.s !in table
    ensures ServeLine(load, table, s, raw) == LineRun(Refuses(-32601, Lookup(payload.members, "id")), s)
  {
    ServedRequest(load, table, s, raw, payload);
    var id := Present(payload.members, "id");
    if id.Some? {
      assert Streamed([]) + [Error(id.value, -32601)] == [Error(id.value, -32601)];
    } else {
      assert Streamed([]) == [];
    }
  }

  /** Parameters that the method does not take. */
  lemma {:induction false} RefusedParams<S>(load: Loader, table: Table<S>, s: S, raw: string, payload: Json)
    requires Strip(raw) != "" && load(Strip(raw)) == Loaded.Value(payload) && WellShaped(payload)
    requires Lookup(payload.members, "method").value.s in table
    requires !exists got :: Reaches(table[Lookup(payload.members, "method").value.s], Lookup(payload.members, "params"), got)
    ensures ServeLine(load, table, s, raw) == LineRun(Refuses(-32602, Lookup(payload.members, "id")), s)
  {
    ServedRequest(load, table, s, raw, payload);
    var ms := payload.members;
    var name, params, id := Lookup(ms, "method").value.s, Lookup(ms, "params"), Present(ms, "id");
    var admission := Admit(table, name, Present(ms, "params"));
    if admission.Admitted? {
      assert Reaches(table[name], params, admission.params);
      assert false;
    }
    if id.Some? {
      assert Streamed([]) + [Error(id.value, -32602)] == [Error(id.value, -32602)];
    } else {
      assert Streamed([]) == [];
    }
  }

  /** A request that reaches its handler. */
  lemma {:induction false} HandledRequest<S>(load: Loader, table: Table<S>, s: S, raw: string, payload: Json, got: seq<Member>)
    requires Strip(raw) != "" && load(Strip(raw)) == Loaded.Value(payload) && WellShaped(payload)
    requires Lookup(payload.members, "method").value.s in table
    requires Reaches(table[Lookup(payload.members, "method").value.s], Lookup(payload.members, "params"), got)
    ensures var entry := table[Lookup(payload.members, "method").value.s];
      var run := entry.handler(s, got);
      ServeLine(load, table, s, raw) == LineRun(Answers(run, entry.streams, Lookup(payload.members, "id")), run.state)
  {
    ServedRequest(load, table, s, raw, payload);
    var ms := payload.members;
    var name := Lookup(ms, "method").value.s;
    assert Admit(table, name, Present(ms, "params")) == Admitted(got);
    assert Streamed([]) == [];
  }
}
