/** The JSON-RPC 2.0 server over lines: one request a line, notifications streamed
    while it is served, and at most one response. */
module Rpc {
  import opened Text
  import opened Json

  const PARSE_ERROR: int := -32700
  const INVALID_REQUEST: int := -32600
  const METHOD_NOT_FOUND: int := -32601
  const INVALID_PARAMS: int := -32602
  const INTERNAL_ERROR: int := -32603

  /** What `json.loads` makes of a line: a value, a syntax error, or an exception of
      another kind, as an overlong number or too deep a nesting raises. */
  datatype Loaded = Value(json: Json) | SyntaxError | Crash

  type Loader = string -> Loaded

  datatype Note = Note(name: string, params: seq<Member>)

  datatype HandlerEnd = Returned(result: Json) | RaisedRpc(code: int) | RaisedOther

  /** A handler's run: what it streams, how it ends, and the state it leaves. All
      handlers share one state, as the source's share the ledger. */
  datatype HandlerRun<S> = HandlerRun(notes: seq<Note>, end: HandlerEnd, state: S)
  type Handler<!S> = (S, seq<Member>) -> HandlerRun<S>

  /** Validated and dumped parameters, or nothing. */
  type Validator = seq<Member> -> Option<seq<Member>>

  datatype Entry<!S> = Entry(model: Option<Validator>, streams: bool, handler: Handler<S>)

  type Table<!S> = map<string, Entry<S>>

  datatype Output =
    | Notification(name: string, params: seq<Member>)
    | Result(id: Json, result: Json)
    | Error(id: Json, code: int)

  predicate IsResponse(o: Output) {
    !o.Notification?
  }

  // --------------------------------------------------------------- validation

  datatype Request = Request(name: string, params: Option<Json>, id: Option<Json>)

  datatype Validated = Valid(request: Request) | Invalid

  function Present(ms: seq<Member>, key: string): Option<Json> {
    var value := Lookup(ms, key);
    if value.Some? && value.value.Null? then None else value
  }

  /** `_validate_request`. An id may be a string, an integer or, as `bool` is an
      `int` in Python, a boolean. */
  function Validate(payload: Json): Validated {
    if !payload.Obj? then Invalid
    else
      var ms := payload.members;
      var name, params, id := Lookup(ms, "method"), Present(ms, "params"), Present(ms, "id");
      if Lookup(ms, "jsonrpc") != Some(Str("2.0")) then Invalid
      else if name.None? || !name.value.Str? || name.value.s == "" then Invalid
      else if params.Some? && !params.value.Obj? then Invalid
      else if id.Some? && !id.value.Str? && !id.value.Int? && !id.value.Bool? then Invalid
      else Valid(Request(name.value.s, params, id))
  }

  // ----------------------------------------------------------------- dispatch

  /** What reaches the handler: the parameters as it gets them, or the error that
      answers in its place. */
  datatype Admission = Admitted(params: seq<Member>) | Turned(code: int)

  function Admit<S>(table: Table<S>, name: string, params: Option<Json>): Admission {
    if name !in table then Turned(METHOD_NOT_FOUND)
    else
      match table[name].model
      case None => if params.None? || params == Some(Obj([])) then Admitted([]) else Turned(INVALID_PARAMS)
      case Some(validator) =>
        if params.None? || !params.value.Obj? then Turned(INVALID_PARAMS)
        else
          match validator(params.value.members)
          case None => Turned(INVALID_PARAMS)
          case Some(dumped) => Admitted(dumped)
  }

  /** A handler that takes no `notify` streams nothing. */
  function Call<S>(table: Table<S>, s: S, name: string, params: Option<Json>): HandlerRun<S> {
    match Admit(table, name, params)
    case Turned(code) => HandlerRun([], RaisedRpc(code), s)
    case Admitted(dumped) =>
      if name in table then
        var run := table[name].handler(s, dumped);
        if table[name].streams then run else run.(notes := [])
      else HandlerRun([], RaisedRpc(METHOD_NOT_FOUND), s)
  }

  function Respond(id: Json, end: HandlerEnd): Output {
    match end
    case Returned(result) => Result(id, result)
    case RaisedRpc(code) => Error(id, code)
    case RaisedOther => Error(id, INTERNAL_ERROR)
  }

  function Streamed(notes: seq<Note>): (os: seq<Output>)
    ensures |os| == |notes| && forall i | 0 <= i < |os| :: os[i] == Notification(notes[i].name, notes[i].params)
  {
    seq(|notes|, i requires 0 <= i < |notes| => Notification(notes[i].name, notes[i].params))
  }

  // --------------------------------------------------------------- one line

  /** What a line is to the server. */
  datatype Kind = Blank | Fatal | Malformed | Unacceptable | Silent(quiet: Request) | Answered(asked: Request, id: Json)

  function KindOf(load: Loader, raw: string): Kind {
    var line := Strip(raw);
    if line == "" then Blank
    else
      match load(line)
      case Crash => Fatal
      case SyntaxError => Malformed
      case Value(payload) =>
        match Validate(payload)
        case Invalid => Unacceptable
        case Valid(request) => if request.id.None? then Silent(request) else Answered(request, request.id.value)
  }

  datatype LineRun<S> = LineRun(out: seq<Output>, state: S)

  function ServeLine<S>(load: Loader, table: Table<S>, s: S, raw: string): LineRun<S> {
    ServeKind(table, s, KindOf(load, raw))
  }

  function ServeKind<S>(table: Table<S>, s: S, kind: Kind): LineRun<S> {
    match kind
    case Blank => LineRun([], s)
    case Fatal => LineRun([], s)
    case Malformed => LineRun([Error(Null, PARSE_ERROR)], s)
    case Unacceptable => LineRun([Error(Null, INVALID_REQUEST)], s)
    case Silent(request) =>
      var run := Call(table, s, request.name, request.params);
      LineRun(Streamed(run.notes), run.state)
    case Answered(request, id) =>
      var run := Call(table, s, request.name, request.params);
      LineRun(Streamed(run.notes) + [Respond(id, run.end)], run.state)
  }

  function CountResponses(os: seq<Output>): nat {
    if os == [] then 0 else CountResponses(os[..|os| - 1]) + if IsResponse(os[|os| - 1]) then 1 else 0
  }

  lemma {:induction false} NoResponses(os: seq<Output>)
    requires forall i | 0 <= i < |os| :: !IsResponse(os[i])
    ensures CountResponses(os) == 0
  {
    if os != [] {
      NoResponses(os[..|os| - 1]);
    }
  }

  lemma StreamedQuietly(notes: seq<Note>)
    ensures CountResponses(Streamed(notes)) == 0
  {
    NoResponses(Streamed(notes));
  }

  lemma ThenOne(os: seq<Output>, o: Output)
    requires IsResponse(o) && CountResponses(os) == 0
    ensures CountResponses(os + [o]) == 1
  {
    assert (os + [o])[..|os|] == os;
  }

  lemma OnlyOne(o: Output)
    requires IsResponse(o)
    ensures CountResponses([o]) == 1
  {
    assert [o][..0] == [];
  }

  predicate Expects(kind: Kind) {
    kind.Malformed? || kind.Unacceptable? || kind.Answered?
  }

  predicate ExpectsResponse(load: Loader, raw: string) {
    Expects(KindOf(load, raw))
  }

  lemma KindDiscipline<S>(table: Table<S>, s: S, kind: Kind)
    ensures var os := ServeKind(table, s, kind).out;
      && CountResponses(os) == (if Expects(kind) then 1 else 0)
      && (Expects(kind) ==> os != [] && IsResponse(os[|os| - 1]) && os[|os| - 1].id == if kind.Answered? then kind.id else Null)
  {
    match kind {
      case Answered(request, id) =>
        var run := Call(table, s, request.name, request.params);
        StreamedQuietly(run.notes);
        ThenOne(Streamed(run.notes), Respond(id, run.end));
      case Silent(request) => StreamedQuietly(Call(table, s, request.name, request.params).notes);
      case Malformed => OnlyOne(Error(Null, PARSE_ERROR));
      case Unacceptable => OnlyOne(Error(Null, INVALID_REQUEST));
      case _ =>
    }
  }

  /** Line discipline: notifications first, then exactly one response iff the line is
      malformed, invalid, or a request with an id; a valid request gets its own id
      back and a bad line gets null. */
  lemma LineDiscipline<S>(load: Loader, table: Table<S>, s: S, raw: string)
    ensures var os, kind := ServeLine(load, table, s, raw).out, KindOf(load, raw);
      && CountResponses(os) == (if ExpectsResponse(load, raw) then 1 else 0)
      && (ExpectsResponse(load, raw) ==>
            os != [] && IsResponse(os[|os| - 1]) && os[|os| - 1].id == if kind.Answered? then kind.id else Null)
  {
    KindDiscipline(table, s, KindOf(load, raw));
  }

  // ------------------------------------------------------------- the server

  /** What the server has written and left, and whether an exception ended it. */
  datatype Session<S> = Session(out: seq<Output>, state: S, crashed: bool)

  function After<S>(one: LineRun<S>, rest: Session<S>): Session<S> {
    Session(one.out + rest.out, rest.state, rest.crashed)
  }

  /** `serve` over the lines, up to the first that crashes the loop. */
  function ServeAll<S>(load: Loader, table: Table<S>, s: S, lines: seq<string>): Session<S>
    decreases |lines|
  {
    if lines == [] then Session([], s, false)
    else if KindOf(load, lines[0]).Fatal? then Session([], s, true)
    else
      var one := ServeLine(load, table, s, lines[0]);
      After(one, ServeAll(load, table, one.state, lines[1..]))
  }

  /** How many responses the lines call for, up to the first that crashes the loop. */
  function Expected(load: Loader, lines: seq<string>): nat {
    if lines == [] || KindOf(load, lines[0]).Fatal? then 0
    else (if ExpectsResponse(load, lines[0]) then 1 else 0) + Expected(load, lines[1..])
  }

  lemma {:induction false} CountAppend(os: seq<Output>, ps: seq<Output>)
    ensures CountResponses(os + ps) == CountResponses(os) + CountResponses(ps)
  {
    if ps == [] {
      assert os + ps == os;
    } else {
      CountAppend(os, ps[..|ps| - 1]);
      assert (os + ps)[..|os + ps| - 1] == os + ps[..|ps| - 1];
    }
  }

  /** The server answers as many times as the lines it serves call for. */
  lemma {:induction false} ResponsesInAll<S>(load: Loader, table: Table<S>, s: S, lines: seq<string>)
    ensures CountResponses(ServeAll(load, table, s, lines).out) == Expected(load, lines)
    decreases |lines|
  {
    if lines != [] && !KindOf(load, lines[0]).Fatal? {
      var one := ServeLine(load, table, s, lines[0]);
      LineDiscipline(load, table, s, lines[0]);
      ResponsesInAll(load, table, one.state, lines[1..]);
      CountAppend(one.out, ServeAll(load, table, one.state, lines[1..]).out);
    }
  }

  lemma Assoc(a: seq<Output>, b: seq<Output>, c: seq<Output>)
    ensures (a + b) + c == a + (b + c)
  {
  }

  /** Serving some lines and then others. */
  lemma {:induction false} ServeInTurn<S>(load: Loader, table: Table<S>, s: S, pre: seq<string>, post: seq<string>)
    ensures var before := ServeAll(load, table, s, pre);
      ServeAll(load, table, s, pre + post) ==
        if before.crashed then before
        else
          var after := ServeAll(load, table, before.state, post);
          Session(before.out + after.out, after.state, after.crashed)
    decreases |pre|
  {
    if pre == [] {
      assert pre + post == post;
      assert [] + ServeAll(load, table, s, post).out == ServeAll(load, table, s, post).out;
    } else {
      assert (pre + post)[0] == pre[0] && (pre + post)[1..] == pre[1..] + post;
      var one := ServeLine(load, table, s, pre[0]);
      ServeInTurn(load, table, one.state, pre[1..], post);
      var before := ServeAll(load, table, one.state, pre[1..]);
      Assoc(one.out, before.out, ServeAll(load, table, before.state, post).out);
    }
  }

  lemma ServePair<S>(load: Loader, table: Table<S>, s: S, a: string, b: string)
    requires !KindOf(load, a).Fatal?
    ensures var one := ServeLine(load, table, s, a);
      ServeAll(load, table, s, [a, b]) == After(one, ServeAll(load, table, one.state, [b]))
  {
    assert [a, b][1..] == [b];
  }

  // --------------------------------------------------- how lines affect others

  /** A line that comes to no handler: blank, malformed, invalid, for an unknown
      method, or with refused parameters. */
  predicate Inert<S>(load: Loader, table: Table<S>, raw: string) {
    match KindOf(load, raw)
    case Fatal => false
    case Silent(request) => Admit(table, request.name, request.params).Turned?
    case Answered(request, _) => Admit(table, request.name, request.params).Turned?
    case _ => true
  }

  lemma InertKeepsState<S>(load: Loader, table: Table<S>, s: S, raw: string)
    requires Inert(load, table, raw)
    ensures ServeLine(load, table, s, raw).state == s
  {
  }

  /** A line in the midst of others: what comes before it is not affected, and what
      comes after depends on it only through the state it leaves. */
  lemma LineInContext<S>(load: Loader, table: Table<S>, s: S, pre: seq<string>, raw: string, post: seq<string>)
    requires !ServeAll(load, table, s, pre).crashed && !KindOf(load, raw).Fatal?
    ensures var before := ServeAll(load, table, s, pre);
      var one := ServeLine(load, table, before.state, raw);
      var after := ServeAll(load, table, one.state, post);
      ServeAll(load, table, s, pre + [raw] + post) == Session(before.out + one.out + after.out, after.state, after.crashed)
  {
    var before := ServeAll(load, table, s, pre);
    ServeInTurn(load, table, s, pre, [raw] + post);
    assert pre + [raw] + post == pre + ([raw] + post) && ([raw] + post)[1..] == post;
    var one := ServeLine(load, table, before.state, raw);
    Assoc(before.out, one.out, ServeAll(load, table, one.state, post).out);
  }

  /** Lines that come to no handler are independent of all others: exchanging one for
      another, or taking it out, changes its own part of the output and nothing else. */
  lemma InertLinesIndependent<S>(load: Loader, table: Table<S>, s: S, pre: seq<string>, raw: string, post: seq<string>)
    requires Inert(load, table, raw) && !ServeAll(load, table, s, pre).crashed
    ensures var before := ServeAll(load, table, s, pre);
      var after := ServeAll(load, table, before.state, post);
      && ServeAll(load, table, s, pre + post) == Session(before.out + after.out, after.state, after.crashed)
      && ServeAll(load, table, s, pre + [raw] + post) ==
           Session(before.out + ServeLine(load, table, before.state, raw).out + after.out, after.state, after.crashed)
  {
    ServeInTurn(load, table, s, pre, post);
    LineInContext(load, table, s, pre, raw, post);
    InertKeepsState(load, table, ServeAll(load, table, s, pre).state, raw);
  }

  /** A line that crashes the loop is not answered, and no later line is read. */
  lemma FatalEnds<S>(load: Loader, table: Table<S>, s: S, pre: seq<string>, raw: string, post: seq<string>)
    requires !ServeAll(load, table, s, pre).crashed && KindOf(load, raw).Fatal?
    ensures var before := ServeAll(load, table, s, pre);
      ServeAll(load, table, s, pre + [raw] + post) == Session(before.out, before.state, true)
  {
    ServeInTurn(load, table, s, pre, [raw] + post);
    assert pre + [raw] + post == pre + ([raw] + post);
    var before := ServeAll(load, table, s, pre);
    assert before.out + [] == before.out;
  }

  lemma {:induction false} CrashedIff<S>(load: Loader, table: Table<S>, s: S, lines: seq<string>)
    ensures ServeAll(load, table, s, lines).crashed <==> exists i | 0 <= i < |lines| :: KindOf(load, lines[i]).Fatal?
    decreases |lines|
  {
    if lines != [] && !KindOf(load, lines[0]).Fatal? {
      CrashedIff(load, table, ServeLine(load, table, s, lines[0]).state, lines[1..]);
      assert forall i | 1 <= i < |lines| :: lines[i] == lines[1..][i - 1];
    }
  }

  // ------------------------------------------------- which texts are served

  /** The digits that a text ends with. */
  function LastDigits(s: string): nat {
    if s != [] && '0' <= s[|s| - 1] <= '9' then 1 + LastDigits(s[..|s| - 1]) else 0
  }

  /** The longest run of digits in a text. */
  function LongestDigits(s: string): nat {
    if s == [] then 0
    else
      var before, here := LongestDigits(s[..|s| - 1]), LastDigits(s);
      if before > here then before else here
  }

  /** The opening brackets of a text: a bound on how deep its values nest. */
  function Openings(s: string): nat {
    if s == [] then 0
    else Openings(s[..|s| - 1]) + if s[|s| - 1] == '[' || s[|s| - 1] == '{' then 1 else 0
  }

  /** Python converts integers of at most this many digits. */
  const MAX_DIGITS: nat := 4300

  predicate Bounded(line: string, depth: nat) {
    LongestDigits(line) <= MAX_DIGITS && Openings(line) <= depth
  }

  /** A parser that raises nothing but syntax errors on bounded texts. */
  ghost predicate Dependable(load: Loader, depth: nat) {
    forall line: string :: load(line).Crash? ==> !Bounded(line, depth)
  }

  /** A parser that cannot convert a number longer than that. */
  ghost predicate RefusesLongNumbers(load: Loader) {
    forall line: string :: |line| > MAX_DIGITS && (forall i | 0 <= i < |line| :: '0' <= line[i] <= '9') ==> load(line).Crash?
  }

  /** With a dependable parser, lines with short numbers and few brackets are all served. */
  lemma BoundedLinesServed<S>(load: Loader, table: Table<S>, s: S, lines: seq<string>, depth: nat)
    requires Dependable(load, depth) && forall i | 0 <= i < |lines| :: Bounded(Strip(lines[i]), depth)
    ensures !ServeAll(load, table, s, lines).crashed
  {
    CrashedIff(load, table, s, lines);
  }

  function Ones(): string {
    seq(MAX_DIGITS + 1, _ => '1')
  }

  /** A single number of 4301 digits ends the server: nothing is answered, whatever
      lines follow. */
  lemma LongNumberEnds<S>(load: Loader, table: Table<S>, s: S, post: seq<string>)
    requires RefusesLongNumbers(load)
    ensures ServeAll(load, table, s, [Ones()] + post) == Session([], s, true)
  {
    assert !IsSpace('1');
    assert Strip(Ones()) == Ones();
    assert load(Ones()).Crash?;
    assert ([Ones()] + post)[0] == Ones();
  }

  // -------------------------------------------------------------------- object

  class Server<S> {
    var handlers: Table<S>
    var state: S
    var written: seq<Output>

    constructor (state: S)
      ensures handlers == map[] && this.state == state && written == []
    {
      this.handlers, this.state, this.written := map[], state, [];
    }

    method Register(name: string, entry: Entry<S>)
      modifies this`handlers
      ensures handlers == old(handlers)[name := entry]
    {
      handlers := handlers[name := entry];
    }

    method WriteNotes(notes: seq<Note>)
      modifies this`written
      ensures written == old(written) + Streamed(notes)
    {
      var n := 0;
      while n < |notes|
        invariant 0 <= n <= |notes|
        invariant written == old(written) + Streamed(notes)[..n]
      {
        written := written + [Notification(notes[n].name, notes[n].params)];
        assert Streamed(notes)[..n + 1] == Streamed(notes)[..n] + [Streamed(notes)[n]];
        n := n + 1;
      }
      assert Streamed(notes)[..n] == Streamed(notes);
    }

    /** `serve`: the loop over the lines; `crashed` when an exception leaves it. */
    method Serve(load: Loader, lines: seq<string>) returns (crashed: bool)
      modifies this`written, this`state
      ensures var session := ServeAll(load, handlers, old(state), lines);
        written == old(written) + session.out && state == session.state && crashed == session.crashed
    {
      var n := 0;
      ghost var out: seq<Output> := [];
      while n < |lines|
        invariant 0 <= n <= |lines|
        invariant written == old(written) + out
        invariant ServeAll(load, handlers, old(state), lines) ==
          After(LineRun(out, state), ServeAll(load, handlers, state, lines[n..]))
      {
        assert lines[n..][0] == lines[n] && lines[n..][1..] == lines[n + 1..];
        ghost var one := ServeLine(load, handlers, state, lines[n]);
        ghost var rest := ServeAll(load, handlers, one.state, lines[n + 1..]);
        Assoc(out, one.out, rest.out);
        Assoc(old(written), out, one.out);
        crashed := TakeLine(load, lines[n]);
        if crashed {
          assert out + [] == out;
          return true;
        }
        out := out + one.out;
        n := n + 1;
      }
      assert out + [] == out;
      return false;
    }

    method TakeLine(load: Loader, raw: string) returns (crashed: bool)
      modifies this`written, this`state
      ensures crashed <==> KindOf(load, raw).Fatal?
      ensures var one := ServeLine(load, handlers, old(state), raw);
        written == old(written) + one.out && state == one.state
    {
      var line := Strip(raw);
      if line == "" {
        return false;
      }
      var loaded := load(line);
      if loaded.Crash? {
        return true;
      }
      if loaded.SyntaxError? {
        written := written + [Error(Null, PARSE_ERROR)];
        return false;
      }
      var validated := Validate(loaded.json);
      if validated.Invalid? {
        written := written + [Error(Null, INVALID_REQUEST)];
        return false;
      }
      var request := validated.request;
      var run := Call(handlers, state, request.name, request.params);
      state := run.state;
      WriteNotes(run.notes);
      if request.id.None? {
        return false;
      }
      written := written + [Respond(request.id.value, run.end)];
      return false;
    }
  }
}
