/** The queue in the form of its source: an object that replays the ledger in loops
    and appends what it decides. */
module HitlStore {
  import opened Text
  import opened Json
  import opened IntentBinding
  import opened Ledger
  import opened Pauses
  import opened HitlLog
  import opened Hitl

  // ------------------------------------------- replay over the selected rows

  lemma {:induction false} LatestSelected(rows: seq<Row>, id: string)
    ensures Latest(LogOf(Select(rows, ByTypeAll(CREATED))), None, id) == Latest(LogOf(rows), None, id)
  {
    if rows != [] {
      var init, last := rows[..|rows| - 1], rows[|rows| - 1];
      LatestSelected(init, id);
      TakeLast(rows);
      LogAppend(init, last);
      LogAppend(Select(init, ByTypeAll(CREATED)), last);
      if last.eventType == CREATED {
        LatestNext(LogOf(init), NoteOf(last), LogOf(Select(init, ByTypeAll(CREATED))), id);
      } else {
        LatestAppend(LogOf(init), NoteOf(last), None, id);
      }
    }
  }

  lemma LatestNext(log: Log, note: Note, other: Log, id: string)
    requires Latest(log, None, id) == Latest(other, None, id)
    ensures Latest(log + [note], None, id) == Latest(other + [note], None, id)
  {
    assert (log + [note])[..|log|] == log && (other + [note])[..|other|] == other;
  }

  lemma ResolvedNext(log: Log, note: Note, other: Log, id: string)
    requires FirstResolved(log, id) == FirstResolved(other, id)
    ensures FirstResolved(log + [note], id) == FirstResolved(other + [note], id)
    ensures !note.Decided? ==> FirstResolved(log + [note], id) == FirstResolved(log, id)
  {
    assert (log + [note])[..|log|] == log && (other + [note])[..|other|] == other;
  }

  lemma {:induction false} ResolvedSelected(rows: seq<Row>, id: string)
    ensures FirstResolved(LogOf(Select(rows, ByTypeAll(DECIDED))), id) == FirstResolved(LogOf(rows), id)
  {
    if rows != [] {
      var init, last := rows[..|rows| - 1], rows[|rows| - 1];
      ResolvedSelected(init, id);
      TakeLast(rows);
      LogAppend(init, last);
      LogAppend(Select(init, ByTypeAll(DECIDED)), last);
      ResolvedNext(LogOf(init), NoteOf(last), LogOf(Select(init, ByTypeAll(DECIDED))), id);
    }
  }

  lemma BoardNext(log: Log, note: Note, other: Log, tenantId: string)
    requires Board(log, tenantId) == Board(other, tenantId)
    ensures Board(log + [note], tenantId) == Board(other + [note], tenantId)
    ensures !note.Created? || note.tenantId != tenantId ==> Board(log + [note], tenantId) == Board(log, tenantId)
  {
    assert (log + [note])[..|log|] == log && (other + [note])[..|other|] == other;
  }

  lemma {:induction false} BoardSelected(rows: seq<Row>, tenantId: string)
    ensures Board(LogOf(Select(rows, ByType(tenantId, CREATED))), tenantId) == Board(LogOf(rows), tenantId)
  {
    if rows != [] {
      var init, last := rows[..|rows| - 1], rows[|rows| - 1];
      BoardSelected(init, tenantId);
      TakeLast(rows);
      LogAppend(init, last);
      LogAppend(Select(init, ByType(tenantId, CREATED)), last);
      BoardNext(LogOf(init), NoteOf(last), LogOf(Select(init, ByType(tenantId, CREATED))), tenantId);
    }
  }

  /** Once a record does not validate, later records do not mend it. */
  lemma {:induction false} CorruptStays(log: Log, n: nat, scope: Option<string>, id: string)
    requires n <= |log|
    ensures Latest(log[..n], scope, id).Corrupt? ==> Latest(log, scope, id).Corrupt?
    ensures FirstResolved(log[..n], id).Some? ==> FirstResolved(log, id) == FirstResolved(log[..n], id)
  {
    if n == |log| {
      assert log[..n] == log;
    } else {
      CorruptStays(log[..|log| - 1], n, scope, id);
      assert log[..|log| - 1][..n] == log[..n];
    }
  }

  lemma {:induction false} BoardStaysBroken(log: Log, n: nat, tenantId: string)
    requires n <= |log|
    ensures Board(log[..n], tenantId).None? ==> Board(log, tenantId).None?
  {
    if n == |log| {
      assert log[..n] == log;
    } else {
      BoardStaysBroken(log[..|log| - 1], n, tenantId);
      assert log[..|log| - 1][..n] == log[..n];
    }
  }

  lemma {:induction false} LogPrefix(rows: seq<Row>, n: nat)
    requires n <= |rows|
    ensures LogOf(rows)[..n] == LogOf(rows[..n])
  {
    if n == |rows| {
      assert rows[..n] == rows;
    } else {
      LogPrefix(rows[..|rows| - 1], n);
      assert rows[..|rows| - 1][..n] == rows[..n];
    }
  }

  // -------------------------------------------------- what leaves the listing

  /** The ids that the records name. */
  function Named(rows: seq<Row>): set<string> {
    if rows == [] then {}
    else
      var rest, id := Named(rows[..|rows| - 1]), IdOf(rows[|rows| - 1].payload);
      if id.Some? then rest + {id.value} else rest
  }

  function GoneIds(rows: seq<Row>, tenantId: string): set<string> {
    Named(Select(rows, ByType(tenantId, DECIDED))) + Named(Select(rows, ByType(tenantId, EXPIRED)))
  }

  lemma NamedAppend(rows: seq<Row>, row: Row)
    ensures Named(rows + [row]) == Named(rows) + if IdOf(row.payload).Some? then {IdOf(row.payload).value} else {}
  {
    assert (rows + [row])[..|rows|] == rows;
  }

  lemma GoneAppend(log: Log, note: Note, tenantId: string, id: string)
    ensures Gone(log + [note], tenantId, id) <==>
      Gone(log, tenantId, id) || ((note.Decided? || note.Lapsed?) && note.tenantId == tenantId && About(note, id))
  {
    var longer := log + [note];
    assert longer[|log|] == note;
    assert forall i | 0 <= i < |log| :: longer[i] == log[i];
  }

  lemma GoneIdsAppend(rows: seq<Row>, row: Row, tenantId: string, id: string)
    ensures id in GoneIds(rows + [row], tenantId) <==>
      || id in GoneIds(rows, tenantId)
      || (row.tenantId == tenantId && (row.eventType == DECIDED || row.eventType == EXPIRED) && IdOf(row.payload) == Some(id))
  {
    SelectAppend(rows, row, ByType(tenantId, DECIDED));
    SelectAppend(rows, row, ByType(tenantId, EXPIRED));
    NamedAppend(Select(rows, ByType(tenantId, DECIDED)), row);
    NamedAppend(Select(rows, ByType(tenantId, EXPIRED)), row);
  }

  lemma {:induction false} GoneIs(rows: seq<Row>, tenantId: string, id: string)
    ensures Gone(LogOf(rows), tenantId, id) <==> id in GoneIds(rows, tenantId)
  {
    if rows != [] {
      var init, last := rows[..|rows| - 1], rows[|rows| - 1];
      GoneIs(init, tenantId, id);
      TakeLast(rows);
      LogAppend(init, last);
      GoneAppend(LogOf(init), NoteOf(last), tenantId, id);
      GoneIdsAppend(init, last, tenantId, id);
    }
  }

  /** The pauses whose ids are not in `gone`. */
  function Without(ps: seq<Pause>, gone: set<string>): seq<Pause> {
    if ps == [] then []
    else
      var rest, p := Without(ps[..|ps| - 1], gone), ps[|ps| - 1];
      if p.pauseId in gone then rest else rest + [p]
  }

  lemma WithoutAppend(ps: seq<Pause>, p: Pause, gone: set<string>)
    ensures Without(ps + [p], gone) == if p.pauseId in gone then Without(ps, gone) else Without(ps, gone) + [p]
  {
    assert (ps + [p])[..|ps|] == ps;
  }

  lemma {:induction false} WithoutNothing(ps: seq<Pause>)
    ensures Without(ps, {}) == ps
  {
    if ps != [] {
      WithoutNothing(ps[..|ps| - 1]);
    }
  }

  /** `d.pop(id, None)` after the pops of `gone`. */
  lemma {:induction false} WithoutOneMore(ps: seq<Pause>, gone: set<string>, id: string)
    ensures Without(Without(ps, gone), {id}) == Without(ps, gone + {id})
  {
    if ps != [] {
      var init, p := ps[..|ps| - 1], ps[|ps| - 1];
      WithoutOneMore(init, gone, id);
      WithoutAppend(Without(init, gone), p, {id});
    }
  }

  function StillPending(ps: seq<Pause>): seq<Pause> {
    if ps == [] then []
    else
      var rest, p := StillPending(ps[..|ps| - 1]), ps[|ps| - 1];
      if p.status == HitlStatus.Pending then rest + [p] else rest
  }

  lemma {:induction false} PoppedThenPending(ps: seq<Pause>, rows: seq<Row>, tenantId: string)
    ensures StillPending(Without(ps, GoneIds(rows, tenantId))) == StillOpen(ps, LogOf(rows), tenantId)
  {
    if ps != [] {
      var init, p := ps[..|ps| - 1], ps[|ps| - 1];
      PoppedThenPending(init, rows, tenantId);
      GoneIs(rows, tenantId, p.pauseId);
      var kept := Without(init, GoneIds(rows, tenantId));
      assert (kept + [p])[..|kept|] == kept;
    }
  }

  lemma Popped(board: seq<Pause>, rows: seq<Row>, tenantId: string, decided: seq<Row>, expired: seq<Row>)
    requires decided == Select(rows, ByType(tenantId, DECIDED)) && expired == Select(rows, ByType(tenantId, EXPIRED))
    ensures StillPending(Without(board, {} + Named(decided) + Named(expired))) == StillOpen(board, LogOf(rows), tenantId)
  {
    assert {} + Named(decided) + Named(expired) == GoneIds(rows, tenantId);
    PoppedThenPending(board, rows, tenantId);
  }

  // -------------------------------------------------------------------- object

  datatype Decision = Sealed(intent: Intent) | Refused(verdict: Verdict) | DuplicateEvent

  /** A decision that should append but brings a taken event id changes nothing. */
  function Answer(verdict: Verdict, taken: bool, actor: string, now: int, intentId: string): Decision {
    match verdict
    case Late(_) => if taken then DuplicateEvent else Refused(verdict)
    case Open(pause) => if taken then DuplicateEvent else Sealed(SealedIntent(pause, actor, now, intentId))
    case _ => Refused(verdict)
  }

  class HitlStore {
    const ledger: EventLedger

    constructor (ledger: EventLedger)
      ensures this.ledger == ledger
    {
      this.ledger := ledger;
    }

    method Create(pause: Pause, eventId: EventId, stamp: int) returns (created: bool)
      modifies ledger
      ensures created == !Taken(old(ledger.rows), eventId)
      ensures ledger.rows == Apply(ledger.hash, old(ledger.rows), Op.Create(pause, eventId, stamp))
    {
      var record := ledger.Append(BuildEvent(ledger.hash, eventId, stamp, CREATED, pause.tenant, Dump(pause)));
      created := record.Some?;
    }

    /** The last created record of the id, unless a decided record resolves it. */
    method LoadPause(id: string) returns (loaded: Loaded)
      ensures loaded == Load(LogOf(ledger.rows), id)
    {
      LatestSelected(ledger.rows, id);
      ResolvedSelected(ledger.rows, id);
      var created := ledger.Find(ByTypeAll(CREATED));
      var latest: Option<Pause> := None;
      var n := 0;
      while n < |created|
        invariant 0 <= n <= |created|
        invariant Latest(LogOf(created[..n]), None, id) == if latest.None? then Unknown else Found(latest.value)
      {
        CreatedOnly(ledger.rows, created, n);
        LatestTurn(created, n, id);
        if IdOf(created[n].payload) == Some(id) {
          latest := Parse(created[n].payload);
          if latest.None? {
            return Corrupt;
          }
        }
        n := n + 1;
      }
      assert created[..n] == created;
      if latest.None? {
        return Unknown;
      }
      loaded := LoadResolution(id, latest.value);
    }

    /** The first decided record with a resolved pause, else the pause as created. */
    method LoadResolution(id: string, latest: Pause) returns (loaded: Loaded)
      ensures var resolved := FirstResolved(LogOf(ledger.rows), id);
        loaded == if resolved.Some? then resolved.value else Found(latest)
    {
      ResolvedSelected(ledger.rows, id);
      var decided := ledger.Find(ByTypeAll(DECIDED));
      var n := 0;
      while n < |decided|
        invariant 0 <= n <= |decided|
        invariant FirstResolved(LogOf(decided[..n]), id).None?
      {
        DecidedOnly(ledger.rows, decided, n);
        ResolvedTurn(decided, n, id);
        if IdOf(decided[n].payload) == Some(id) {
          var resolved := Lookup(decided[n].payload, "resolved");
          if resolved.Some? && resolved.value.Obj? {
            var pause := Parse(resolved.value.members);
            return if pause.None? then Corrupt else Found(pause.value);
          }
        }
        n := n + 1;
      }
      assert decided[..n] == decided;
      return Found(latest);
    }

    /** Check and append: the caller holds the ledger's lock throughout. */
    method Decide(id: string, choice: Choice, actor: string, now: int, intentId: string, eventId: EventId, stamp: int)
      returns (decision: Decision)
      modifies ledger
      ensures ledger.rows ==
        Apply(ledger.hash, old(ledger.rows), Op.Decide(id, choice, actor, now, intentId, eventId, stamp))
      ensures decision == Answer(Judge(LogOf(old(ledger.rows)), id, actor, now), Taken(old(ledger.rows), eventId), actor, now, intentId)
    {
      var loaded := LoadPause(id);
      ghost var verdict := Judge(LogOf(ledger.rows), id, actor, now);
      match loaded {
        case Unknown => return Refused(UnknownPause);
        case Corrupt => return Refused(CorruptRecord);
        case Found(pause) =>
          if pause.status != HitlStatus.Pending {
            return Refused(NotPending(pause.status));
          }
          if pause.IsExpired(now) {
            assert verdict == Late(pause);
            var lapsed := ledger.Append(BuildEvent(ledger.hash, eventId, stamp, EXPIRED, pause.tenant, LapsedPayload(id)));
            return if lapsed.Some? then Refused(Late(pause)) else DuplicateEvent;
          }
          if !ValidActor(actor) {
            return Refused(InvalidActor);
          }
          assert verdict == Open(pause);
          var record := ledger.Append(
            BuildEvent(ledger.hash, eventId, stamp, DECIDED, pause.tenant, DecidedPayload(pause, id, choice, actor, now, intentId)));
          return if record.Some? then Sealed(SealedIntent(pause, actor, now, intentId)) else DuplicateEvent;
      }
    }

    /** The created pauses by id; `None` when a record does not validate. */
    method LoadBoard(tenantId: string) returns (board: Option<seq<Pause>>)
      ensures board == Board(LogOf(ledger.rows), tenantId)
    {
      BoardSelected(ledger.rows, tenantId);
      var created := ledger.Find(ByType(tenantId, CREATED));
      var pauses: seq<Pause> := [];
      var n := 0;
      while n < |created|
        invariant 0 <= n <= |created|
        invariant Board(LogOf(created[..n]), tenantId) == Some(pauses)
      {
        TenantCreatedOnly(ledger.rows, created, n, tenantId);
        BoardTurn(created, n, tenantId);
        var pause := Parse(created[n].payload);
        if pause.None? {
          return None;
        }
        pauses := Place(pauses, pause.value);
        n := n + 1;
      }
      assert created[..n] == created;
      return Some(pauses);
    }

    method ListPending(tenantId: string) returns (pending: Option<seq<Pause>>)
      ensures pending == Listed(LogOf(ledger.rows), tenantId)
    {
      var loaded := LoadBoard(tenantId);
      if loaded.None? {
        return None;
      }
      var board := loaded.value;
      var pauses := board;
      WithoutNothing(board);
      var decided := ledger.Find(ByType(tenantId, DECIDED));
      pauses := PopAll(board, {}, pauses, decided);
      var expired := ledger.Find(ByType(tenantId, EXPIRED));
      pauses := PopAll(board, {} + Named(decided), pauses, expired);
      Popped(board, ledger.rows, tenantId, decided, expired);
      return Some(Arrange(StillPending(pauses)));
    }

    /** Pop the id of every record. */
    method PopAll(ghost board: seq<Pause>, ghost gone: set<string>, pauses: seq<Pause>, records: seq<Row>)
      returns (kept: seq<Pause>)
      requires pauses == Without(board, gone)
      ensures kept == Without(board, gone + Named(records))
    {
      kept := pauses;
      var n := 0;
      assert gone + {} == gone;
      while n < |records|
        invariant 0 <= n <= |records|
        invariant kept == Without(board, gone + Named(records[..n]))
      {
        TakeNext(records, n);
        NamedAppend(records[..n], records[n]);
        var id := IdOf(records[n].payload);
        if id.Some? {
          WithoutOneMore(board, gone + Named(records[..n]), id.value);
          assert gone + Named(records[..n]) + {id.value} == gone + Named(records[..n + 1]);
          kept := Without(kept, {id.value});
        }
        n := n + 1;
      }
      assert records[..n] == records;
    }
  }

  lemma {:induction false} CreatedOnly(rows: seq<Row>, created: seq<Row>, n: nat)
    requires created == Select(rows, ByTypeAll(CREATED)) && n < |created|
    ensures created[n].eventType == CREATED
  {
    SelectIs(rows, ByTypeAll(CREATED), created[n]);
  }

  lemma {:induction false} DecidedOnly(rows: seq<Row>, decided: seq<Row>, n: nat)
    requires decided == Select(rows, ByTypeAll(DECIDED)) && n < |decided|
    ensures decided[n].eventType == DECIDED
  {
    SelectIs(rows, ByTypeAll(DECIDED), decided[n]);
  }

  lemma {:induction false} TenantCreatedOnly(rows: seq<Row>, created: seq<Row>, n: nat, tenantId: string)
    requires created == Select(rows, ByType(tenantId, CREATED)) && n < |created|
    ensures created[n].eventType == CREATED && created[n].tenantId == tenantId
  {
    SelectIs(rows, ByType(tenantId, CREATED), created[n]);
  }

  lemma LatestLast(log: Log, note: Note, id: string)
    requires note.Created? && !Latest(log, None, id).Corrupt?
    ensures Latest(log + [note], None, id) ==
      if !About(note, id) then Latest(log, None, id) else if note.pause.None? then Corrupt else Found(note.pause.value)
  {
    assert (log + [note])[..|log|] == log;
  }

  lemma ResolvedLast(log: Log, note: Note, id: string)
    requires note.Decided? && FirstResolved(log, id).None?
    ensures FirstResolved(log + [note], id) ==
      if !About(note, id) || note.outcome.Nothing? then None
      else Some(if note.outcome.Unreadable? then Corrupt else Found(note.outcome.pause))
  {
    assert (log + [note])[..|log|] == log;
  }

  lemma BoardLast(log: Log, note: Note, tenantId: string)
    requires note.Created? && note.tenantId == tenantId && Board(log, tenantId).Some?
    ensures Board(log + [note], tenantId) ==
      if note.pause.None? then None else Some(Place(Board(log, tenantId).value, note.pause.value))
  {
    assert (log + [note])[..|log|] == log;
  }

  /** One turn of each replay loop: what the next row does to the answer so far, and
      to the final answer when the loop stops there. */
  lemma {:induction false} LatestTurn(created: seq<Row>, n: nat, id: string)
    requires n < |created| && created[n].eventType == CREATED
    requires !Latest(LogOf(created[..n]), None, id).Corrupt?
    ensures var row, pause := created[n], Parse(created[n].payload);
      if IdOf(row.payload) != Some(id) then
        Latest(LogOf(created[..n + 1]), None, id) == Latest(LogOf(created[..n]), None, id)
      else if pause.None? then Latest(LogOf(created), None, id).Corrupt?
      else Latest(LogOf(created[..n + 1]), None, id) == Found(pause.value)
  {
    TakeNext(created, n);
    LogAppend(created[..n], created[n]);
    LatestLast(LogOf(created[..n]), NoteOf(created[n]), id);
    LogPrefix(created, n + 1);
    CorruptStays(LogOf(created), n + 1, None, id);
  }

  lemma {:induction false} ResolvedTurn(decided: seq<Row>, n: nat, id: string)
    requires n < |decided| && decided[n].eventType == DECIDED
    requires FirstResolved(LogOf(decided[..n]), id).None?
    ensures var row, outcome := decided[n], OutcomeOf(Lookup(decided[n].payload, "resolved"));
      if IdOf(row.payload) != Some(id) || outcome.Nothing? then FirstResolved(LogOf(decided[..n + 1]), id).None?
      else FirstResolved(LogOf(decided), id) == Some(if outcome.Unreadable? then Corrupt else Found(outcome.pause))
  {
    TakeNext(decided, n);
    LogAppend(decided[..n], decided[n]);
    ResolvedLast(LogOf(decided[..n]), NoteOf(decided[n]), id);
    LogPrefix(decided, n + 1);
    CorruptStays(LogOf(decided), n + 1, None, id);
  }

  lemma {:induction false} BoardTurn(created: seq<Row>, n: nat, tenantId: string)
    requires n < |created| && created[n].eventType == CREATED && created[n].tenantId == tenantId
    requires Board(LogOf(created[..n]), tenantId).Some?
    ensures var pause := Parse(created[n].payload);
      if pause.None? then Board(LogOf(created), tenantId).None?
      else Board(LogOf(created[..n + 1]), tenantId) == Some(Place(Board(LogOf(created[..n]), tenantId).value, pause.value))
  {
    TakeNext(created, n);
    LogAppend(created[..n], created[n]);
    BoardLast(LogOf(created[..n]), NoteOf(created[n]), tenantId);
    LogPrefix(created, n + 1);
    BoardStaysBroken(LogOf(created), n + 1, tenantId);
  }
}
