/** A pause that expires, leaves the list, and is decided all the same once the
    clock is set back. */
module HitlWitness {
  import opened Text
  import opened IntentBinding
  import opened Ledger
  import opened Pauses
  import opened HitlLog
  import opened Hitl

  function Id(c: char): EventId {
    seq(ID_WIDTH, _ => c)
  }

  /** A pause from time 0 to time 10. */
  function Brief(): Pause {
    Pause(Id('p'), Tenant("demo", None, None), "mail.send", Zeros(), HitlStatus.Pending, 0, 10, None, None)
  }

  function Asked(): Op {
    Create(Brief(), Id('a'), 0)
  }

  function TooLate(): Op {
    Decide(Id('p'), Approve, "ann", 10, "first", Id('b'), 10)
  }

  function SetBack(): Op {
    Decide(Id('p'), Approve, "ann", 9, "second", Id('c'), 9)
  }

  function Waits(): Log {
    [CreatedNote(Brief())]
  }

  function TimedOut(): Log {
    [CreatedNote(Brief()), Lapsed("demo", Some(Id('p')))]
  }

  lemma BriefIsLate()
    ensures Sound(Waits(), 0) && Judge(Waits(), Id('p'), "ann", 10) == Late(Brief())
  {
    assert Waits()[..0] == [];
    assert Latest([], None, Id('p')).Unknown?;
    CreateKeepsSound([], 0, Brief());
    assert [] + [CreatedNote(Brief())] == Waits();
  }

  lemma BriefIsReopened()
    ensures !IsListed(TimedOut(), Brief()) && Judge(TimedOut(), Id('p'), "ann", 9) == Open(Brief())
  {
    BriefIsLate();
    ClockRollback(Waits(), 0, Id('p'), Approve, "ann", 10, 9, Brief());
    assert Waits() + DecideNotes(Waits(), Id('p'), Approve, "ann", 10) == TimedOut();
  }

  lemma TakenAppend(rows: seq<Row>, row: Row, id: EventId)
    ensures Taken(rows + [row], id) <==> Taken(rows, id) || row.eventId == id
  {
    assert (rows + [row])[|rows|] == row;
    assert forall i | 0 <= i < |rows| :: (rows + [row])[i] == rows[i];
  }

  /** An operation whose event id is new takes that id and no other. */
  lemma {:induction false} TakesItsId(hash: Hash, rows: seq<Row>, op: Op, other: EventId)
    requires !Refused(hash, rows, op) && EventOf(hash, LogOf(rows), op).Some?
    ensures Taken(Apply(hash, rows, op), other) <==>
      Taken(rows, other) || EventOf(hash, LogOf(rows), op).value.eventId == other
  {
    TakenAppend(rows, NewRow(hash, rows, EventOf(hash, LogOf(rows), op).value), other);
  }

  lemma IdsDiffer(c: char, d: char)
    requires c != d
    ensures Id(c) != Id(d)
  {
    assert Id(c)[0] != Id(d)[0];
  }

  lemma {:induction false} RollbackStarts(hash: Hash)
    ensures var rows := Apply(hash, [], Asked());
      LogOf(rows) == Waits() && !Taken(rows, Id('b')) && !Taken(rows, Id('c'))
  {
    IdsDiffer('a', 'b');
    IdsDiffer('a', 'c');
    ApplyLog(hash, [], Asked());
    TakesItsId(hash, [], Asked(), Id('b'));
    TakesItsId(hash, [], Asked(), Id('c'));
    assert [] + [CreatedNote(Brief())] == Waits();
  }

  lemma LateAppends(hash: Hash, rows: seq<Row>, op: Op)
    requires LogOf(rows) == Waits() && op.Decide? && op.pauseId == Id('p') && op.actor == "ann" && op.now == 10
    requires !Taken(rows, op.eventId)
    ensures LogOf(Apply(hash, rows, op)) == TimedOut()
  {
    BriefIsLate();
    ApplyLog(hash, rows, op);
    assert NotesOf(LogOf(rows), op) == [Lapsed("demo", Some(Id('p')))];
    TimedOutIs();
  }

  lemma LateEvent(hash: Hash)
    ensures var event := EventOf(hash, Waits(), TooLate()); event.Some? && event.value.eventId == Id('b')
  {
    BriefIsLate();
  }

  lemma {:induction false} RollbackExpires(hash: Hash, rows: seq<Row>)
    requires LogOf(rows) == Waits() && !Taken(rows, Id('b')) && !Taken(rows, Id('c'))
    ensures var after := Apply(hash, rows, TooLate()); LogOf(after) == TimedOut() && !Taken(after, Id('c'))
  {
    IdsDiffer('b', 'c');
    LateEvent(hash);
    LateAppends(hash, rows, TooLate());
    TakesItsId(hash, rows, TooLate(), Id('c'));
  }

  lemma TimedOutIs()
    ensures Waits() + [Lapsed("demo", Some(Id('p')))] == TimedOut()
  {
  }

  lemma {:induction false} RollbackDecides(hash: Hash, rows: seq<Row>)
    requires LogOf(rows) == TimedOut() && !Taken(rows, Id('c'))
    ensures LogOf(Apply(hash, rows, SetBack())) == TimedOut() + [DecidedNote(Brief(), Id('p'), Approve, "ann", 9)]
  {
    BriefIsReopened();
    ApplyLog(hash, rows, SetBack());
  }

  lemma {:induction false} ApplyInTurn(hash: Hash, a: Op, b: Op, c: Op)
    ensures ApplyAll(hash, [a, b]) == Apply(hash, Apply(hash, [], a), b)
    ensures ApplyAll(hash, [a, b, c]) == Apply(hash, ApplyAll(hash, [a, b]), c)
  {
    assert [] + [a] == [a] && [a] + [b] == [a, b] && [a, b] + [c] == [a, b, c];
    ApplyNext(hash, [], a);
    ApplyNext(hash, [a], b);
    ApplyNext(hash, [a, b], c);
  }

  /** A run of three operations: the pause expires on a late decision, leaves the
      list, and is decided all the same once the clock is set back. */
  lemma RollbackRun(hash: Hash)
    ensures LogOf(ApplyAll(hash, [Asked(), TooLate()])) == TimedOut() && !IsListed(TimedOut(), Brief())
    ensures LogOf(ApplyAll(hash, [Asked(), TooLate(), SetBack()])) ==
      TimedOut() + [DecidedNote(Brief(), Id('p'), Approve, "ann", 9)]
  {
    ApplyInTurn(hash, Asked(), TooLate(), SetBack());
    RollbackStarts(hash);
    RollbackExpires(hash, Apply(hash, [], Asked()));
    RollbackDecides(hash, ApplyAll(hash, [Asked(), TooLate()]));
    BriefIsReopened();
  }
}
