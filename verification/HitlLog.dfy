/** The queue of paused effects as a log of notes: what each ledger row says about
    pauses. A pause has no state of its own; loading and listing replay the log. */
module HitlLog {
  import opened Text
  import opened Pauses

  /** What a decided record says of the resolved pause: nothing, something that does
      not validate, or a pause. */
  datatype Outcome = Nothing | Unreadable | Readable(pause: Pause)

  datatype RawNote =
    | Created(tenantId: string, id: Option<string>, pause: Option<Pause>)
    | Decided(tenantId: string, id: Option<string>, outcome: Outcome, at: Option<int>)
    | Lapsed(tenantId: string, id: Option<string>)
    | Unrelated(tenantId: string)

  /** A created record that validates is filed under its own id. */
  type Note = n: RawNote | n.Created? && n.pause.Some? ==> n.id == Some(n.pause.value.pauseId)
    witness Unrelated("")

  type Log = seq<Note>

  predicate About(n: Note, id: string) {
    !n.Unrelated? && n.id == Some(id)
  }

  // ------------------------------------------------------------------- loading

  datatype Loaded = Unknown | Corrupt | Found(pause: Pause)

  /** The last created record with the id; `scope` narrows the search to a tenant. */
  function Latest(log: Log, scope: Option<string>, id: string): Loaded {
    if log == [] then Unknown
    else
      var before, last := Latest(log[..|log| - 1], scope, id), log[|log| - 1];
      if before.Corrupt? || !last.Created? || !About(last, id) || (scope.Some? && last.tenantId != scope.value) then before
      else if last.pause.None? then Corrupt
      else Found(last.pause.value)
  }

  /** The first decided record with the id that carries a resolved pause. */
  function FirstResolved(log: Log, id: string): Option<Loaded> {
    if log == [] then None
    else
      var before, last := FirstResolved(log[..|log| - 1], id), log[|log| - 1];
      if before.Some? || !last.Decided? || !About(last, id) || last.outcome.Nothing? then before
      else Some(if last.outcome.Unreadable? then Corrupt else Found(last.outcome.pause))
  }

  /** The pause as a decision sees it. Lapsed records are not consulted. */
  function Load(log: Log, id: string): Loaded {
    var created, resolved := Latest(log, None, id), FirstResolved(log, id);
    if created.Found? && resolved.Some? then resolved.value else created
  }

  // ------------------------------------------------------------------ deciding

  datatype Verdict =
    | UnknownPause
    | CorruptRecord
    | NotPending(status: HitlStatus)
    | Late(overdue: Pause)
    | InvalidActor
    | Open(pause: Pause)

  function Assess(loaded: Loaded, actor: string, now: int): Verdict {
    match loaded
    case Unknown => UnknownPause
    case Corrupt => CorruptRecord
    case Found(p) =>
      if p.status != HitlStatus.Pending then NotPending(p.status)
      else if p.IsExpired(now) then Late(p)
      else if !ValidActor(actor) then InvalidActor
      else Open(p)
  }

  function Judge(log: Log, id: string, actor: string, now: int): Verdict {
    Assess(Load(log, id), actor, now)
  }

  function DecidedNote(p: Pause, id: string, choice: Choice, actor: string, now: int): Note {
    var resolved := Resolve(p, choice, actor, now);
    Decided(p.tenant.tenantId, Some(id), if resolved.Valid() then Readable(resolved) else Unreadable, Some(now))
  }

  function CreatedNote(p: Pause): Note {
    Created(p.tenant.tenantId, Some(p.pauseId), if p.Valid() then Some(p) else None)
  }

  /** What a decision adds to the log. */
  function DecideNotes(log: Log, id: string, choice: Choice, actor: string, now: int): Log {
    match Judge(log, id, actor, now)
    case Late(p) => [Lapsed(p.tenant.tenantId, Some(id))]
    case Open(p) => [DecidedNote(p, id, choice, actor, now)]
    case _ => []
  }

  // ------------------------------------------------------------------- listing

  /** `d[p.pause_id] = p` on a dictionary of pauses in insertion order. */
  function Place(ps: seq<Pause>, p: Pause): seq<Pause> {
    if ps == [] then [p]
    else if ps[0].pauseId == p.pauseId then [p] + ps[1..]
    else [ps[0]] + Place(ps[1..], p)
  }

  /** A tenant's created pauses by id, later records over earlier ones; nothing when
      a record does not validate. */
  function Board(log: Log, tenantId: string): Option<seq<Pause>> {
    if log == [] then Some([])
    else
      var before, last := Board(log[..|log| - 1], tenantId), log[|log| - 1];
      if before.None? || !last.Created? || last.tenantId != tenantId then before
      else if last.pause.None? then None
      else Some(Place(before.value, last.pause.value))
  }

  predicate Gone(log: Log, tenantId: string, id: string) {
    exists i | 0 <= i < |log| ::
      (log[i].Decided? || log[i].Lapsed?) && log[i].tenantId == tenantId && About(log[i], id)
  }

  function StillOpen(ps: seq<Pause>, log: Log, tenantId: string): seq<Pause> {
    if ps == [] then []
    else
      var rest, p := StillOpen(ps[..|ps| - 1], log, tenantId), ps[|ps| - 1];
      if p.status == HitlStatus.Pending && !Gone(log, tenantId, p.pauseId) then rest + [p] else rest
  }

  /** Insertion behind everything that was created no later. */
  function Insert(ps: seq<Pause>, p: Pause): seq<Pause> {
    if ps == [] || ps[|ps| - 1].createdAt <= p.createdAt then ps + [p]
    else Insert(ps[..|ps| - 1], p) + [ps[|ps| - 1]]
  }

  /** `sorted(..., key=created_at)`. */
  function Arrange(ps: seq<Pause>): seq<Pause> {
    if ps == [] then [] else Insert(Arrange(ps[..|ps| - 1]), ps[|ps| - 1])
  }

  function Listed(log: Log, tenantId: string): Option<seq<Pause>> {
    var board := Board(log, tenantId);
    if board.None? then None else Some(Arrange(StillOpen(board.value, log, tenantId)))
  }

  // ------------------------------------------------- the order of a listing

  ghost predicate Ordered(ps: seq<Pause>) {
    forall i, j | 0 <= i < j < |ps| :: ps[i].createdAt <= ps[j].createdAt
  }

  /** The pauses created at one moment, in order. */
  function CreatedAt(ps: seq<Pause>, time: int): seq<Pause> {
    if ps == [] then []
    else
      var rest, p := CreatedAt(ps[..|ps| - 1], time), ps[|ps| - 1];
      if p.createdAt == time then rest + [p] else rest
  }

  lemma {:induction false} InsertMultiset(ps: seq<Pause>, p: Pause)
    ensures multiset(Insert(ps, p)) == multiset(ps) + multiset{p}
  {
    if ps != [] && ps[|ps| - 1].createdAt > p.createdAt {
      InsertMultiset(ps[..|ps| - 1], p);
      TakeLast(ps);
    }
  }

  lemma {:induction false} InsertOrdered(ps: seq<Pause>, p: Pause)
    requires Ordered(ps)
    ensures Ordered(Insert(ps, p))
  {
    if ps != [] && ps[|ps| - 1].createdAt > p.createdAt {
      var init, last := ps[..|ps| - 1], ps[|ps| - 1];
      InsertOrdered(init, p);
      InsertMultiset(init, p);
      var inserted := Insert(init, p);
      forall i | 0 <= i < |inserted|
        ensures inserted[i].createdAt <= last.createdAt
      {
        assert inserted[i] in multiset(inserted);
      }
    }
  }

  lemma CreatedAtAppend(ps: seq<Pause>, p: Pause, time: int)
    ensures CreatedAt(ps + [p], time) == if p.createdAt == time then CreatedAt(ps, time) + [p] else CreatedAt(ps, time)
  {
    assert (ps + [p])[..|ps|] == ps;
  }

  lemma {:induction false} InsertStable(ps: seq<Pause>, p: Pause, time: int)
    requires Ordered(ps)
    ensures CreatedAt(Insert(ps, p), time) == if p.createdAt == time then CreatedAt(ps, time) + [p] else CreatedAt(ps, time)
  {
    if ps == [] || ps[|ps| - 1].createdAt <= p.createdAt {
      CreatedAtAppend(ps, p, time);
    } else {
      var init, last := ps[..|ps| - 1], ps[|ps| - 1];
      InsertStable(init, p, time);
      CreatedAtAppend(Insert(init, p), last, time);
    }
  }

  /** A listing is sorted by creation time, loses and invents nothing, and keeps the
      order of pauses that were created at the same moment. */
  lemma {:induction false} ArrangeIs(ps: seq<Pause>, time: int)
    ensures Ordered(Arrange(ps)) && multiset(Arrange(ps)) == multiset(ps)
    ensures CreatedAt(Arrange(ps), time) == CreatedAt(ps, time)
  {
    if ps != [] {
      ArrangeIs(ps[..|ps| - 1], time);
      InsertOrdered(Arrange(ps[..|ps| - 1]), ps[|ps| - 1]);
      InsertMultiset(Arrange(ps[..|ps| - 1]), ps[|ps| - 1]);
      InsertStable(Arrange(ps[..|ps| - 1]), ps[|ps| - 1], time);
      TakeLast(ps);
    }
  }

  // ------------------------------------------------- the contents of a listing

  predicate HasId(ps: seq<Pause>, id: string) {
    exists i | 0 <= i < |ps| :: ps[i].pauseId == id
  }

  ghost predicate DistinctIds(ps: seq<Pause>) {
    forall i, j | 0 <= i < j < |ps| :: ps[i].pauseId != ps[j].pauseId
  }

  lemma {:induction false} PlaceIds(ps: seq<Pause>, p: Pause, id: string)
    ensures HasId(Place(ps, p), id) <==> HasId(ps, id) || id == p.pauseId
  {
    if ps == [] {
      assert Place(ps, p)[0] == p;
    } else if ps[0].pauseId == p.pauseId {
      var placed := Place(ps, p);
      assert forall i | 0 <= i < |ps| :: placed[i].pauseId == ps[i].pauseId;
    } else {
      PlaceIds(ps[1..], p, id);
      HasIdCons(ps, id);
      HasIdCons(Place(ps, p), id);
      assert Place(ps, p)[1..] == Place(ps[1..], p);
    }
  }

  lemma HasIdCons(ps: seq<Pause>, id: string)
    requires ps != []
    ensures HasId(ps, id) <==> ps[0].pauseId == id || HasId(ps[1..], id)
  {
    if HasId(ps, id) {
      var i :| 0 <= i < |ps| && ps[i].pauseId == id;
      assert i > 0 ==> ps[1..][i - 1].pauseId == id;
    }
    if HasId(ps[1..], id) {
      var i :| 0 <= i < |ps[1..]| && ps[1..][i].pauseId == id;
      assert ps[i + 1].pauseId == id;
    }
  }

  lemma {:induction false} PlaceIs(ps: seq<Pause>, p: Pause, q: Pause)
    requires DistinctIds(ps)
    ensures DistinctIds(Place(ps, p))
    ensures q in Place(ps, p) <==> q == p || (q in ps && q.pauseId != p.pauseId)
  {
    if ps != [] && ps[0].pauseId != p.pauseId {
      PlaceIs(ps[1..], p, q);
      var placed := Place(ps[1..], p);
      PlaceIds(ps[1..], p, ps[0].pauseId);
      assert !HasId(ps[1..], ps[0].pauseId);
      assert forall i | 0 <= i < |placed| :: placed[i].pauseId != ps[0].pauseId;
    }
  }

  /** The board holds, for each id, the pause of the tenant's last record with it. */
  lemma {:induction false} BoardIs(log: Log, tenantId: string, q: Pause)
    requires Board(log, tenantId).Some?
    ensures DistinctIds(Board(log, tenantId).value)
    ensures !Latest(log, Some(tenantId), q.pauseId).Corrupt?
    ensures q in Board(log, tenantId).value <==> Latest(log, Some(tenantId), q.pauseId) == Found(q)
  {
    if log != [] {
      var init, last := log[..|log| - 1], log[|log| - 1];
      BoardIs(init, tenantId, q);
      if last.Created? && last.tenantId == tenantId {
        PlaceIs(Board(init, tenantId).value, last.pause.value, q);
      }
    }
  }

  lemma {:induction false} StillOpenIs(ps: seq<Pause>, log: Log, tenantId: string, q: Pause)
    ensures q in StillOpen(ps, log, tenantId) <==>
      q in ps && q.status == HitlStatus.Pending && !Gone(log, tenantId, q.pauseId)
  {
    if ps != [] {
      StillOpenIs(ps[..|ps| - 1], log, tenantId, q);
      TakeLast(ps);
    }
  }

  /** A pause is listed exactly when it is the tenant's last word on its id, is
      pending, and no decided or lapsed record of the tenant names it. */
  lemma ListedIff(log: Log, tenantId: string, q: Pause)
    requires Listed(log, tenantId).Some?
    ensures q in Listed(log, tenantId).value <==>
      && Latest(log, Some(tenantId), q.pauseId) == Found(q)
      && q.status == HitlStatus.Pending
      && !Gone(log, tenantId, q.pauseId)
  {
    var board := Board(log, tenantId).value;
    BoardIs(log, tenantId, q);
    StillOpenIs(board, log, tenantId, q);
    ArrangeIs(StillOpen(board, log, tenantId), 0);
    assert q in Arrange(StillOpen(board, log, tenantId)) <==> q in multiset(Arrange(StillOpen(board, log, tenantId)));
  }

  // ---------------------------------------------------------- at most one decision

  /** A decided record always bars another decision, whatever else the log holds. */
  predicate Bars(n: Note) {
    n.Decided? ==> n.id.Some? && !n.outcome.Nothing? && (n.outcome.Readable? ==> n.outcome.pause.status != HitlStatus.Pending)
  }

  ghost predicate DecidedOnce(log: Log) {
    && (forall i | 0 <= i < |log| :: Bars(log[i]))
    && forall i, j | 0 <= i < j < |log| && log[i].Decided? && log[j].Decided? :: log[i].id != log[j].id
  }

  lemma {:induction false} DecidedBars(log: Log, k: nat, id: string)
    requires k < |log| && log[k].Decided? && log[k].id == Some(id)
    requires forall i | 0 <= i < |log| :: Bars(log[i])
    ensures FirstResolved(log, id).Some?
  {
    if k < |log| - 1 {
      DecidedBars(log[..|log| - 1], k, id);
    }
  }

  lemma {:induction false} ResolvedBars(log: Log, id: string)
    requires forall i | 0 <= i < |log| :: Bars(log[i])
    ensures var r := FirstResolved(log, id);
      r.Some? ==> r.value.Corrupt? || (r.value.Found? && r.value.pause.status != HitlStatus.Pending)
  {
    if log != [] {
      ResolvedBars(log[..|log| - 1], id);
    }
  }

  lemma OpenMeansUndecided(log: Log, id: string, actor: string, now: int)
    requires DecidedOnce(log)
    requires Judge(log, id, actor, now).Open? || Judge(log, id, actor, now).Late?
    ensures forall k | 0 <= k < |log| && log[k].Decided? :: log[k].id != Some(id)
  {
    ResolvedBars(log, id);
    forall k | 0 <= k < |log| && log[k].Decided?
      ensures log[k].id != Some(id)
    {
      if log[k].id == Some(id) {
        DecidedBars(log, k, id);
      }
    }
  }

  /** A decision adds at most one decided record to an id, with no assumption on
      clocks, on fresh ids, or on what was created. */
  lemma DecideKeepsOnce(log: Log, id: string, choice: Choice, actor: string, now: int)
    requires DecidedOnce(log)
    ensures DecidedOnce(log + DecideNotes(log, id, choice, actor, now))
  {
    var verdict, after := Judge(log, id, actor, now), log + DecideNotes(log, id, choice, actor, now);
    assert forall i | 0 <= i < |log| :: after[i] == log[i];
    if verdict.Open? {
      OpenMeansUndecided(log, id, actor, now);
    }
  }

  lemma OtherKeepsOnce(log: Log, note: Note)
    requires DecidedOnce(log) && !note.Decided?
    ensures DecidedOnce(log + [note])
  {
    assert forall i | 0 <= i < |log| :: (log + [note])[i] == log[i];
  }

  // ------------------------------------------------ fresh ids and a steady clock

  /** What a note means in a log whose pauses have fresh ids and whose clock, last
      read as `clock`, never runs backwards. */
  ghost predicate NoteOk(log: Log, clock: int, n: Note) {
    n.Unrelated? || (
      && n.id.Some?
      && var latest := Latest(log, None, n.id.value);
      && latest.Found?
      && latest.pause.tenant.tenantId == n.tenantId
      && (n.Created? ==> n.pause == Some(latest.pause))
      && (n.Decided? ==> n.at.Some? && n.at.value < latest.pause.expiresAt)
      && (n.Lapsed? ==> latest.pause.expiresAt <= clock))
  }

  /** No pause is both decided and lapsed. */
  ghost predicate Exclusive(log: Log) {
    forall i, j | 0 <= i < |log| && 0 <= j < |log| && log[i].Decided? && log[j].Lapsed? :: log[i].id != log[j].id
  }

  ghost predicate Sound(log: Log, clock: int) {
    && (forall i | 0 <= i < |log| :: NoteOk(log, clock, log[i]))
    && Exclusive(log)
    && DecidedOnce(log)
  }

  lemma LatestAppend(log: Log, note: Note, scope: Option<string>, id: string)
    requires !note.Created? || !About(note, id)
    ensures Latest(log + [note], scope, id) == Latest(log, scope, id)
  {
    assert (log + [note])[..|log|] == log;
  }

  /** The notes already in the log keep their meaning. */
  lemma {:induction false} NotesStayOk(log: Log, clock: int, note: Note, clock': int)
    requires Sound(log, clock) && clock <= clock'
    requires note.Created? ==> note.id.Some? && Latest(log, None, note.id.value).Unknown?
    ensures forall i | 0 <= i < |log| :: NoteOk(log + [note], clock', log[i])
  {
    forall i | 0 <= i < |log|
      ensures NoteOk(log + [note], clock', log[i])
    {
      assert NoteOk(log, clock, log[i]);
      if !log[i].Unrelated? {
        LatestAppend(log, note, None, log[i].id.value);
      }
    }
  }

  lemma {:induction false} SoundAppend(log: Log, clock: int, note: Note, clock': int)
    requires Sound(log, clock) && clock <= clock'
    requires note.Created? ==> note.id.Some? && Latest(log, None, note.id.value).Unknown?
    requires NoteOk(log + [note], clock', note)
    requires note.Decided? ==> Bars(note) && forall i | 0 <= i < |log| :: log[i].Decided? || log[i].Lapsed? ==> log[i].id != note.id
    requires note.Lapsed? ==> forall i | 0 <= i < |log| :: log[i].Decided? ==> log[i].id != note.id
    ensures Sound(log + [note], clock')
  {
    NotesStayOk(log, clock, note, clock');
    var after := log + [note];
    assert forall i | 0 <= i < |log| :: after[i] == log[i];
    assert forall i | 0 <= i < |after| :: NoteOk(after, clock', after[i]);
    assert Exclusive(after);
    assert DecidedOnce(after);
  }

  lemma CreateKeepsSound(log: Log, clock: int, p: Pause)
    requires Sound(log, clock) && p.Valid() && Latest(log, None, p.pauseId).Unknown?
    ensures Sound(log + [CreatedNote(p)], clock)
  {
    assert (log + [CreatedNote(p)])[..|log|] == log;
    SoundAppend(log, clock, CreatedNote(p), clock);
  }

  lemma OtherKeepsSound(log: Log, clock: int, tenantId: string)
    requires Sound(log, clock)
    ensures Sound(log + [Unrelated(tenantId)], clock)
  {
    SoundAppend(log, clock, Unrelated(tenantId), clock);
  }

  lemma {:induction false} LatestId(log: Log, scope: Option<string>, id: string)
    requires Latest(log, scope, id).Found?
    ensures exists k | 0 <= k < |log| ::
      && log[k].Created? && log[k].pause == Some(Latest(log, scope, id).pause) && About(log[k], id)
      && (scope.Some? ==> log[k].tenantId == scope.value)
  {
    var init, last := log[..|log| - 1], log[|log| - 1];
    if Latest(init, scope, id) == Latest(log, scope, id) {
      LatestId(init, scope, id);
      var k :| 0 <= k < |init| && init[k].Created? && init[k].pause == Some(Latest(init, scope, id).pause) && About(init[k], id)
               && (scope.Some? ==> init[k].tenantId == scope.value);
      assert log[k] == init[k];
    }
  }

  /** A pending, undecided pause whose deadline the clock has not reached has no
      lapsed record: loading, which ignores lapsed records, misses nothing. */
  lemma OpenMeansUnlapsed(log: Log, clock: int, id: string, actor: string, now: int)
    requires Sound(log, clock) && clock <= now
    requires Judge(log, id, actor, now).Open?
    ensures forall i | 0 <= i < |log| :: log[i].Decided? || log[i].Lapsed? ==> log[i].id != Some(id)
  {
    OpenMeansUndecided(log, id, actor, now);
    ResolvedBars(log, id);
    forall i | 0 <= i < |log| && log[i].Lapsed?
      ensures log[i].id != Some(id)
    {
      assert NoteOk(log, clock, log[i]);
    }
  }

  /** A decision keeps the log sound when the clock has not run backwards. */
  lemma DecideKeepsSound(log: Log, clock: int, id: string, choice: Choice, actor: string, now: int)
    requires Sound(log, clock) && clock <= now
    ensures Sound(log + DecideNotes(log, id, choice, actor, now), now)
  {
    var verdict := Judge(log, id, actor, now);
    ResolvedBars(log, id);
    match verdict {
      case Late(p) =>
        var note: Note := Lapsed(p.tenant.tenantId, Some(id));
        OpenMeansUndecided(log, id, actor, now);
        LatestAppend(log, note, None, id);
        SoundAppend(log, clock, note, now);
      case Open(p) =>
        var note := DecidedNote(p, id, choice, actor, now);
        OpenMeansUnlapsed(log, clock, id, actor, now);
        LatestAppend(log, note, None, id);
        SoundAppend(log, clock, note, now);
      case _ =>
        assert log + [] == log;
        TimePasses(log, clock, now);
    }
  }

  lemma TimePasses(log: Log, clock: int, clock': int)
    requires Sound(log, clock) && clock <= clock'
    ensures Sound(log, clock')
  {
    forall i | 0 <= i < |log|
      ensures NoteOk(log, clock', log[i])
    {
      assert NoteOk(log, clock, log[i]);
    }
  }

  // ------------------------------------------------------------- the two views

  lemma {:induction false} BoardReadable(log: Log, tenantId: string)
    requires forall i | 0 <= i < |log| :: log[i].Created? ==> log[i].pause.Some?
    ensures Listed(log, tenantId).Some?
  {
    if log != [] {
      BoardReadable(log[..|log| - 1], tenantId);
    }
  }

  lemma {:induction false} NeverCorrupt(log: Log, scope: Option<string>, id: string)
    requires forall i | 0 <= i < |log| :: log[i].Created? ==> log[i].pause.Some?
    ensures !Latest(log, scope, id).Corrupt?
  {
    if log != [] {
      NeverCorrupt(log[..|log| - 1], scope, id);
    }
  }

  lemma {:induction false} LatestKnown(log: Log, scope: Option<string>, id: string, k: nat)
    requires forall i | 0 <= i < |log| :: log[i].Created? ==> log[i].pause.Some?
    requires k < |log| && log[k].Created? && About(log[k], id) && (scope.Some? ==> log[k].tenantId == scope.value)
    ensures Latest(log, scope, id).Found?
  {
    if k < |log| - 1 {
      LatestKnown(log[..|log| - 1], scope, id, k);
    } else {
      NeverCorrupt(log[..k], scope, id);
    }
  }

  lemma CreatedReadable(log: Log, clock: int)
    requires Sound(log, clock)
    ensures forall i | 0 <= i < |log| :: log[i].Created? ==> log[i].pause.Some?
  {
    forall i | 0 <= i < |log| && log[i].Created?
      ensures log[i].pause.Some?
    {
      assert NoteOk(log, clock, log[i]);
    }
  }

  /** With fresh ids a tenant's last word on an id is everyone's last word. */
  lemma ScopeIrrelevant(log: Log, clock: int, tenantId: string, p: Pause)
    requires Sound(log, clock)
    ensures Latest(log, Some(tenantId), p.pauseId) == Found(p) <==>
      Latest(log, None, p.pauseId) == Found(p) && p.tenant.tenantId == tenantId
  {
    CreatedReadable(log, clock);
    if Latest(log, Some(tenantId), p.pauseId).Found? {
      LatestId(log, Some(tenantId), p.pauseId);
      var k :| 0 <= k < |log| && log[k].Created? && log[k].pause == Some(Latest(log, Some(tenantId), p.pauseId).pause)
               && About(log[k], p.pauseId) && log[k].tenantId == tenantId;
      assert NoteOk(log, clock, log[k]);
    }
    if Latest(log, None, p.pauseId) == Found(p) && p.tenant.tenantId == tenantId {
      LatestId(log, None, p.pauseId);
      var k :| 0 <= k < |log| && log[k].Created? && log[k].pause == Some(p) && About(log[k], p.pauseId);
      assert NoteOk(log, clock, log[k]);
      LatestKnown(log, Some(tenantId), p.pauseId, k);
    }
  }

  lemma GoneIff(log: Log, clock: int, p: Pause)
    requires Sound(log, clock) && Latest(log, None, p.pauseId) == Found(p)
    ensures Gone(log, p.tenant.tenantId, p.pauseId) <==>
      exists i | 0 <= i < |log| :: (log[i].Decided? || log[i].Lapsed?) && About(log[i], p.pauseId)
  {
    forall i | 0 <= i < |log| && (log[i].Decided? || log[i].Lapsed?) && About(log[i], p.pauseId)
      ensures log[i].tenantId == p.tenant.tenantId
    {
      assert NoteOk(log, clock, log[i]);
    }
  }

  predicate LapsedOnLog(log: Log, id: string) {
    exists i | 0 <= i < |log| :: log[i].Lapsed? && About(log[i], id)
  }

  ghost predicate IsListed(log: Log, p: Pause) {
    var listed := Listed(log, p.tenant.tenantId);
    listed.Some? && p in listed.value
  }

  /** When deciding and listing agree, whatever the clock does: a decision opens a
      pause that is before its deadline and either listed or hidden from the list
      only by a lapsed record. */
  lemma OpenIff(log: Log, clock: int, id: string, actor: string, now: int, p: Pause)
    requires Sound(log, clock) && ValidActor(actor)
    ensures Judge(log, id, actor, now) == Open(p) <==>
      && p.pauseId == id && p.status == HitlStatus.Pending && now < p.expiresAt
      && Latest(log, None, id) == Found(p)
      && (IsListed(log, p) || LapsedOnLog(log, id))
  {
    CreatedReadable(log, clock);
    BoardReadable(log, p.tenant.tenantId);
    ListedIff(log, p.tenant.tenantId, p);
    ScopeIrrelevant(log, clock, p.tenant.tenantId, p);
    ResolvedBars(log, id);
    if Latest(log, None, id) == Found(p) {
      FoundHasId(log, None, id);
      GoneIff(log, clock, p);
      ResolvedIff(log, id);
      if LapsedOnLog(log, id) {
        LapsedUndecided(log, id);
      }
    }
  }

  lemma FoundHasId(log: Log, scope: Option<string>, id: string)
    requires Latest(log, scope, id).Found?
    ensures Latest(log, scope, id).pause.pauseId == id
  {
    LatestId(log, scope, id);
  }

  lemma {:induction false} ResolvedIff(log: Log, id: string)
    requires forall i | 0 <= i < |log| :: Bars(log[i])
    ensures FirstResolved(log, id).Some? <==> exists i | 0 <= i < |log| :: log[i].Decided? && About(log[i], id)
  {
    if log != [] {
      var init := log[..|log| - 1];
      ResolvedIff(init, id);
      assert forall i | 0 <= i < |init| :: init[i] == log[i];
      assert Bars(log[|log| - 1]);
    }
  }

  lemma LapsedUndecided(log: Log, id: string)
    requires Exclusive(log) && LapsedOnLog(log, id)
    ensures !exists i | 0 <= i < |log| :: log[i].Decided? && About(log[i], id)
  {
  }

  /** The two views of a pause agree: with a valid actor and a clock that has not run
      backwards, a decision succeeds exactly on the listed pauses that are before
      their deadline. */
  lemma TwoViews(log: Log, clock: int, id: string, actor: string, now: int, p: Pause)
    requires Sound(log, clock) && clock <= now && ValidActor(actor)
    ensures Judge(log, id, actor, now) == Open(p) <==> IsListed(log, p) && p.pauseId == id && now < p.expiresAt
  {
    OpenIff(log, clock, id, actor, now, p);
    CreatedReadable(log, clock);
    BoardReadable(log, p.tenant.tenantId);
    ListedIff(log, p.tenant.tenantId, p);
    ScopeIrrelevant(log, clock, p.tenant.tenantId, p);
    if Latest(log, None, id) == Found(p) && LapsedOnLog(log, id) {
      var i :| 0 <= i < |log| && log[i].Lapsed? && About(log[i], id);
      assert NoteOk(log, clock, log[i]);
    }
  }

  /** A decided or lapsed pause leaves the list. */
  lemma DecidedLeavesList(log: Log, clock: int, id: string, choice: Choice, actor: string, now: int, p: Pause)
    requires Sound(log, clock) && clock <= now
    requires Judge(log, id, actor, now) == Open(p) || Judge(log, id, actor, now) == Late(p)
    ensures !IsListed(log + DecideNotes(log, id, choice, actor, now), p)
  {
    var after := log + DecideNotes(log, id, choice, actor, now);
    DecideKeepsSound(log, clock, id, choice, actor, now);
    ResolvedBars(log, id);
    FoundHasId(log, None, id);
    CreatedReadable(after, now);
    BoardReadable(after, p.tenant.tenantId);
    ListedIff(after, p.tenant.tenantId, p);
    var last := after[|log|];
    assert (last.Decided? || last.Lapsed?) && last.tenantId == p.tenant.tenantId && About(last, id);
  }

  /** The clock matters: once a late decision has left its lapsed record, a clock
      that runs back before the deadline lets a decision through on a pause that
      the list no longer shows. */
  lemma ClockRollback(log: Log, clock: int, id: string, choice: Choice, actor: string, late: int, early: int, p: Pause)
    requires Sound(log, clock) && clock <= late && ValidActor(actor)
    requires Judge(log, id, actor, late) == Late(p) && early < p.expiresAt
    ensures var after := log + DecideNotes(log, id, choice, actor, late);
      Judge(after, id, actor, early) == Open(p) && !IsListed(after, p)
  {
    var after := log + DecideNotes(log, id, choice, actor, late);
    DecideKeepsSound(log, clock, id, choice, actor, late);
    DecidedLeavesList(log, clock, id, choice, actor, late, p);
    ResolvedBars(log, id);
    FoundHasId(log, None, id);
    assert after[|log|] == Lapsed(p.tenant.tenantId, Some(id));
    LatestAppend(log, after[|log|], None, id);
    OpenIff(after, late, id, actor, early, p);
  }
}
