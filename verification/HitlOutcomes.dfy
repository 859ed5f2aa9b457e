/** What the queue writes and what is read back, in terms of the fields of rows and
    pauses. */
module HitlOutcomes {
  import opened Text
  import opened Json
  import opened IntentBinding
  import opened Ledger
  import opened Pauses
  import opened HitlLog
  import opened Hitl
  import opened HitlStore

  // ------------------------------------------------------------------- loading

  /** The note at `k` files a pause under the id, in the scope. */
  predicate Files(log: Log, k: int, scope: Option<string>, id: string) {
    0 <= k < |log| && log[k].Created? && log[k].id == Some(id) && (scope == None || scope == Some(log[k].tenantId))
  }

  /** The last created record counts, unless one of them cannot be read. */
  lemma {:induction false} LatestIs(log: Log, scope: Option<string>, id: string)
    ensures match Latest(log, scope, id)
      case Unknown => forall k :: !Files(log, k, scope, id)
      case Corrupt => exists k :: Files(log, k, scope, id) && log[k].pause == None
      case Found(p) =>
        && (exists k :: Files(log, k, scope, id) && log[k].pause == Some(p) && forall j | j > k :: !Files(log, j, scope, id))
        && forall k | Files(log, k, scope, id) :: log[k].pause.Some?
  {
    if log != [] {
      var n := |log| - 1;
      LatestIs(log[..n], scope, id);
      assert forall k | k < n :: Files(log, k, scope, id) <==> Files(log[..n], k, scope, id);
      match Latest(log[..n], scope, id) {
        case Corrupt =>
          var k :| Files(log[..n], k, scope, id) && log[..n][k].pause == None;
          assert Files(log, k, scope, id) && log[k].pause == None;
        case Found(p) =>
          var k :| Files(log[..n], k, scope, id) && log[..n][k].pause == Some(p) && forall j | j > k :: !Files(log[..n], j, scope, id);
          assert Files(log, k, scope, id) && log[k].pause == Some(p);
        case Unknown =>
      }
    }
  }

  /** The note at `k` settles the id. */
  predicate Settles(log: Log, k: int, id: string) {
    0 <= k < |log| && log[k].Decided? && log[k].id == Some(id) && log[k].outcome != Nothing
  }

  /** The first decided record that carries a resolved pause counts. */
  lemma {:induction false} FirstResolvedIs(log: Log, id: string)
    ensures match FirstResolved(log, id)
      case None => forall k :: !Settles(log, k, id)
      case Some(loaded) => exists k ::
        && Settles(log, k, id) && (forall j | j < k :: !Settles(log, j, id))
        && loaded == if log[k].outcome == Unreadable then Corrupt else Found(log[k].outcome.pause)
  {
    if log != [] {
      var n := |log| - 1;
      FirstResolvedIs(log[..n], id);
      assert forall k | k < n :: Settles(log, k, id) <==> Settles(log[..n], k, id);
      var before := FirstResolved(log[..n], id);
      if before.Some? {
        var k :| Settles(log[..n], k, id) && (forall j | j < k :: !Settles(log[..n], j, id))
          && before.value == if log[..n][k].outcome == Unreadable then Corrupt else Found(log[..n][k].outcome.pause);
        assert Settles(log, k, id);
      } else if FirstResolved(log, id).Some? {
        assert Settles(log, n, id);
      }
    }
  }

  /** What a decision finds, condition by condition. */
  lemma {:induction false} VerdictIff(log: Log, id: string, actor: string, now: int, p: Pause)
    ensures var verdict, loaded := Judge(log, id, actor, now), Load(log, id);
      && (verdict == UnknownPause <==> loaded == Unknown)
      && (verdict == CorruptRecord <==> loaded == Corrupt)
      && (verdict == NotPending(p.status) && loaded == Found(p) <==> loaded == Found(p) && p.status != HitlStatus.Pending)
      && (verdict == Late(p) <==> loaded == Found(p) && p.status == HitlStatus.Pending && now >= p.expiresAt)
      && (verdict == Open(p) <==>
            loaded == Found(p) && p.status == HitlStatus.Pending && now < p.expiresAt && 1 <= |actor| <= 128)
      && (verdict == InvalidActor <==>
            loaded.Found? && loaded.pause.status == HitlStatus.Pending && now < loaded.pause.expiresAt && !(1 <= |actor| <= 128))
  {
  }

  /** How a row of the table is read. */
  lemma {:induction false} NotesSpelled(row: Row)
    ensures var note, id := NoteOf(row), Lookup(row.payload, "pause_id");
      && note.tenantId == row.tenantId
      && (note.Created? <==> row.eventType == "hitl.pause.created")
      && (note.Decided? <==> row.eventType == "hitl.pause.decided")
      && (note.Lapsed? <==> row.eventType == "hitl.pause.expired")
      && (!note.Unrelated? ==> note.id == if id.Some? && id.value.Str? then Some(id.value.s) else None)
      && (note.Created? ==> note.pause == Parse(row.payload))
  {
  }

  // ------------------------------------------------------------------- writing

  /** The members hold the pause in the given state. */
  predicate Shows(ms: seq<Member>, p: Pause, status: string, at: Json, by_: Json) {
    && Lookup(ms, "pause_id") == Some(Str(p.pauseId))
    && Lookup(ms, "capability_id") == Some(Str(p.capabilityId))
    && Lookup(ms, "payload_digest") == Some(Str(p.payloadDigest))
    && Lookup(ms, "created_at") == Some(Int(p.createdAt))
    && Lookup(ms, "expires_at") == Some(Int(p.expiresAt))
    && Lookup(ms, "status") == Some(Str(status))
    && Lookup(ms, "decided_at") == Some(at)
    && Lookup(ms, "decided_by") == Some(by_)
  }

  /** The members hold the intent. */
  predicate Grants(ms: seq<Member>, intent: Intent) {
    && Lookup(ms, "intent_id") == Some(Str(intent.intentId))
    && Lookup(ms, "actor") == Some(Str(intent.actor))
    && Lookup(ms, "capability_id") == Some(Str(intent.capabilityId))
    && Lookup(ms, "payload_digest") == Some(Str(intent.payloadDigest))
    && Lookup(ms, "created_at") == Some(Int(intent.createdAt))
    && Lookup(ms, "expires_at") == Some(Int(intent.expiresAt))
  }

  lemma {:induction false} IntentShown(intent: Intent)
    ensures Grants(DumpIntent(intent), intent)
    ensures Lookup(DumpIntent(intent), "tenant") == Some(Obj(DumpTenant(intent.tenant)))
  {
    var d := DumpIntent(intent);
    FieldAt(d, 0);
    FieldAt(d, 1);
    FieldAt(d, 2);
    FieldAt(d, 3);
    FieldAt(d, 4);
    FieldAt(d, 5);
    FieldAt(d, 6);
  }

  lemma {:induction false} TenantShown(tenant: Tenant)
    ensures var d := DumpTenant(tenant);
      && Lookup(d, "tenant_id") == Some(Str(tenant.tenantId))
      && Lookup(d, "case_ref") == Some(if tenant.caseRef == None then Null else Str(tenant.caseRef.value))
      && Lookup(d, "project_ref") == Some(if tenant.projectRef == None then Null else Str(tenant.projectRef.value))
  {
    var d := DumpTenant(tenant);
    FieldAt(d, 0);
    FieldAt(d, 1);
    FieldAt(d, 2);
  }

  /** The word for a choice, in requests and records alike. */
  function Word(choice: Choice): string {
    if choice == Approve then "approved" else "rejected"
  }

  /** The intent that a decision seals: good for 900 seconds. */
  function Sealing(p: Pause, actor: string, now: int, intentId: string): Intent {
    Intent(intentId, p.tenant, actor, p.capabilityId, p.payloadDigest, now, now + 900)
  }

  lemma {:induction false} PauseShown(p: Pause, choice: Choice, actor: string, now: int)
    ensures Shows(Dump(Resolve(p, choice, actor, now)), p, Word(choice), Int(now), Str(actor))
    ensures Lookup(Dump(Resolve(p, choice, actor, now)), "tenant") == Some(Obj(DumpTenant(p.tenant)))
  {
    DumpFields(Resolve(p, choice, actor, now));
    StatusSpelled(Resolve(p, choice, actor, now));
  }

  /** The payload of a decided record. */
  lemma {:induction false} PayloadShown(p: Pause, id: string, choice: Choice, actor: string, now: int, intentId: string)
    ensures var d := DecidedPayload(p, id, choice, actor, now, intentId);
      && Lookup(d, "pause_id") == Some(Str(id))
      && Lookup(d, "decision") == Some(Str(Word(choice)))
      && Lookup(d, "decided_by") == Some(Str(actor))
      && Lookup(d, "intent") == Some(Obj(DumpIntent(Sealing(p, actor, now, intentId))))
      && Lookup(d, "resolved") == Some(Obj(Dump(Resolve(p, choice, actor, now))))
  {
    var d := DecidedPayload(p, id, choice, actor, now, intentId);
    FieldAt(d, 0);
    FieldAt(d, 1);
    FieldAt(d, 2);
    FieldAt(d, 3);
    FieldAt(d, 4);
  }

  ghost predicate Fresh(rows: seq<Row>, id: EventId) {
    forall i | 0 <= i < |rows| :: rows[i].eventId != id
  }

  /** One row more, of this tenant, type, id and time. */
  predicate Adds(rows: seq<Row>, after: seq<Row>, tenantId: string, eventType: string, eventId: EventId, stamp: int) {
    && |after| == |rows| + 1 && after[..|rows|] == rows
    && var row := after[|rows|];
       row.tenantId == tenantId && row.eventType == eventType && row.eventId == eventId && row.occurredAt == stamp
  }

  lemma {:induction false} EventAdds(hash: Hash, rows: seq<Row>, op: Op, e: Envelope)
    requires Fresh(rows, e.eventId) && EventOf(hash, LogOf(rows), op) == Some(e)
    ensures var after := Apply(hash, rows, op);
      Adds(rows, after, e.tenant.tenantId, e.eventType, e.eventId, e.occurredAt) && after[|rows|].payload == e.payload
  {
    AppendedRow(hash, rows, e);
  }

  /** A decision on an open pause writes down what was decided, by whom and when. */
  lemma {:induction false} DecisionRow(hash: Hash, rows: seq<Row>, op: Op, p: Pause)
    requires op.Decide? && Fresh(rows, op.eventId) && Judge(LogOf(rows), op.pauseId, op.actor, op.now) == Open(p)
    ensures var after := Apply(hash, rows, op);
      && Adds(rows, after, p.tenant.tenantId, "hitl.pause.decided", op.eventId, op.stamp)
      && var d := after[|rows|].payload;
         && Lookup(d, "pause_id") == Some(Str(op.pauseId))
         && Lookup(d, "decision") == Some(Str(Word(op.choice)))
         && Lookup(d, "decided_by") == Some(Str(op.actor))
         && (var resolved := Lookup(d, "resolved");
             resolved.Some? && resolved.value.Obj? && Shows(resolved.value.members, p, Word(op.choice), Int(op.now), Str(op.actor)))
         && (var intent := Lookup(d, "intent");
             intent.Some? && intent.value.Obj? && Grants(intent.value.members, Sealing(p, op.actor, op.now, op.intentId)))
  {
    EventAdds(hash, rows, op, EventOf(hash, LogOf(rows), op).value);
    PayloadShown(p, op.pauseId, op.choice, op.actor, op.now, op.intentId);
    PauseShown(p, op.choice, op.actor, op.now);
    IntentShown(Sealing(p, op.actor, op.now, op.intentId));
  }

  /** A late decision writes that the pause has run out, and nothing else. */
  lemma {:induction false} LateRow(hash: Hash, rows: seq<Row>, op: Op, p: Pause)
    requires op.Decide? && Fresh(rows, op.eventId) && Judge(LogOf(rows), op.pauseId, op.actor, op.now) == Late(p)
    ensures var after := Apply(hash, rows, op);
      && Adds(rows, after, p.tenant.tenantId, "hitl.pause.expired", op.eventId, op.stamp)
      && after[|rows|].payload == [Member("pause_id", Str(op.pauseId))]
  {
    EventAdds(hash, rows, op, EventOf(hash, LogOf(rows), op).value);
  }

  /** Any other decision, or one whose event id is taken, writes nothing. */
  lemma {:induction false} QuietDecision(hash: Hash, rows: seq<Row>, op: Op)
    requires op.Decide?
    requires var verdict := Judge(LogOf(rows), op.pauseId, op.actor, op.now);
      !Fresh(rows, op.eventId) || !(verdict.Open? || verdict.Late?)
    ensures Apply(hash, rows, op) == rows
  {
  }

  /** A new pause is written as it is. */
  lemma {:induction false} CreateRow(hash: Hash, rows: seq<Row>, op: Op)
    requires op.Create? && op.pause.status == HitlStatus.Pending && Fresh(rows, op.eventId)
    ensures var after, p := Apply(hash, rows, op), op.pause;
      && Adds(rows, after, p.tenant.tenantId, "hitl.pause.created", op.eventId, op.stamp)
      && Shows(after[|rows|].payload, p, "pending",
               if p.decidedAt == None then Null else Int(p.decidedAt.value),
               if p.decidedBy == None then Null else Str(p.decidedBy.value))
      && Lookup(after[|rows|].payload, "tenant") == Some(Obj(DumpTenant(p.tenant)))
  {
    EventAdds(hash, rows, op, EventOf(hash, LogOf(rows), op).value);
    DumpFields(op.pause);
    StatusSpelled(op.pause);
  }

  // ----------------------------------------------------------- what comes back

  /** The answer to a decision. */
  lemma {:induction false} AnswerIs(log: Log, id: string, actor: string, now: int, intentId: string, taken: bool)
    ensures var verdict := Judge(log, id, actor, now); var answer := Answer(verdict, taken, actor, now, intentId);
      && (forall p | verdict == Open(p) && !taken :: answer == Sealed(Sealing(p, actor, now, intentId)))
      && (taken && (verdict.Open? || verdict.Late?) ==> answer == DuplicateEvent)
      && (!verdict.Open? && !(taken && verdict.Late?) ==> answer == Refused(verdict))
  {
  }

  /** The pause after the decision. */
  function Decided(p: Pause, choice: Choice, actor: string, now: int): Pause {
    p.(status := if choice == Approve then HitlStatus.Approved else HitlStatus.Rejected,
       decidedAt := Some(now), decidedBy := Some(actor))
  }

  /** In every run, an accepted decision is what the next one finds: the pause loads as
      decided, by the actor and at the time given, and cannot be decided again. */
  lemma {:induction false} DecisionSticks(hash: Hash, ops: seq<Op>, op: Op, p: Pause, actor: string, now: int)
    requires ForeignOnly(ops) && op.Decide? && Fresh(ApplyAll(hash, ops), op.eventId)
    requires Judge(LogOf(ApplyAll(hash, ops)), op.pauseId, op.actor, op.now) == Open(p)
    requires p.createdAt < p.expiresAt && p.createdAt <= op.now
    ensures var log := LogOf(ApplyAll(hash, ops + [op]));
      && Load(log, op.pauseId) == Found(Decided(p, op.choice, op.actor, op.now))
      && Judge(log, op.pauseId, actor, now) == NotPending(if op.choice == Approve then HitlStatus.Approved else HitlStatus.Rejected)
  {
    var log := LogOf(ApplyAll(hash, ops));
    DecidedAtMostOnce(hash, ops);
    ApplyNext(hash, ops, op);
    ApplyLog(hash, ApplyAll(hash, ops), op);
    NoteSticks(log, op.pauseId, op.choice, op.actor, op.now, p);
  }

  lemma {:induction false} NoteSticks(log: Log, id: string, choice: Choice, actor: string, now: int, p: Pause)
    requires DecidedOnce(log) && Judge(log, id, actor, now) == Open(p)
    requires p.createdAt < p.expiresAt && p.createdAt <= now
    ensures Load(log + DecideNotes(log, id, choice, actor, now), id) == Found(Decided(p, choice, actor, now))
  {
    var note := DecidedNote(p, id, choice, actor, now);
    OpenMeansUndecided(log, id, actor, now);
    Undecided(log, id);
    LatestAppend(log, note, None, id);
    assert (log + [note])[..|log|] == log;
    assert Resolve(p, choice, actor, now) == Decided(p, choice, actor, now);
  }

  lemma {:induction false} Undecided(log: Log, id: string)
    requires forall k | 0 <= k < |log| && log[k].Decided? :: log[k].id != Some(id)
    ensures FirstResolved(log, id) == None
  {
    if log != [] {
      Undecided(log[..|log| - 1], id);
    }
  }
}
