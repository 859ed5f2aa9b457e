/** The queue of paused effects over the ledger: which rows its operations add, and
    what those rows mean when they are replayed. */
module Hitl {
  import opened Text
  import opened Json
  import opened IntentBinding
  import opened Ledger
  import opened Pauses
  import opened HitlLog

  const CREATED := "hitl.pause.created"
  const DECIDED := "hitl.pause.decided"
  const EXPIRED := "hitl.pause.expired"

  /** Seconds for which the intent of a decision is good. */
  const INTENT_TTL: int := 900

  // ----------------------------------------------------------- rows as notes

  function IdOf(payload: seq<Member>): Option<string> {
    StrOf(Lookup(payload, "pause_id"))
  }

  lemma ParsedId(payload: seq<Member>)
    requires Parse(payload).Some?
    ensures IdOf(payload) == Some(Parse(payload).value.pauseId)
  {
  }

  function OutcomeOf(resolved: Option<Json>): Outcome {
    if resolved.None? || !resolved.value.Obj? then Nothing
    else
      match Parse(resolved.value.members)
      case None => Unreadable
      case Some(p) => Readable(p)
  }

  function DecidedAt(resolved: Option<Json>): Option<int> {
    if resolved.None? || !resolved.value.Obj? then None else IntOf(Lookup(resolved.value.members, "decided_at"))
  }

  function NoteOf(row: Row): Note {
    if row.eventType == CREATED then
      var pause := Parse(row.payload);
      if pause.Some? then
        ParsedId(row.payload);
        Created(row.tenantId, IdOf(row.payload), pause)
      else Created(row.tenantId, IdOf(row.payload), None)
    else if row.eventType == DECIDED then
      var resolved := Lookup(row.payload, "resolved");
      Decided(row.tenantId, IdOf(row.payload), OutcomeOf(resolved), DecidedAt(resolved))
    else if row.eventType == EXPIRED then Lapsed(row.tenantId, IdOf(row.payload))
    else Unrelated(row.tenantId)
  }

  function LogOf(rows: seq<Row>): (log: Log)
    ensures |log| == |rows|
  {
    if rows == [] then [] else LogOf(rows[..|rows| - 1]) + [NoteOf(rows[|rows| - 1])]
  }

  lemma LogAppend(rows: seq<Row>, row: Row)
    ensures LogOf(rows + [row]) == LogOf(rows) + [NoteOf(row)]
  {
    assert (rows + [row])[..|rows|] == rows;
  }

  // -------------------------------------------------------------- operations

  function BuildEvent(hash: Hash, eventId: EventId, stamp: int, eventType: string, tenant: Tenant, payload: Dict): Envelope {
    Envelope(eventId, eventType, tenant, stamp, payload, Some(DigestMapping(hash, payload)))
  }

  function ChoiceText(choice: Choice): string {
    match choice
    case Approve => "approved"
    case Reject => "rejected"
  }

  function SealedIntent(p: Pause, actor: string, now: int, intentId: string): Intent {
    Intent(intentId, p.tenant, actor, p.capabilityId, p.payloadDigest, now, now + INTENT_TTL)
  }

  function DecidedPayload(p: Pause, id: string, choice: Choice, actor: string, now: int, intentId: string): (d: Dict)
    ensures |d| == 5
  {
    [ Member("pause_id", Str(id)),
      Member("decision", Str(ChoiceText(choice))),
      Member("decided_by", Str(actor)),
      Member("intent", Obj(DumpIntent(SealedIntent(p, actor, now, intentId)))),
      Member("resolved", Obj(Dump(Resolve(p, choice, actor, now)))) ]
  }

  function LapsedPayload(id: string): Dict {
    [Member("pause_id", Str(id))]
  }

  /** What the host asks of the ledger: a new pause, a decision with the readings
      and ids it draws, or an event that is none of the queue's. */
  datatype Op =
    | Create(pause: Pause, eventId: EventId, stamp: int)
    | Decide(pauseId: string, choice: Choice, actor: string, now: int, intentId: string, eventId: EventId, stamp: int)
    | Plain(envelope: Envelope)

  /** The event of a decision, if it appends one. */
  function DecideEvent(hash: Hash, verdict: Verdict, op: Op): Option<Envelope>
    requires op.Decide?
  {
    match verdict
    case Late(p) => Some(BuildEvent(hash, op.eventId, op.stamp, EXPIRED, p.tenant, LapsedPayload(op.pauseId)))
    case Open(p) =>
      Some(BuildEvent(hash, op.eventId, op.stamp, DECIDED, p.tenant,
                      DecidedPayload(p, op.pauseId, op.choice, op.actor, op.now, op.intentId)))
    case _ => None
  }

  /** The event an operation tries to append. */
  function EventOf(hash: Hash, log: Log, op: Op): Option<Envelope> {
    match op
    case Create(p, eventId, stamp) => Some(BuildEvent(hash, eventId, stamp, CREATED, p.tenant, Dump(p)))
    case Plain(e) => Some(e)
    case Decide(id, _, actor, now, _, _, _) => DecideEvent(hash, Judge(log, id, actor, now), op)
  }

  function Apply(hash: Hash, rows: seq<Row>, op: Op): seq<Row> {
    match EventOf(hash, LogOf(rows), op)
    case None => rows
    case Some(e) => Appended(hash, rows, e)
  }

  function ApplyAll(hash: Hash, ops: seq<Op>): seq<Row> {
    if ops == [] then [] else Apply(hash, ApplyAll(hash, ops[..|ops| - 1]), ops[|ops| - 1])
  }

  lemma ApplyNext(hash: Hash, ops: seq<Op>, op: Op)
    ensures ApplyAll(hash, ops + [op]) == Apply(hash, ApplyAll(hash, ops), op)
  {
    assert (ops + [op])[..|ops|] == ops;
  }

  // ------------------------------------------- what an operation's row means

  lemma CreatedRow(row: Row, p: Pause)
    requires row.eventType == CREATED && row.tenantId == p.tenant.tenantId && row.payload == Dump(p)
    ensures NoteOf(row) == CreatedNote(p)
  {
    PauseRoundTrip(p);
    DumpFields(p);
  }

  lemma LapsedRow(row: Row, id: string)
    requires row.eventType == EXPIRED && row.payload == LapsedPayload(id)
    ensures NoteOf(row) == Lapsed(row.tenantId, Some(id))
  {
    FieldAt(row.payload, 0);
  }

  lemma DecidedRow(row: Row, p: Pause, id: string, choice: Choice, actor: string, now: int, intentId: string)
    requires row.eventType == DECIDED && row.tenantId == p.tenant.tenantId
    requires row.payload == DecidedPayload(p, id, choice, actor, now, intentId)
    ensures NoteOf(row) == DecidedNote(p, id, choice, actor, now)
  {
    var resolved := Resolve(p, choice, actor, now);
    FieldAt(row.payload, 0);
    FieldAt(row.payload, 4);
    PauseRoundTrip(resolved);
    DumpFields(resolved);
  }

  predicate Foreign(op: Op) {
    op.Plain? && op.envelope.eventType !in {CREATED, DECIDED, EXPIRED}
  }

  /** What an operation adds to the log, when the ledger takes its event. */
  function NotesOf(log: Log, op: Op): Log {
    match op
    case Create(p, _, _) => [CreatedNote(p)]
    case Plain(e) => [Unrelated(e.tenant.tenantId)]
    case Decide(id, choice, actor, now, _, _, _) => DecideNotes(log, id, choice, actor, now)
  }

  /** The ledger already has the event id that the operation brings. */
  predicate Refused(hash: Hash, rows: seq<Row>, op: Op) {
    var event := EventOf(hash, LogOf(rows), op);
    event.Some? && Taken(rows, event.value.eventId)
  }

  /** On the ledger and on the log an operation does the same: nothing when its event
      id is taken, and otherwise exactly what its notes say. */
  lemma ApplyLog(hash: Hash, rows: seq<Row>, op: Op)
    requires op.Plain? ==> Foreign(op)
    ensures var before, after := LogOf(rows), LogOf(Apply(hash, rows, op));
      after == if Refused(hash, rows, op) then before else before + NotesOf(before, op)
  {
    var log := LogOf(rows);
    var event := EventOf(hash, log, op);
    if event.Some? && !Taken(rows, event.value.eventId) {
      var row := NewRow(hash, rows, event.value);
      LogAppend(rows, row);
      match op {
        case Create(p, _, _) => CreatedRow(row, p);
        case Plain(e) =>
        case Decide(id, choice, actor, now, intentId, _, _) =>
          match Judge(log, id, actor, now) {
            case Late(p) => LapsedRow(row, id);
            case Open(p) => DecidedRow(row, p, id, choice, actor, now, intentId);
            case _ =>
          }
      }
    }
  }

  // ------------------------------------------------------------------- runs

  ghost predicate ForeignOnly(ops: seq<Op>) {
    forall i | 0 <= i < |ops| :: ops[i].Plain? ==> Foreign(ops[i])
  }

  /** Over any run, with reused ids and clocks that jump, no pause id is ever decided
      twice. */
  lemma {:induction false} DecidedAtMostOnce(hash: Hash, ops: seq<Op>)
    requires ForeignOnly(ops)
    ensures DecidedOnce(LogOf(ApplyAll(hash, ops)))
  {
    if ops != [] {
      var init, op := ops[..|ops| - 1], ops[|ops| - 1];
      DecidedAtMostOnce(hash, init);
      var rows := ApplyAll(hash, init);
      ApplyLog(hash, rows, op);
      match op {
        case Create(p, _, _) => OtherKeepsOnce(LogOf(rows), CreatedNote(p));
        case Plain(e) => OtherKeepsOnce(LogOf(rows), Unrelated(e.tenant.tenantId));
        case Decide(id, choice, actor, now, _, _, _) => DecideKeepsOnce(LogOf(rows), id, choice, actor, now);
      }
    }
  }

  /** The last reading of the clock by a decision. */
  function ClockAfter(start: int, ops: seq<Op>): int {
    if ops == [] then start
    else if ops[|ops| - 1].Decide? then ops[|ops| - 1].now
    else ClockAfter(start, ops[..|ops| - 1])
  }

  /** The operation brings a fresh pause id and reads a clock that has not run back. */
  ghost predicate Steady(log: Log, clock: int, op: Op) {
    match op
    case Create(p, _, _) => p.Valid() && Latest(log, None, p.pauseId).Unknown?
    case Plain(_) => Foreign(op)
    case Decide(_, _, _, now, _, _, _) => clock <= now
  }

  ghost predicate SteadyRun(hash: Hash, start: int, ops: seq<Op>) {
    ops == [] ||
    var init, op := ops[..|ops| - 1], ops[|ops| - 1];
      SteadyRun(hash, start, init) && Steady(LogOf(ApplyAll(hash, init)), ClockAfter(start, init), op)
  }

  lemma StepKeepsSound(log: Log, clock: int, op: Op)
    requires Sound(log, clock) && Steady(log, clock, op)
    ensures var clock' := if op.Decide? then op.now else clock;
      Sound(log + NotesOf(log, op), clock') && Sound(log, clock')
  {
    match op {
      case Create(p, _, _) => CreateKeepsSound(log, clock, p);
      case Plain(e) => OtherKeepsSound(log, clock, e.tenant.tenantId);
      case Decide(id, choice, actor, now, _, _, _) =>
        DecideKeepsSound(log, clock, id, choice, actor, now);
        TimePasses(log, clock, now);
    }
  }

  /** Over a run with fresh ids and a steady clock every decision is made before the
      pause's deadline, and no pause is both decided and lapsed. */
  lemma {:induction false} RunsAreSound(hash: Hash, start: int, ops: seq<Op>)
    requires SteadyRun(hash, start, ops)
    ensures Sound(LogOf(ApplyAll(hash, ops)), ClockAfter(start, ops))
  {
    if ops != [] {
      var init, op := ops[..|ops| - 1], ops[|ops| - 1];
      RunsAreSound(hash, start, init);
      var rows := ApplyAll(hash, init);
      StepKeepsSound(LogOf(rows), ClockAfter(start, init), op);
      ApplyLog(hash, rows, op);
    }
  }

  lemma EventHonest(hash: Hash, log: Log, op: Op)
    requires EventOf(hash, log, op).Some? && (op.Plain? ==> Honest(hash, op.envelope))
    ensures Honest(hash, EventOf(hash, log, op).value)
  {
  }

  /** What the queue appends never breaks a chain. */
  lemma ApplyKeepsChain(hash: Hash, rows: seq<Row>, op: Op, tenantId: string)
    requires op.Plain? ==> Honest(hash, op.envelope)
    requires Verifies(hash, Select(rows, ByTenant(tenantId)))
    ensures Verifies(hash, Select(Apply(hash, rows, op), ByTenant(tenantId)))
  {
    var event := EventOf(hash, LogOf(rows), op);
    if event.Some? {
      EventHonest(hash, LogOf(rows), op);
      HonestKeepsChain(hash, rows, event.value, tenantId);
    }
  }

  lemma {:induction false} ChainsStayValid(hash: Hash, ops: seq<Op>, tenantId: string)
    requires forall i | 0 <= i < |ops| :: ops[i].Plain? ==> Honest(hash, ops[i].envelope)
    ensures Verifies(hash, Select(ApplyAll(hash, ops), ByTenant(tenantId)))
  {
    if ops != [] {
      ChainsStayValid(hash, ops[..|ops| - 1], tenantId);
      ApplyKeepsChain(hash, ApplyAll(hash, ops[..|ops| - 1]), ops[|ops| - 1], tenantId);
    }
  }
}
