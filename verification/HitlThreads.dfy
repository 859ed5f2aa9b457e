/** Many threads on one ledger: appends and check-then-append decisions that share
    the ledger's re-entrant lock, interleaved in every possible way. */
module HitlThreads {
  import opened Text
  import opened IntentBinding
  import opened Ledger
  import opened Pauses
  import opened HitlLog
  import opened Hitl

  /** A decision asked for; the clock is read later, under the lock. */
  datatype Ask = Ask(pauseId: string, choice: Choice, actor: string, intentId: string, eventId: EventId, stamp: int)
  {
    function At(now: int): (op: Op)
      ensures op.Decide?
    {
      Op.Decide(pauseId, choice, actor, now, intentId, eventId, stamp)
    }
  }

  /** What an append serves: a call of its own, or a decision that already holds the lock. */
  datatype Task = Alone(op: Op) | InDecide(op: Op)

  /** Where a thread stands. */
  datatype Pc =
    | Idle
    | Wants(e: Envelope, task: Task)
    | Inside(e: Envelope, task: Task)
    | HeadRead(e: Envelope, task: Task, prev: string)
    | Inserted(task: Task)
    | WantsDecide(ask: Ask)
    | Holding(ask: Ask)
    | Looked(ask: Ask, loaded: Loaded)
    | Leaving

  datatype Act = Begin(op: Op) | BeginDecide(ask: Ask) | Proceed | ReadClock(now: int)

  /** The table, the lock with its owner and count, and the threads. `ops` and `used`
      are bookkeeping of the proof: the operations in the order in which they took
      effect, the last reading of the clock, and the pause ids handed out. */
  datatype State = State(
    rows: seq<Row>, owner: Option<nat>, count: nat, pcs: seq<Pc>, ops: seq<Op>, clock: int, used: set<string>)

  function Begun(threads: nat, start: int): State {
    State([], None, 0, seq(threads, _ => Idle), [], start, {})
  }

  function PauseIds(op: Op): set<string> {
    if op.Create? then {op.pause.pauseId} else {}
  }

  function To(s: State, t: nat, pc: Pc): State
    requires t < |s.pcs|
  {
    s.(pcs := s.pcs[t := pc])
  }

  /** `RLock.acquire`: free, or already ours; otherwise the thread waits. */
  function Acquire(s: State, t: nat, pc: Pc): State
    requires t < |s.pcs|
  {
    if s.owner == None || s.owner == Some(t) then To(s, t, pc).(owner := Some(t), count := s.count + 1) else s
  }

  function Release(s: State, t: nat, pc: Pc): State
    requires t < |s.pcs|
  {
    if s.count <= 1 then To(s, t, pc).(owner := None, count := 0) else To(s, t, pc).(count := s.count - 1)
  }

  /** The insert, with the head that was read before; a taken event id is refused. */
  function Insert(hash: Hash, rows: seq<Row>, e: Envelope, prev: string): seq<Row> {
    if Taken(rows, e.eventId) then rows
    else
      rows + [Row(|rows| + 1, e.eventId, e.tenant.tenantId, e.eventType, e.occurredAt, e.payload, prev,
                  hash(ChainMaterial(prev, e.eventId, e.eventType, DigestUsed(hash, e))))]
  }

  /** A decision reads the clock and judges: it goes on to append, or it is done. */
  function Decided(hash: Hash, s: State, t: nat, ask: Ask, loaded: Loaded, now: int): State
    requires t < |s.pcs|
  {
    var op := ask.At(now);
    match DecideEvent(hash, Assess(loaded, ask.actor, now), op)
    case None => To(s, t, Leaving).(clock := now, ops := s.ops + [op])
    case Some(e) => To(s, t, Wants(e, InDecide(op))).(clock := now)
  }

  function Written(hash: Hash, s: State, t: nat, e: Envelope, task: Task, prev: string): State
    requires t < |s.pcs|
  {
    To(s, t, Inserted(task)).(rows := Insert(hash, s.rows, e, prev), ops := s.ops + [task.op])
  }

  /** One step of one thread; a step that is not possible there changes nothing. */
  function Step(hash: Hash, s: State, t: nat, act: Act): (s': State)
    requires t < |s.pcs|
    ensures |s'.pcs| == |s.pcs|
  {
    match act
    case Begin(op) =>
      if s.pcs[t].Idle? && !op.Decide? then
        To(s, t, Wants(EventOf(hash, [], op).value, Alone(op))).(used := s.used + PauseIds(op))
      else s
    case BeginDecide(ask) => if s.pcs[t].Idle? then To(s, t, WantsDecide(ask)) else s
    case ReadClock(now) =>
      if s.pcs[t].Looked? then Decided(hash, s, t, s.pcs[t].ask, s.pcs[t].loaded, now) else s
    case Proceed =>
      match s.pcs[t]
      case Wants(e, task) => Acquire(s, t, Inside(e, task))
      case Inside(e, task) => To(s, t, HeadRead(e, task, Head(Select(s.rows, ByTenant(e.tenant.tenantId)))))
      case HeadRead(e, task, prev) => Written(hash, s, t, e, task, prev)
      case Inserted(task) => Release(s, t, if task.Alone? then Idle else Leaving)
      case WantsDecide(ask) => Acquire(s, t, Holding(ask))
      case Holding(ask) => To(s, t, Looked(ask, Load(LogOf(s.rows), ask.pauseId)))
      case Leaving => Release(s, t, Idle)
      case _ => s
  }

  /** The state after a schedule: which thread moves, and how. */
  function Exec(hash: Hash, threads: nat, start: int, schedule: seq<(nat, Act)>): (s: State)
    ensures |s.pcs| == threads
  {
    if schedule == [] then Begun(threads, start)
    else
      var (t, act) := schedule[|schedule| - 1];
      var s := Exec(hash, threads, start, schedule[..|schedule| - 1]);
      if t < threads then Step(hash, s, t, act) else s
  }

  // --------------------------------------------------------------- the lock

  /** How often a thread at this point holds the lock. */
  function Depth(pc: Pc): nat {
    match pc
    case Idle => 0
    case Wants(_, task) => if task.Alone? then 0 else 1
    case Inside(_, task) => if task.Alone? then 1 else 2
    case HeadRead(_, task, _) => if task.Alone? then 1 else 2
    case Inserted(task) => if task.Alone? then 1 else 2
    case WantsDecide(_) => 0
    case Holding(_) => 1
    case Looked(_, _) => 1
    case Leaving => 1
  }

  ghost predicate LockInv(s: State) {
    && (s.owner.None? <==> s.count == 0)
    && forall t | 0 <= t < |s.pcs| :: Depth(s.pcs[t]) == if s.owner == Some(t) then s.count else 0
  }

  /** What a thread knows of the table at each point. */
  predicate Knows(hash: Hash, rows: seq<Row>, pc: Pc) {
    match pc
    case Wants(e, task) => Carries(hash, rows, e, task)
    case Inside(e, task) => Carries(hash, rows, e, task)
    case HeadRead(e, task, prev) =>
      Carries(hash, rows, e, task) && prev == Head(Select(rows, ByTenant(e.tenant.tenantId)))
    case Looked(ask, loaded) => loaded == Load(LogOf(rows), ask.pauseId)
    case _ => true
  }

  /** The envelope is the one its operation would append now. */
  predicate Carries(hash: Hash, rows: seq<Row>, e: Envelope, task: Task) {
    (task.Alone? ==> !task.op.Decide?) && EventOf(hash, LogOf(rows), task.op) == Some(e)
  }

  ghost predicate Inv(hash: Hash, s: State) {
    && LockInv(s)
    && (forall t | 0 <= t < |s.pcs| :: Knows(hash, s.rows, s.pcs[t]))
    && s.rows == ApplyAll(hash, s.ops)
  }

  /** A thread outside the lock knows nothing that another thread could make stale. */
  lemma OutsideKnows(hash: Hash, rows: seq<Row>, rows': seq<Row>, pc: Pc)
    requires Depth(pc) == 0 && Knows(hash, rows, pc)
    ensures Knows(hash, rows', pc)
  {
  }

  /** A move of one thread that leaves the lock and the table alone. */
  lemma QuietKeepsInv(hash: Hash, s: State, t: nat, pc: Pc)
    requires t < |s.pcs| && Inv(hash, s)
    requires Depth(pc) == Depth(s.pcs[t]) && Knows(hash, s.rows, pc)
    ensures Inv(hash, To(s, t, pc))
  {
  }

  lemma AcquireKeepsInv(hash: Hash, s: State, t: nat, pc: Pc)
    requires t < |s.pcs| && Inv(hash, s)
    requires Depth(pc) == Depth(s.pcs[t]) + 1 && Knows(hash, s.rows, pc)
    ensures Inv(hash, Acquire(s, t, pc))
  {
  }

  lemma ReleaseKeepsInv(hash: Hash, s: State, t: nat, pc: Pc)
    requires t < |s.pcs| && Inv(hash, s)
    requires Depth(pc) + 1 == Depth(s.pcs[t]) && Knows(hash, s.rows, pc)
    ensures Inv(hash, Release(s, t, pc))
  {
  }

  lemma InsertKeepsInv(hash: Hash, s: State, t: nat, e: Envelope, task: Task, prev: string)
    requires t < |s.pcs| && s.pcs[t] == HeadRead(e, task, prev) && Inv(hash, s)
    ensures Inv(hash, Written(hash, s, t, e, task, prev))
  {
    var after := Written(hash, s, t, e, task, prev);
    assert Knows(hash, s.rows, s.pcs[t]);
    assert Depth(s.pcs[t]) > 0 && s.owner == Some(t);
    ApplyNext(hash, s.ops, task.op);
    forall u | 0 <= u < |s.pcs|
      ensures Knows(hash, after.rows, after.pcs[u]) && Depth(after.pcs[u]) == Depth(s.pcs[u])
    {
      assert Knows(hash, s.rows, s.pcs[u]);
      if u != t {
        assert Depth(s.pcs[u]) == 0;
        OutsideKnows(hash, s.rows, after.rows, s.pcs[u]);
      }
    }
  }

  lemma ClockKeepsInv(hash: Hash, s: State, t: nat, ask: Ask, loaded: Loaded, now: int)
    requires t < |s.pcs| && s.pcs[t] == Looked(ask, loaded) && Inv(hash, s)
    ensures Inv(hash, Decided(hash, s, t, ask, loaded, now))
  {
    var op := ask.At(now);
    assert Knows(hash, s.rows, s.pcs[t]);
    match DecideEvent(hash, Assess(loaded, ask.actor, now), op)
    case None => LeaveKeepsInv(hash, s, t, op, now);
    case Some(e) => SetOutKeepsInv(hash, s, t, op, now, e);
  }

  /** A decision that appends nothing is done. */
  lemma LeaveKeepsInv(hash: Hash, s: State, t: nat, op: Op, now: int)
    requires t < |s.pcs| && s.pcs[t].Looked? && Inv(hash, s) && EventOf(hash, LogOf(s.rows), op) == None
    ensures Inv(hash, To(s, t, Leaving).(clock := now, ops := s.ops + [op]))
  {
    ApplyNext(hash, s.ops, op);
    QuietKeepsInv(hash, s, t, Leaving);
    SameTable(hash, To(s, t, Leaving), To(s, t, Leaving).(clock := now, ops := s.ops + [op]));
  }

  lemma SetOutKeepsInv(hash: Hash, s: State, t: nat, op: Op, now: int, e: Envelope)
    requires t < |s.pcs| && s.pcs[t].Looked? && Inv(hash, s) && EventOf(hash, LogOf(s.rows), op) == Some(e)
    ensures Inv(hash, To(s, t, Wants(e, InDecide(op))).(clock := now))
  {
    QuietKeepsInv(hash, s, t, Wants(e, InDecide(op)));
    SameTable(hash, To(s, t, Wants(e, InDecide(op))), To(s, t, Wants(e, InDecide(op))).(clock := now));
  }

  lemma SameTable(hash: Hash, s: State, s': State)
    requires Inv(hash, s) && s'.rows == s.rows && s'.owner == s.owner && s'.count == s.count && s'.pcs == s.pcs
    requires ApplyAll(hash, s'.ops) == s'.rows
    ensures Inv(hash, s')
  {
  }

  lemma StepKeepsInv(hash: Hash, s: State, t: nat, act: Act)
    requires t < |s.pcs| && Inv(hash, s)
    ensures Inv(hash, Step(hash, s, t, act))
  {
    var pc := s.pcs[t];
    assert Knows(hash, s.rows, pc);
    match act {
      case Begin(op) =>
        if pc.Idle? && !op.Decide? {
          QuietKeepsInv(hash, s, t, Wants(EventOf(hash, [], op).value, Alone(op)));
        }
      case BeginDecide(ask) =>
        if pc.Idle? {
          QuietKeepsInv(hash, s, t, WantsDecide(ask));
        }
      case ReadClock(now) =>
        if pc.Looked? {
          ClockKeepsInv(hash, s, t, pc.ask, pc.loaded, now);
        }
      case Proceed =>
        match pc {
          case Wants(e, task) => AcquireKeepsInv(hash, s, t, Inside(e, task));
          case Inside(e, task) => QuietKeepsInv(hash, s, t, HeadRead(e, task, Head(Select(s.rows, ByTenant(e.tenant.tenantId)))));
          case HeadRead(e, task, prev) => InsertKeepsInv(hash, s, t, e, task, prev);
          case Inserted(task) => ReleaseKeepsInv(hash, s, t, if task.Alone? then Idle else Leaving);
          case WantsDecide(ask) => AcquireKeepsInv(hash, s, t, Holding(ask));
          case Holding(ask) => QuietKeepsInv(hash, s, t, Looked(ask, Load(LogOf(s.rows), ask.pauseId)));
          case Leaving => ReleaseKeepsInv(hash, s, t, Idle);
          case _ =>
        }
    }
  }

  /** Every interleaving is equivalent to doing the operations one after another, in
      the order in which their rows went in: at any moment the table is what that
      order produces, and at most one thread is inside the lock. */
  lemma {:induction false} Linearizable(hash: Hash, threads: nat, start: int, schedule: seq<(nat, Act)>)
    ensures Inv(hash, Exec(hash, threads, start, schedule))
  {
    if schedule != [] {
      var (t, act) := schedule[|schedule| - 1];
      Linearizable(hash, threads, start, schedule[..|schedule| - 1]);
      if t < threads {
        StepKeepsInv(hash, Exec(hash, threads, start, schedule[..|schedule| - 1]), t, act);
      }
    }
  }

  /** Whoever holds the lock can move on: a decision that appends takes the lock it
      already holds a second time, and does not wait for itself. */
  lemma HolderProceeds(hash: Hash, s: State, t: nat, now: int)
    requires t < |s.pcs| && Inv(hash, s) && s.owner == Some(t)
    ensures Step(hash, s, t, Proceed) != s || Step(hash, s, t, ReadClock(now)) != s
  {
    assert Depth(s.pcs[t]) == s.count;
  }

  // ------------------------------------------------- what the threads brought

  function TaskOf(pc: Pc): Option<Task> {
    match pc
    case Wants(_, task) => Some(task)
    case Inside(_, task) => Some(task)
    case HeadRead(_, task, _) => Some(task)
    case _ => None
  }

  /** A plain event is none of the queue's and, where it matters, brings no false digest. */
  predicate OpOk(hash: Hash, honest: bool, op: Op) {
    op.Plain? ==> Foreign(op) && (honest ==> Honest(hash, op.envelope))
  }

  ghost predicate ScheduleOk(hash: Hash, honest: bool, schedule: seq<(nat, Act)>) {
    forall i | 0 <= i < |schedule| && schedule[i].1.Begin? :: OpOk(hash, honest, schedule[i].1.op)
  }

  ghost predicate OpsOk(hash: Hash, honest: bool, s: State) {
    && (forall i | 0 <= i < |s.ops| :: OpOk(hash, honest, s.ops[i]))
    && forall t | 0 <= t < |s.pcs| && TaskOf(s.pcs[t]).Some? :: OpOk(hash, honest, TaskOf(s.pcs[t]).value.op)
  }

  lemma {:induction false} ScheduledOps(hash: Hash, honest: bool, threads: nat, start: int, schedule: seq<(nat, Act)>)
    requires ScheduleOk(hash, honest, schedule)
    ensures OpsOk(hash, honest, Exec(hash, threads, start, schedule))
  {
    if schedule != [] {
      var n := |schedule| - 1;
      ScheduledOps(hash, honest, threads, start, schedule[..n]);
      var (t, act) := schedule[n];
      if t < threads {
        StepKeepsOpsOk(hash, honest, Exec(hash, threads, start, schedule[..n]), t, act);
      }
    }
  }

  lemma StepKeepsOpsOk(hash: Hash, honest: bool, s: State, t: nat, act: Act)
    requires t < |s.pcs| && OpsOk(hash, honest, s) && (act.Begin? ==> OpOk(hash, honest, act.op))
    ensures OpsOk(hash, honest, Step(hash, s, t, act))
  {
    var task := TaskOf(s.pcs[t]);
    assert task.Some? ==> OpOk(hash, honest, task.value.op);
    var after := Step(hash, s, t, act);
    assert forall u | 0 <= u < |s.pcs| && u != t :: after.pcs[u] == s.pcs[u];
  }

  /** At most one decision per pause id, in every interleaving of any number of
      threads, whatever the clocks say and whichever ids are reused. */
  lemma OneDecisionPerPause(hash: Hash, threads: nat, start: int, schedule: seq<(nat, Act)>)
    requires ScheduleOk(hash, false, schedule)
    ensures DecidedOnce(LogOf(Exec(hash, threads, start, schedule).rows))
  {
    Linearizable(hash, threads, start, schedule);
    ScheduledOps(hash, false, threads, start, schedule);
    DecidedAtMostOnce(hash, Exec(hash, threads, start, schedule).ops);
  }

  /** No interleaving breaks a chain: no thread inserts behind a head that is not the
      last row of its tenant any more. */
  lemma ChainsUnderThreads(hash: Hash, threads: nat, start: int, schedule: seq<(nat, Act)>, tenantId: string)
    requires ScheduleOk(hash, true, schedule)
    ensures Verifies(hash, Select(Exec(hash, threads, start, schedule).rows, ByTenant(tenantId)))
  {
    Linearizable(hash, threads, start, schedule);
    ScheduledOps(hash, true, threads, start, schedule);
    ChainsStayValid(hash, Exec(hash, threads, start, schedule).ops, tenantId);
  }

  // ------------------------------------------------ fresh ids and a steady clock

  /** Each new pause brings an id never handed out before, and no reading of the
      clock lies before the one that came before it. */
  predicate SteadyAct(s: State, act: Act) {
    match act
    case Begin(op) => (op.Create? ==> op.pause.Valid() && op.pause.pauseId !in s.used) && (op.Plain? ==> Foreign(op))
    case ReadClock(now) => s.clock <= now
    case _ => true
  }

  predicate SteadySchedule(hash: Hash, threads: nat, start: int, schedule: seq<(nat, Act)>) {
    schedule == [] ||
    var init, last := schedule[..|schedule| - 1], schedule[|schedule| - 1];
      SteadySchedule(hash, threads, start, init) && SteadyAct(Exec(hash, threads, start, init), last.1)
  }

  predicate Unseen(s: State, id: string) {
    Latest(LogOf(s.rows), None, id).Unknown?
  }

  /** An operation on its way into the table. */
  predicate OnItsWay(s: State, op: Op) {
    match op
    case Create(p, _, _) => p.Valid() && p.pauseId in s.used && Unseen(s, p.pauseId)
    case Plain(_) => Foreign(op)
    case Decide(_, _, _, now, _, _, _) => now == s.clock
  }

  ghost predicate SteadyInv(hash: Hash, start: int, s: State) {
    && SteadyRun(hash, start, s.ops)
    && ClockAfter(start, s.ops) <= s.clock
    && (forall id: string | id !in s.used :: Unseen(s, id))
    && (forall t | 0 <= t < |s.pcs| && TaskOf(s.pcs[t]).Some? :: OnItsWay(s, TaskOf(s.pcs[t]).value.op))
    && forall t, u | 0 <= t < |s.pcs| && 0 <= u < |s.pcs| && t != u && TaskOf(s.pcs[t]).Some? && TaskOf(s.pcs[u]).Some? ::
         PauseIds(TaskOf(s.pcs[t]).value.op) !! PauseIds(TaskOf(s.pcs[u]).value.op)
  }

  /** An operation reveals no pause but the one it creates. */
  lemma ApplyUnseen(hash: Hash, rows: seq<Row>, op: Op, id: string)
    requires op.Plain? ==> Foreign(op)
    requires Latest(LogOf(rows), None, id).Unknown? && id !in PauseIds(op)
    ensures Latest(LogOf(Apply(hash, rows, op)), None, id).Unknown?
  {
    ApplyLog(hash, rows, op);
    NotesUnseen(LogOf(rows), op, id);
  }

  lemma NotesUnseen(log: Log, op: Op, id: string)
    requires Latest(log, None, id).Unknown? && id !in PauseIds(op)
    ensures Latest(log + NotesOf(log, op), None, id).Unknown?
  {
    var notes := NotesOf(log, op);
    if notes != [] {
      assert notes == [notes[0]];
      LatestAppend(log, notes[0], None, id);
    } else {
      assert log + notes == log;
    }
  }

  /** An operation takes effect: it is no longer on its way, and everything else is
      as it was. */
  lemma LoggedKeepsSteady(hash: Hash, start: int, s: State, t: nat, pc: Pc, op: Op, s': State)
    requires t < |s.pcs| && Inv(hash, s) && Inv(hash, s') && SteadyInv(hash, start, s)
    requires OnItsWay(s', op) || (TaskOf(s.pcs[t]).Some? && TaskOf(s.pcs[t]).value.op == op)
    requires op.Create? ==> TaskOf(s.pcs[t]).Some? && TaskOf(s.pcs[t]).value.op == op
    requires s'.ops == s.ops + [op] && s'.used == s.used && s.clock <= s'.clock
    requires op.Decide? ==> op.now == s'.clock
    requires s'.pcs == s.pcs[t := pc] && TaskOf(pc).None?
    requires forall u | 0 <= u < |s.pcs| && u != t && TaskOf(s.pcs[u]).Some? :: !TaskOf(s.pcs[u]).value.op.Decide?
    ensures SteadyInv(hash, start, s')
  {
    ApplyNext(hash, s.ops, op);
    assert s'.ops[..|s.ops|] == s.ops;
    forall id: string | Unseen(s, id) && id !in PauseIds(op)
      ensures Unseen(s', id)
    {
      ApplyUnseen(hash, s.rows, op, id);
    }
  }

  /** A thread moves on with the same operation, or with none. */
  lemma MoveKeepsSteady(hash: Hash, start: int, s: State, t: nat, pc: Pc, s': State)
    requires t < |s.pcs| && SteadyInv(hash, start, s)
    requires s'.pcs == s.pcs || s'.pcs == s.pcs[t := pc]
    requires TaskOf(pc).None? || (TaskOf(s.pcs[t]).Some? && TaskOf(pc).value.op == TaskOf(s.pcs[t]).value.op)
    requires s'.rows == s.rows && s'.ops == s.ops && s'.used == s.used && s'.clock == s.clock
    ensures SteadyInv(hash, start, s')
  {
    assert forall u | 0 <= u < |s'.pcs| && TaskOf(s'.pcs[u]).Some? ::
      TaskOf(s.pcs[u]).Some? && TaskOf(s'.pcs[u]).value.op == TaskOf(s.pcs[u]).value.op;
  }

  /** Outside the lock no decision is on its way. */
  lemma OthersUndecided(hash: Hash, s: State, t: nat)
    requires t < |s.pcs| && Inv(hash, s) && Depth(s.pcs[t]) > 0
    ensures forall u | 0 <= u < |s.pcs| && u != t && TaskOf(s.pcs[u]).Some? :: !TaskOf(s.pcs[u]).value.op.Decide?
  {
    forall u | 0 <= u < |s.pcs| && u != t && TaskOf(s.pcs[u]).Some?
      ensures !TaskOf(s.pcs[u]).value.op.Decide?
    {
      assert Knows(hash, s.rows, s.pcs[u]);
      assert Depth(s.pcs[u]) == 0;
    }
  }

  lemma BeginKeepsSteady(hash: Hash, start: int, s: State, t: nat, op: Op)
    requires t < |s.pcs| && s.pcs[t].Idle? && !op.Decide? && SteadyInv(hash, start, s) && SteadyAct(s, Begin(op))
    ensures SteadyInv(hash, start, Step(hash, s, t, Begin(op)))
  {
    var after := Step(hash, s, t, Begin(op));
    assert TaskOf(after.pcs[t]) == Some(Alone(op)) && OnItsWay(after, op);
    assert forall u | 0 <= u < |s.pcs| && u != t :: after.pcs[u] == s.pcs[u];
    forall u | 0 <= u < |s.pcs| && u != t && TaskOf(s.pcs[u]).Some?
      ensures OnItsWay(after, TaskOf(s.pcs[u]).value.op) && PauseIds(TaskOf(s.pcs[u]).value.op) !! PauseIds(op)
    {
      assert OnItsWay(s, TaskOf(s.pcs[u]).value.op);
    }
  }

  lemma ClockKeepsSteady(hash: Hash, start: int, s: State, t: nat, ask: Ask, loaded: Loaded, now: int)
    requires t < |s.pcs| && s.pcs[t] == Looked(ask, loaded) && Inv(hash, s) && SteadyInv(hash, start, s) && s.clock <= now
    ensures SteadyInv(hash, start, Decided(hash, s, t, ask, loaded, now))
  {
    var op := ask.At(now);
    assert Knows(hash, s.rows, s.pcs[t]);
    OthersUndecided(hash, s, t);
    match DecideEvent(hash, Assess(loaded, ask.actor, now), op)
    case None =>
      LeaveKeepsInv(hash, s, t, op, now);
      LoggedKeepsSteady(hash, start, s, t, Leaving, op, To(s, t, Leaving).(clock := now, ops := s.ops + [op]));
    case Some(e) =>
      AskedKeepsSteady(hash, start, s, t, Wants(e, InDecide(op)), op, To(s, t, Wants(e, InDecide(op))).(clock := now));
  }

  /** A decision sets out with the clock it has just read. */
  lemma AskedKeepsSteady(hash: Hash, start: int, s: State, t: nat, pc: Pc, op: Op, s': State)
    requires t < |s.pcs| && SteadyInv(hash, start, s) && op.Decide? && TaskOf(pc) == Some(InDecide(op))
    requires s' == To(s, t, pc).(clock := op.now) && s.clock <= op.now
    requires forall u | 0 <= u < |s.pcs| && u != t && TaskOf(s.pcs[u]).Some? :: !TaskOf(s.pcs[u]).value.op.Decide?
    ensures SteadyInv(hash, start, s')
  {
    assert forall u | 0 <= u < |s.pcs| && u != t :: s'.pcs[u] == s.pcs[u];
    forall u | 0 <= u < |s.pcs| && u != t && TaskOf(s.pcs[u]).Some?
      ensures OnItsWay(s', TaskOf(s.pcs[u]).value.op)
    {
      assert OnItsWay(s, TaskOf(s.pcs[u]).value.op);
    }
  }

  lemma InsertKeepsSteady(hash: Hash, start: int, s: State, t: nat, e: Envelope, task: Task, prev: string)
    requires t < |s.pcs| && s.pcs[t] == HeadRead(e, task, prev) && Inv(hash, s) && SteadyInv(hash, start, s)
    ensures SteadyInv(hash, start, Written(hash, s, t, e, task, prev))
  {
    assert TaskOf(s.pcs[t]) == Some(task) && OnItsWay(s, task.op);
    OthersUndecided(hash, s, t);
    InsertKeepsInv(hash, s, t, e, task, prev);
    LoggedKeepsSteady(hash, start, s, t, Inserted(task), task.op, Written(hash, s, t, e, task, prev));
  }

  lemma ProceedKeepsSteady(hash: Hash, start: int, s: State, t: nat)
    requires t < |s.pcs| && Inv(hash, s) && SteadyInv(hash, start, s)
    ensures SteadyInv(hash, start, Step(hash, s, t, Proceed))
  {
    var pc := s.pcs[t];
    if pc.HeadRead? {
      InsertKeepsSteady(hash, start, s, t, pc.e, pc.task, pc.prev);
    } else {
      var after := Step(hash, s, t, Proceed);
      assert after.pcs == s.pcs || after.pcs == s.pcs[t := after.pcs[t]];
      assert TaskOf(after.pcs[t]).None? || TaskOf(after.pcs[t]) == TaskOf(pc);
      MoveKeepsSteady(hash, start, s, t, after.pcs[t], after);
    }
  }

  lemma StepKeepsSteady(hash: Hash, start: int, s: State, t: nat, act: Act)
    requires t < |s.pcs| && Inv(hash, s) && SteadyInv(hash, start, s) && SteadyAct(s, act)
    ensures SteadyInv(hash, start, Step(hash, s, t, act))
  {
    var pc := s.pcs[t];
    match act {
      case Begin(op) =>
        if pc.Idle? && !op.Decide? {
          BeginKeepsSteady(hash, start, s, t, op);
        }
      case BeginDecide(ask) =>
        if pc.Idle? {
          MoveKeepsSteady(hash, start, s, t, WantsDecide(ask), To(s, t, WantsDecide(ask)));
        }
      case ReadClock(now) =>
        if pc.Looked? {
          ClockKeepsSteady(hash, start, s, t, pc.ask, pc.loaded, now);
        }
      case Proceed => ProceedKeepsSteady(hash, start, s, t);
    }
  }

  lemma {:induction false} SteadyExec(hash: Hash, threads: nat, start: int, schedule: seq<(nat, Act)>)
    requires SteadySchedule(hash, threads, start, schedule)
    ensures SteadyInv(hash, start, Exec(hash, threads, start, schedule))
  {
    if schedule != [] {
      var n := |schedule| - 1;
      SteadyExec(hash, threads, start, schedule[..n]);
      Linearizable(hash, threads, start, schedule[..n]);
      var (t, act) := schedule[n];
      if t < threads {
        StepKeepsSteady(hash, start, Exec(hash, threads, start, schedule[..n]), t, act);
      }
    }
  }

  /** With fresh pause ids and a clock that does not run back, in every interleaving:
      every decision is dated strictly before the deadline of its pause, and no pause
      is both decided and lapsed. */
  lemma DecisionsInTime(hash: Hash, threads: nat, start: int, schedule: seq<(nat, Act)>)
    requires SteadySchedule(hash, threads, start, schedule)
    ensures var s := Exec(hash, threads, start, schedule); Sound(LogOf(s.rows), s.clock)
  {
    var s := Exec(hash, threads, start, schedule);
    SteadyExec(hash, threads, start, schedule);
    Linearizable(hash, threads, start, schedule);
    RunsAreSound(hash, start, s.ops);
    TimePasses(LogOf(s.rows), ClockAfter(start, s.ops), s.clock);
  }
}
