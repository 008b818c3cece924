/**
  Percept delivery as a step system: `submit`, `attempt` and the four parts of
  `pump`, by any number of workers, with every read and commit a step of its
  own, crashes anywhere, and maintenance purging terminal rows.
  (src/hermes_life_bridge/percept_delivery.py, retry_engine.py, operation_store.py)
*/
module PerceptProtocol {
  import opened Basics
  import opened ReliabilityContract
  import opened OperationStore
  import opened Budget

  /** What the Runtime made of an envelope. */
  datatype Reply = AckOk | AckNotOk | TransportError

  datatype Pc =
    | Idle
    | Reserve(event: Envelope, hash: string)
    | Attempt(id: OpId)                  // attempt: read the row
    | CheckDue(id: OpId)                 // attempt: due_operations
    | Release(id: OpId, thenBegin: bool) // make_retry_ready
    | BeginRead(id: OpId)
    | BeginCommit(id: OpId)
    | Load(id: OpId)                     // get_percept_event
    | Send(id: OpId, event: Envelope)
    | Complete(id: OpId)
    | Clear(id: OpId)
    | Fail(id: OpId, code: string)       // _schedule_failed: read the row
    | FailCommit(id: OpId, code: string)
    | Schedule(id: OpId)                 // schedule_failed_safe: read and decide
    | ScheduleCommit(id: OpId, at: real)
    | ExhaustCommit(id: OpId)
    | Done(ok: bool)
    | Raised(error: Error)

  datatype Db = Db(
    policy: RetryPolicy,
    rows: Rows,
    outbox: Outbox,
    doomed: set<OpId>,                   // ids some purge has selected; never taken back, so a
                                         // deletion may come late, or again
    // history
    first: map<OpId, Envelope>,          // the first envelope reserved under each id
    acked: set<string>,                  // keys the Runtime has answered ok for
    purged: set<OpId>)                   // ids ever deleted by maintenance

  datatype State = State(db: Db, pcs: map<nat, Pc>)

  /** `listed`: does a due row make it into the first hundred of its listing? */
  datatype Env = Env(now: real, unit: real, reply: Reply, listed: bool)

  /** What a worker may pick up: a request, or an item of a pump listing. */
  datatype Job =
    | Submit(event: Envelope, hash: string)
    | Deliver(id: OpId)
    | RecoverInFlight(id: OpId)
    | Reschedule(id: OpId)
    | ReleaseDue(id: OpId)

  datatype Event =
    | Take(w: nat, job: Job)
    | Step(w: nat, env: Env)
    | Crash(w: nat)
    | PurgeSelect(ids: set<OpId>)        // purge_terminal reads its candidates
    | PurgeDelete(ids: set<OpId>)        // ... and deletes them later

  datatype Outcome = Outcome(db: Db, pc: Pc)

  function InitialPercept(event: Envelope, hash: string, now: real): Operation {
    Operation(StableId(Percept, event.key, hash), Percept, event.key, hash,
              Prepared, 0, event.observedAt, now, None, None, None)
  }

  function Commit(db: Db, id: OpId, cmd: Command, now: real, next: Pc): Outcome {
    match Transact(db.rows, id, cmd, now)
    case Ok(op) => Outcome(db.(rows := db.rows[id := op]), next)
    case Err(e) => Outcome(db, Raised(e))
  }

  ghost function ReserveStep(db: Db, event: Envelope, hash: string, now: real): Outcome {
    var op := InitialPercept(event, hash, now);
    match ReservedPercept(db.rows, db.outbox, op, event)
    case Err(e) => Outcome(db, Raised(e))
    case Ok(r) =>
      var created := !HasKey(db.rows, Percept, event.key);
      Outcome(db.(rows := AfterReserve(db.rows, op),
                  outbox := OutboxAfterReserve(db.rows, db.outbox, op, event),
                  first := if created && op.id !in db.first then db.first[op.id := event] else db.first),
              Attempt(r.id))
  }

  function AttemptNext(db: Db, id: OpId): Pc {
    if id !in db.rows then Done(false)
    else if db.rows[id].kind != Percept then Done(false)
    else match db.rows[id].state
      case Completed => Done(true)
      case Exhausted => Done(false)
      case InFlight => Done(false)
      case FailedSafe => Fail(id, "percept_failed_safe")
      case RetryWait => CheckDue(id)
      case Prepared => BeginRead(id)
      case DeliveryUnknown => Done(false)
  }

  /** Is the row waiting, and its time come? */
  function DueNext(db: Db, id: OpId, now: real, listed: bool): Pc {
    if listed && id in db.rows && db.rows[id].state == RetryWait && db.rows[id].nextAttemptAt.Some?
       && db.rows[id].nextAttemptAt.value <= now
    then Release(id, true) else Done(false)
  }

  function ReleaseStep(db: Db, id: OpId, thenBegin: bool, now: real): Outcome {
    var o := Commit(db, id, MakeRetryReady, now, if thenBegin then BeginRead(id) else Idle);
    if o.pc == Raised(StateConflict) then o.(pc := if thenBegin then Done(false) else Idle) else o
  }

  function BeginNext(db: Db, id: OpId): Pc {
    if id !in db.rows then Raised(NotFound)
    else if db.rows[id].state != Prepared then Done(false)
    else if db.rows[id].kind == Contact && db.rows[id].attempt > 0 then Raised(PolicyError)
    else BeginCommit(id)
  }

  function BeginStep(db: Db, id: OpId, now: real): Outcome {
    var o := Commit(db, id, StartAttempt, now, Load(id));
    if o.pc == Raised(StateConflict) then o.(pc := Done(false)) else o
  }

  function LoadNext(db: Db, id: OpId): Pc {
    if id in db.outbox then Send(id, db.outbox[id].event) else Fail(id, "percept_outbox_payload_missing")
  }

  function SendStep(db: Db, id: OpId, event: Envelope, reply: Reply): Outcome {
    match reply
    case AckOk => Outcome(db.(acked := db.acked + {event.key}), Complete(id))
    case AckNotOk => Outcome(db, Fail(id, "runtime_ack_not_ok"))
    case TransportError => Outcome(db, Fail(id, "runtime_transport_exception"))
  }

  function FailNext(db: Db, id: OpId, code: string): Pc {
    if id !in db.rows then Done(false)
    else match db.rows[id].state
      case InFlight => FailCommit(id, code)
      case FailedSafe => Schedule(id)
      case _ => Done(false)
  }

  function ScheduleNext(db: Db, id: OpId, now: real, unit: real): Pc {
    if id !in db.rows then Raised(NotFound)
    else if db.rows[id].state != FailedSafe then Raised(StateConflict)
    else match Decide(db.policy, db.rows[id], now, unit)
      case Exhaust => ExhaustCommit(id)
      case Wait(at) => ScheduleCommit(id, at)
      case FreshDecision => Done(false)
      case Refuse => Raised(PolicyError)
  }

  /** One read or one commit of a worker. */
  ghost function Perform(db: Db, pc: Pc, env: Env): Outcome {
    match pc
    case Idle => Outcome(db, pc)
    case Reserve(event, hash) => ReserveStep(db, event, hash, env.now)
    case Attempt(id) => Outcome(db, AttemptNext(db, id))
    case CheckDue(id) => Outcome(db, DueNext(db, id, env.now, env.listed))
    case Release(id, thenBegin) => ReleaseStep(db, id, thenBegin, env.now)
    case BeginRead(id) => Outcome(db, BeginNext(db, id))
    case BeginCommit(id) => BeginStep(db, id, env.now)
    case Load(id) => Outcome(db, LoadNext(db, id))
    case Send(id, event) => SendStep(db, id, event, env.reply)
    case Complete(id) => Commit(db, id, MarkCompleted, env.now, Clear(id))
    case Clear(id) => Outcome(db.(outbox := db.outbox - {id}), Done(true))
    case Fail(id, code) => Outcome(db, FailNext(db, id, code))
    case FailCommit(id, code) => Commit(db, id, MarkFailedSafe(Some(code)), env.now, Schedule(id))
    case Schedule(id) => Outcome(db, ScheduleNext(db, id, env.now, env.unit))
    case ScheduleCommit(id, at) => Commit(db, id, ScheduleRetry(at), env.now, Done(false))
    case ExhaustCommit(id) => Commit(db, id, MarkExhausted, env.now, Done(false))
    case Done(_) => Outcome(db, pc)
    case Raised(_) => Outcome(db, pc)
  }

  const RESTART := "process_restart_idempotent_replay_safe"

  function Entry(job: Job): Pc {
    match job
    case Submit(event, hash) => Reserve(event, hash)
    case Deliver(id) => Attempt(id)
    case RecoverInFlight(id) => FailCommit(id, RESTART)
    case Reschedule(id) => Schedule(id)
    case ReleaseDue(id) => Release(id, false)
  }

  /** The listings a pump works from name percepts only. */
  predicate PerceptJob(job: Job) {
    match job
    case Submit(_, _) => true
    case Deliver(id) => id.kind == Percept
    case RecoverInFlight(id) => id.kind == Percept
    case Reschedule(id) => id.kind == Percept
    case ReleaseDue(id) => id.kind == Percept
  }

  function At(s: State, w: nat): Pc {
    if w in s.pcs then s.pcs[w] else Idle
  }

  predicate Free(pc: Pc) {
    pc.Idle? || pc.Done? || pc.Raised?
  }

  /** The percept rows a purge may select. */
  ghost predicate Selectable(rows: Rows, ids: set<OpId>) {
    forall id | id in ids :: id in rows && rows[id].kind == Percept && Terminal(rows[id].state)
  }

  function Purge(db: Db, ids: set<OpId>): Db {
    var gone := ids * db.doomed;
    db.(rows := db.rows - gone, outbox := db.outbox - gone, purged := db.purged + gone)
  }

  ghost function Apply(s: State, e: Event): State {
    match e
    case Take(w, job) =>
      if Free(At(s, w)) && PerceptJob(job) then s.(pcs := s.pcs[w := Entry(job)]) else s
    case Step(w, env) =>
      var o := Perform(s.db, At(s, w), env);
      State(o.db, s.pcs[w := o.pc])
    case Crash(w) => s.(pcs := s.pcs[w := Idle])
    case PurgeSelect(ids) =>
      if Selectable(s.db.rows, ids) then s.(db := s.db.(doomed := s.db.doomed + ids)) else s
    case PurgeDelete(ids) => s.(db := Purge(s.db, ids))
  }

  ghost function Run(s: State, es: seq<Event>): State {
    if es == [] then s else Apply(Run(s, es[..|es| - 1]), es[|es| - 1])
  }

  function Init(policy: RetryPolicy): State {
    State(Db(policy, map[], map[], {}, map[], {}, {}), map[])
  }

  /** Do the events of a run come from workers `0 .. workers - 1` only? */
  predicate ByWorkers(es: seq<Event>, workers: nat) {
    forall e | e in es ::
      match e
      case Take(w, _) => w < workers
      case Step(w, _) => w < workers
      case Crash(w) => w < workers
      case PurgeSelect(_) => true
      case PurgeDelete(_) => true
  }
}
