/**
  Cognition as a step system: the retry loop of `CognitionService.process`, its
  preparation and scheduling calls, and startup recovery, by any number of
  workers, every read and commit a step of its own.
  (src/hermes_life_bridge/cognition_service.py, cognition_store.py, retry_engine.py)
*/
module CognitionProtocol {
  import opened Basics
  import opened ReliabilityContract
  import opened OperationStore
  import opened Budget

  datatype Task = Task(taskId: string, key: string, hash: string)

  datatype Receipt = Receipt(key: string, output: string)

  /** The receipt table, by task id; idempotency_key is its other unique column. */
  type Receipts = map<string, Receipt>

  /** On whose behalf an engine call runs, and so where it goes on. */
  datatype Who =
    | InPrepare(task: Task)              // _prepare_operation
    | InLoop(task: Task)                 // after a failed API call
    | InBegin(task: Task)                // begin_attempt
    | InSweep(task: Task, own: OpId)     // release_due over all due cognitions
    | InRecovery                         // recover_interrupted_cognition

  datatype Failure =
    | ReceiptMissing
    | OperationInFlight
    | RetryExhausted
    | RetryNotReady
    | KeyReused
    | StoreRefused(error: Error)

  datatype Pc =
    | Idle
    | Lookup(task: Task)
    | Register(task: Task)                       // reserve_task
    | Reserve(task: Task)
    | Top(task: Task, op: Operation)             // loop head: the receipt cache
    | Refresh(task: Task, op: Operation)         // operations.get, else the last reading
    | ReturnCached(task: Task)
    | Schedule(id: OpId, who: Who)               // schedule_failed_safe: the row
    | Reconcile(op: Operation, who: Who)         // ... the receipt
    | AcceptCommit(id: OpId, who: Who)           // mark_completed on a stored receipt
    | ScheduleCommit(id: OpId, at: real, who: Who)
    | ExhaustCommit(id: OpId, who: Who)
    | Sweep(task: Task, id: OpId)                // release_due: next due row, or done
    | SweepProbe(task: Task, id: OpId, other: OpId)
    | SweepCommit(task: Task, id: OpId, other: OpId)
    | Reread(task: Task, id: OpId)
    | BeginRead(task: Task, id: OpId)
    | BeginProbe(task: Task, id: OpId)
    | BeginCommit(task: Task, id: OpId)
    | CallApi(task: Task, id: OpId)
    | FailCommit(task: Task, id: OpId)
    | ReadyCommit(task: Task, id: OpId)
    | Save(task: Task, id: OpId, output: string)
    | Complete(task: Task, id: OpId, receipt: Receipt)
    | RecoverProbe(id: OpId)
    | RecoverFail(id: OpId)
    | Returned(task: Task, receipt: Receipt)
    | Raised(failure: Failure)

  datatype Db = Db(
    policy: RetryPolicy,
    rows: Rows,
    tasks: map<string, Task>,            // the task table, by task id
    receipts: Receipts,
    doomed: set<OpId>,                   // chosen by some purge; never taken back, so a
                                         // deletion may come late, or again
    purged: set<OpId>,                   // history: ids deleted at least once
    calls: multiset<OpId>)               // history: the API calls, by operation

  datatype State = State(db: Db, pcs: map<nat, Pc>)

  datatype Reply = Answer(output: string) | ApiError

  /** `due`: the row release_due turns to next, if any. */
  datatype Env = Env(now: real, unit: real, reply: Reply, due: Option<OpId>)

  datatype Event =
    | Take(w: nat, task: Task)
    | Recover(w: nat, id: OpId)
    | Step(w: nat, env: Env)
    | Crash(w: nat)
    | PurgeSelect(ids: set<OpId>)
    | PurgeDelete(ids: set<OpId>)

  datatype Outcome = Outcome(db: Db, pc: Pc)

  // --------------------------------------------------------- receipt table

  predicate HasReceipt(receipts: Receipts, key: string) {
    exists t | t in receipts :: receipts[t].key == key
  }

  ghost function ReceiptOf(receipts: Receipts, key: string): Receipt
    requires HasReceipt(receipts, key)
  {
    var t :| t in receipts && receipts[t].key == key;
    receipts[t]
  }

  /** INSERT OR REPLACE: rows with the task id or the key give way. */
  function Replaced(receipts: Receipts, taskId: string, receipt: Receipt): Receipts {
    (map t | t in receipts && t != taskId && receipts[t].key != receipt.key :: receipts[t])
      [taskId := receipt]
  }

  /** Saving a receipt drops no other key exactly when its task id is its own. */
  lemma ReplaceKeepsKeysIff(receipts: Receipts, taskId: string, receipt: Receipt)
    requires forall t, u | t in receipts && u in receipts && t != u :: receipts[t].key != receipts[u].key
    ensures HasReceipt(Replaced(receipts, taskId, receipt), receipt.key)
    ensures (forall key | HasReceipt(receipts, key) :: HasReceipt(Replaced(receipts, taskId, receipt), key))
       <==> (taskId in receipts ==> receipts[taskId].key == receipt.key)
  {
    var after := Replaced(receipts, taskId, receipt);
    assert after[taskId] == receipt;
    if taskId in receipts ==> receipts[taskId].key == receipt.key {
      forall key | HasReceipt(receipts, key) ensures HasReceipt(after, key) {
        var t :| t in receipts && receipts[t].key == key;
        if t != taskId && key != receipt.key {
          assert after[t].key == key;
        }
      }
    } else {
      assert HasReceipt(receipts, receipts[taskId].key);
    }
  }

  // ------------------------------------------------- one worker's program

  function InitialCognition(task: Task, now: real): Operation {
    Operation(StableId(Cognition, task.key, task.hash), Cognition, task.key, task.hash,
              Prepared, 0, now, now, None, None, None)
  }

  function Commit(db: Db, id: OpId, cmd: Command, now: real, next: Pc): Outcome {
    match Transact(db.rows, id, cmd, now)
    case Ok(op) => Outcome(db.(rows := db.rows[id := op]), next)
    case Err(e) => Outcome(db, Raised(StoreRefused(e)))
  }

  /** A state conflict is swallowed: go to `next` all the same. */
  function Tolerate(o: Outcome, next: Pc): Outcome {
    if o.pc == Raised(StoreRefused(StateConflict)) then o.(pc := next) else o
  }

  ghost function CachedNext(db: Db, task: Task, otherwise: Pc): Pc {
    if HasReceipt(db.receipts, task.key) then Returned(task, ReceiptOf(db.receipts, task.key)) else otherwise
  }

  /** INSERT OR IGNORE, then the request hash stored for the key must agree. */
  function RegisterStep(db: Db, task: Task): Outcome {
    if exists t | t in db.tasks :: db.tasks[t].key == task.key && db.tasks[t].hash != task.hash then
      Outcome(db, Raised(KeyReused))
    else if task.taskId in db.tasks || exists t | t in db.tasks :: db.tasks[t].key == task.key then
      Outcome(db, Reserve(task))
    else Outcome(db.(tasks := db.tasks[task.taskId := task]), Reserve(task))
  }

  ghost function ReserveStep(db: Db, task: Task, now: real): Outcome {
    var op := InitialCognition(task, now);
    match Reserved(db.rows, op)
    case Err(e) => Outcome(db, Raised(StoreRefused(e)))
    case Ok(r) => Outcome(db.(rows := AfterReserve(db.rows, op)), Top(task, r))
  }

  /** _prepare_operation's branch on the state; a vanished row keeps its last reading. */
  function RefreshNext(db: Db, task: Task, stale: Operation): Pc {
    var id := stale.id;
    match (if id in db.rows then db.rows[id] else stale).state
      case Completed =>
        if HasReceipt(db.receipts, id.key) then ReturnCached(task) else Raised(ReceiptMissing)
      case InFlight => Raised(OperationInFlight)
      case Exhausted => Raised(RetryExhausted)
      case FailedSafe => Schedule(id, InPrepare(task))
      case RetryWait => Sweep(task, id)
      case Prepared => BeginRead(task, id)
      case DeliveryUnknown => Raised(StoreRefused(StateConflict))
  }

  function ScheduleNext(db: Db, id: OpId, who: Who): Pc {
    if id !in db.rows then Raised(StoreRefused(NotFound))
    else if db.rows[id].state != FailedSafe then
      if who.InRecovery? then Idle else Raised(StoreRefused(StateConflict))
    else Reconcile(db.rows[id], who)
  }

  /** The receipt probe of schedule_failed_safe, then its decision. */
  function ReconcileNext(db: Db, op: Operation, who: Who, now: real, unit: real): Pc {
    if db.policy.reconcileBeforeRetry && HasReceipt(db.receipts, op.key) then AcceptCommit(op.id, who)
    else match Decide(db.policy, op, now, unit)
      case Exhaust => ExhaustCommit(op.id, who)
      case Wait(at) => ScheduleCommit(op.id, at, who)
      case FreshDecision => Idle
      case Refuse => Raised(StoreRefused(PolicyError))
  }

  /** Where an accepted receipt leads. */
  function AcceptedNext(who: Who): Pc {
    match who
    case InPrepare(task) => ReturnCached(task)
    case InLoop(task) => ReturnCached(task)
    case InBegin(task) => ReturnCached(task)
    case InSweep(task, own) => Sweep(task, own)
    case InRecovery => Idle
  }

  function AcceptStep(db: Db, id: OpId, who: Who, now: real): Outcome {
    var o := Commit(db, id, MarkCompleted, now, AcceptedNext(who));
    if who.InSweep? || who.InRecovery? then Tolerate(o, AcceptedNext(who)) else o
  }

  function ScheduledNext(who: Who, id: OpId): Pc {
    match who
    case InPrepare(task) => Sweep(task, id)
    case InLoop(task) => ReadyCommit(task, id)
    case InBegin(task) => Idle
    case InSweep(task, own) => Sweep(task, own)
    case InRecovery => Idle
  }

  function ScheduleStep(db: Db, id: OpId, at: real, who: Who, now: real): Outcome {
    var o := Commit(db, id, ScheduleRetry(at), now, ScheduledNext(who, id));
    if who.InRecovery? then Tolerate(o, Idle) else o
  }

  function ExhaustStep(db: Db, id: OpId, who: Who, now: real): Outcome {
    var o := Commit(db, id, MarkExhausted, now, if who.InRecovery? then Idle else Raised(RetryExhausted));
    if who.InRecovery? then Tolerate(o, Idle) else o
  }

  function SweepNext(task: Task, id: OpId, due: Option<OpId>): Pc {
    if due.Some? && due.value.kind == Cognition then SweepProbe(task, id, due.value) else Reread(task, id)
  }

  function SweepProbeNext(db: Db, task: Task, id: OpId, other: OpId): Pc {
    if db.policy.reconcileBeforeRetry && HasReceipt(db.receipts, other.key)
    then AcceptCommit(other, InSweep(task, id)) else SweepCommit(task, id, other)
  }

  function RereadNext(db: Db, task: Task, id: OpId): Pc {
    if id !in db.rows then Raised(StoreRefused(NotFound))
    else if db.rows[id].state == Completed then ReturnCached(task)
    else if db.rows[id].state != Prepared then Raised(RetryNotReady)
    else BeginRead(task, id)
  }

  function BeginNext(db: Db, task: Task, id: OpId): Pc {
    if id !in db.rows then Raised(StoreRefused(NotFound))
    else if db.rows[id].state != Prepared then Raised(StoreRefused(StateConflict))
    else if db.rows[id].attempt > 0 && db.policy.reconcileBeforeRetry then BeginProbe(task, id)
    else BeginCommit(task, id)
  }

  function BeginProbeNext(db: Db, task: Task, id: OpId): Pc {
    if HasReceipt(db.receipts, id.key) then AcceptCommit(id, InBegin(task)) else BeginCommit(task, id)
  }

  function CallStep(db: Db, task: Task, id: OpId, reply: Reply): Outcome {
    Outcome(db.(calls := db.calls + multiset{id}),
            match reply case Answer(output) => Save(task, id, output) case ApiError => FailCommit(task, id))
  }

  function ReadyStep(db: Db, task: Task, id: OpId, now: real): Outcome {
    match Transact(db.rows, id, MakeRetryReady, now)
    case Ok(op) => Outcome(db.(rows := db.rows[id := op]), Top(task, op))
    case Err(e) => Outcome(db, Raised(StoreRefused(e)))
  }

  function SaveStep(db: Db, task: Task, id: OpId, output: string): Outcome {
    var receipt := Receipt(task.key, output);
    Outcome(db.(receipts := Replaced(db.receipts, task.taskId, receipt)), Complete(task, id, receipt))
  }

  function RecoverProbeNext(db: Db, id: OpId): Pc {
    if HasReceipt(db.receipts, id.key) then AcceptCommit(id, InRecovery) else RecoverFail(id)
  }

  const API_FAILED := "hermes_api_failed_safe"
  const NO_RECEIPT := "process_restart_no_accepted_receipt"

  /** One read or one commit of a worker. */
  ghost function Perform(db: Db, pc: Pc, env: Env): Outcome {
    match pc
    case Idle => Outcome(db, pc)
    case Lookup(task) => Outcome(db, CachedNext(db, task, Register(task)))
    case Register(task) => RegisterStep(db, task)
    case Reserve(task) => ReserveStep(db, task, env.now)
    case Top(task, op) => Outcome(db, CachedNext(db, task, Refresh(task, op)))
    case Refresh(task, op) => Outcome(db, RefreshNext(db, task, op))
    case ReturnCached(task) => Outcome(db, CachedNext(db, task, Raised(ReceiptMissing)))
    case Schedule(id, who) => Outcome(db, ScheduleNext(db, id, who))
    case Reconcile(op, who) => Outcome(db, ReconcileNext(db, op, who, env.now, env.unit))
    case AcceptCommit(id, who) => AcceptStep(db, id, who, env.now)
    case ScheduleCommit(id, at, who) => ScheduleStep(db, id, at, who, env.now)
    case ExhaustCommit(id, who) => ExhaustStep(db, id, who, env.now)
    case Sweep(task, id) => Outcome(db, SweepNext(task, id, env.due))
    case SweepProbe(task, id, other) => Outcome(db, SweepProbeNext(db, task, id, other))
    case SweepCommit(task, id, other) =>
      Tolerate(Commit(db, other, MakeRetryReady, env.now, Sweep(task, id)), Sweep(task, id))
    case Reread(task, id) => Outcome(db, RereadNext(db, task, id))
    case BeginRead(task, id) => Outcome(db, BeginNext(db, task, id))
    case BeginProbe(task, id) => Outcome(db, BeginProbeNext(db, task, id))
    case BeginCommit(task, id) => Commit(db, id, StartAttempt, env.now, CallApi(task, id))
    case CallApi(task, id) => CallStep(db, task, id, env.reply)
    case FailCommit(task, id) =>
      Commit(db, id, MarkFailedSafe(Some(API_FAILED)), env.now, Schedule(id, InLoop(task)))
    case ReadyCommit(task, id) => ReadyStep(db, task, id, env.now)
    case Save(task, id, output) => SaveStep(db, task, id, output)
    case Complete(task, id, receipt) =>
      Tolerate(Commit(db, id, MarkCompleted, env.now, Returned(task, receipt)), Returned(task, receipt))
    case RecoverProbe(id) => Outcome(db, RecoverProbeNext(db, id))
    case RecoverFail(id) =>
      Tolerate(Commit(db, id, MarkFailedSafe(Some(NO_RECEIPT)), env.now, Schedule(id, InRecovery)), Idle)
    case Returned(_, _) => Outcome(db, pc)
    case Raised(_) => Outcome(db, pc)
  }

  function At(s: State, w: nat): Pc {
    if w in s.pcs then s.pcs[w] else Idle
  }

  predicate Free(pc: Pc) {
    pc.Idle? || pc.Returned? || pc.Raised?
  }

  ghost predicate Selectable(rows: Rows, ids: set<OpId>) {
    forall id | id in ids :: id in rows && rows[id].kind == Cognition && Terminal(rows[id].state)
  }

  function Purge(db: Db, ids: set<OpId>): Db {
    var gone := ids * db.doomed;
    db.(rows := db.rows - gone, purged := db.purged + gone)
  }

  ghost function Apply(s: State, e: Event): State {
    match e
    case Take(w, task) => if Free(At(s, w)) then s.(pcs := s.pcs[w := Lookup(task)]) else s
    case Recover(w, id) =>
      if Free(At(s, w)) && id.kind == Cognition then s.(pcs := s.pcs[w := RecoverProbe(id)]) else s
    case Step(w, env) =>
      var o := Perform(s.db, At(s, w), env);
      State(o.db, s.pcs[w := o.pc])
    case Crash(w) => s.(pcs := s.pcs[w := Idle])
    case PurgeSelect(ids) =>
      if Selectable(s.db.rows, ids) then s.(db := s.db.(doomed := s.db.doomed + ids)) else s
    case PurgeDelete(ids) => s.(db := Purge(s.db, ids))
  }

  ghost function Run(s: State, es: seq<Event>): State {
    if es == [] then s else Apply(Run(s, es[..|es| - 1]), es[|es| - 1])
  }

  function Init(policy: RetryPolicy): State {
    State(Db(policy, map[], map[], map[], {}, {}, multiset{}), map[])
  }

  /** Do the events of a run come from workers `0 .. workers - 1` only? */
  predicate ByWorkers(es: seq<Event>, workers: nat) {
    forall e | e in es ::
      match e
      case Take(w, _) => w < workers
      case Recover(w, _) => w < workers
      case Step(w, _) => w < workers
      case Crash(w) => w < workers
      case PurgeSelect(_) => true
      case PurgeDelete(_) => true
  }
}
