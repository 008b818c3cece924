/**
  What every run of cognition keeps, when task ids and idempotency keys
  correspond: a completed row has a stored receipt for its key, and no step of
  any worker ever meets a missing one.
*/
module CognitionSafety {
  import opened Basics
  import opened ReliabilityContract
  import opened OperationStore
  import opened Backoff
  import opened CognitionProtocol

  /** The key a task id stands for. */
  type Owner = string -> string

  // -------------------------------------------------------------- invariants

  ghost predicate IsCognition(rows: Rows, id: OpId) {
    id in rows && rows[id].kind == Cognition
  }

  /** An exhausted row used up its attempts. */
  ghost predicate Spent(p: RetryPolicy, op: Operation) {
    p.retryAfterFailedSafe ==> op.attempt >= p.maxAttempts
  }

  ghost predicate RowOk(db: Db, id: OpId)
    requires id in db.rows
  {
    && (db.rows[id].state == Completed ==> HasReceipt(db.receipts, id.key))
    && (id !in db.purged && db.rows[id].state == Exhausted ==> Spent(db.policy, db.rows[id]))
  }

  ghost predicate RowsOk(db: Db) {
    && ValidRows(db.rows) && NamedRows(db.rows)
    && forall id | IsCognition(db.rows, id) :: RowOk(db, id)
  }

  ghost predicate ReceiptsOk(receipts: Receipts, owner: Owner) {
    && (forall t | t in receipts :: receipts[t].key == owner(t))
    && forall t, u | t in receipts && u in receipts && t != u :: receipts[t].key != receipts[u].key
  }

  ghost predicate DoomedOk(db: Db) {
    forall id | id in db.doomed ::
      id.kind == Cognition && (id !in db.purged ==> id in db.rows && Terminal(db.rows[id].state))
  }

  ghost predicate DbOk(db: Db, owner: Owner) {
    RowsOk(db) && ReceiptsOk(db.receipts, owner) && DoomedOk(db)
  }

  /** A task whose row the operation store accepts. */
  predicate ValidTask(task: Task) {
    NonBlank(task.key) && IsSha256Hex(task.hash)
  }

  predicate Owned(task: Task, owner: Owner) {
    owner(task.taskId) == task.key
  }

  /** The worker's own operation: it belongs to the task's key. */
  predicate Own(task: Task, id: OpId, owner: Owner) {
    Owned(task, owner) && id.kind == Cognition && id.key == task.key
  }

  predicate OwnWho(who: Who, id: OpId, owner: Owner) {
    match who
    case InPrepare(task) => Own(task, id, owner)
    case InLoop(task) => Own(task, id, owner)
    case InBegin(task) => Own(task, id, owner)
    case InSweep(task, own) => Own(task, own, owner) && id.kind == Cognition
    case InRecovery => id.kind == Cognition
  }

  ghost predicate OutOfAttempts(db: Db, id: OpId) {
    id !in db.purged ==> id in db.rows && Spent(db.policy, db.rows[id])
  }

  /** An earlier reading of the row `id`. */
  ghost predicate Reading(db: Db, op: Operation) {
    && op.kind == Cognition && op.key == op.id.key
    && (op.state == Completed ==> HasReceipt(db.receipts, op.id.key))
    && (op.id !in db.purged ==> op.id in db.rows && op.attempt <= db.rows[op.id].attempt)
  }

  /** What a worker's place says about the durable state. */
  ghost predicate Knows(db: Db, pc: Pc, owner: Owner) {
    match pc
    case Idle => true
    case Lookup(task) => ValidTask(task) ==> Owned(task, owner)
    case Register(task) => ValidTask(task) ==> Owned(task, owner)
    case Reserve(task) => ValidTask(task) ==> Owned(task, owner)
    case Top(task, op) => Own(task, op.id, owner) && Reading(db, op)
    case Refresh(task, op) => Own(task, op.id, owner) && Reading(db, op)
    case ReturnCached(task) => HasReceipt(db.receipts, task.key)
    case Schedule(id, who) => OwnWho(who, id, owner)
    case Reconcile(op, who) => OwnWho(who, op.id, owner) && Reading(db, op)
    case AcceptCommit(id, who) => OwnWho(who, id, owner) && HasReceipt(db.receipts, id.key)
    case ScheduleCommit(id, at, who) => OwnWho(who, id, owner)
    case ExhaustCommit(id, who) => OwnWho(who, id, owner) && OutOfAttempts(db, id)
    case Sweep(task, id) => Own(task, id, owner)
    case SweepProbe(task, id, other) => Own(task, id, owner) && other.kind == Cognition
    case SweepCommit(task, id, other) => Own(task, id, owner) && other.kind == Cognition
    case Reread(task, id) => Own(task, id, owner)
    case BeginRead(task, id) => Own(task, id, owner)
    case BeginProbe(task, id) => Own(task, id, owner)
    case BeginCommit(task, id) => Own(task, id, owner)
    case CallApi(task, id) => Own(task, id, owner)
    case FailCommit(task, id) => Own(task, id, owner)
    case ReadyCommit(task, id) => Own(task, id, owner)
    case Save(task, id, output) => Own(task, id, owner)
    case Complete(task, id, receipt) =>
      Own(task, id, owner) && HasReceipt(db.receipts, task.key) && receipt.key == task.key
    case RecoverProbe(id) => id.kind == Cognition
    case RecoverFail(id) => id.kind == Cognition
    case Returned(task, receipt) => HasReceipt(db.receipts, task.key) && receipt.key == task.key
    case Raised(failure) => failure != ReceiptMissing
  }

  ghost predicate Inv(s: State, owner: Owner) {
    DbOk(s.db, owner) && forall w | w in s.pcs :: Knows(s.db, s.pcs[w], owner)
  }

  /** The durable state only moves forward, except for purged rows. */
  ghost predicate Grows(a: Db, b: Db) {
    && a.policy == b.policy && a.purged <= b.purged
    && (forall key | HasReceipt(a.receipts, key) :: HasReceipt(b.receipts, key))
    && (forall id | IsCognition(a.rows, id) && id !in b.purged ::
          && IsCognition(b.rows, id) && SameIdentity(a.rows[id], b.rows[id])
          && a.rows[id].attempt <= b.rows[id].attempt
          && (Terminal(a.rows[id].state) ==> b.rows[id] == a.rows[id]))
  }

  ghost predicate Good(db: Db, o: Outcome, owner: Owner) {
    DbOk(o.db, owner) && Grows(db, o.db) && Knows(o.db, o.pc, owner)
  }

  lemma KnowledgeStays(a: Db, b: Db, pc: Pc, owner: Owner)
    requires Grows(a, b) && Knows(a, pc, owner) && NamedRows(a.rows)
    ensures Knows(b, pc, owner)
  {
    hide HasReceipt;
  }

  // ------------------------------------------------------------------- steps

  lemma MoveIsGood(db: Db, next: Pc, owner: Owner)
    requires DbOk(db, owner) && Knows(db, next, owner)
    ensures Good(db, Outcome(db, next), owner)
  {
    hide DbOk, Knows, HasReceipt;
  }

  /** Replacing one cognition row by its successor. */
  lemma RowMoves(db: Db, id: OpId, op: Operation, owner: Owner)
    requires DbOk(db, owner) && IsCognition(db.rows, id) && !Terminal(db.rows[id].state)
    requires ValidOperation(op) && SameIdentity(db.rows[id], op) && db.rows[id].attempt <= op.attempt
    requires op.state == Completed ==> HasReceipt(db.receipts, id.key)
    requires op.state == Exhausted && id !in db.purged ==> Spent(db.policy, op)
    ensures var b := db.(rows := db.rows[id := op]); DbOk(b, owner) && Grows(db, b)
  {
    hide ValidOperation, Spent, HasReceipt, ReceiptsOk;
    var b := db.(rows := db.rows[id := op]);
    forall i | IsCognition(b.rows, i) ensures RowOk(b, i) {
      assert IsCognition(db.rows, i) && RowOk(db, i);
    }
    hide RowOk;
  }

  lemma CognitionAdvance(op: Operation, cmd: Command, now: real)
    requires Advance(op, cmd, now).Ok?
    ensures var r := Advance(op, cmd, now).value;
            && ValidOperation(r) && SameIdentity(op, r) && !Terminal(op.state)
            && op.attempt <= r.attempt
            && (r.state == Completed <==> cmd == MarkCompleted)
            && (r.state == Exhausted <==> cmd == MarkExhausted)
            && (cmd == MarkExhausted ==> r.attempt == op.attempt)
  {
  }

  lemma CommitIsGood(db: Db, id: OpId, cmd: Command, now: real, next: Pc, owner: Owner)
    requires DbOk(db, owner) && id.kind == Cognition
    requires cmd == MarkCompleted ==> HasReceipt(db.receipts, id.key)
    requires cmd == MarkExhausted ==> OutOfAttempts(db, id)
    requires Transact(db.rows, id, cmd, now).Ok? ==>
               Knows(Commit(db, id, cmd, now, next).db, next, owner)
    ensures Good(db, Commit(db, id, cmd, now, next), owner)
  {
    var r := Transact(db.rows, id, cmd, now);
    if r.Ok? {
      CognitionAdvance(db.rows[id], cmd, now);
      RowMoves(db, id, r.value, owner);
    } else {
      MoveIsGood(db, Raised(StoreRefused(r.error)), owner);
    }
    hide DbOk, Grows, Knows, Advance;
  }

  /** Going on to `next` whatever the commit says is as good. */
  lemma TolerateIsGood(db: Db, o: Outcome, next: Pc, owner: Owner)
    requires Good(db, o, owner) && Knows(db, next, owner) && NamedRows(db.rows)
    ensures Good(db, Tolerate(o, next), owner)
  {
    KnowledgeStays(db, o.db, next, owner);
    hide DbOk, Grows, Knows;
  }

  lemma ReserveIsGood(db: Db, task: Task, now: real, owner: Owner)
    requires DbOk(db, owner) && (ValidTask(task) ==> Owned(task, owner))
    ensures Good(db, ReserveStep(db, task, now), owner)
  {
    var op := InitialCognition(task, now);
    var o := ReserveStep(db, task, now);
    ReserveKeepsRows(db.rows, op);
    if Reserved(db.rows, op).Ok? {
      if HasKey(db.rows, Cognition, task.key) {
        assert AfterReserve(db.rows, op) == db.rows;
        assert RowOk(db, Reserved(db.rows, op).value.id);
        hide HasKey, ValidOperation, ReceiptsOk, HasReceipt, ValidRows, DoomedOk;
        MoveIsGood(db, o.pc, owner);
      } else {
        InsertIsGood(db, op, o.db, owner);
        hide DbOk, Grows, HasKey, HasReceipt;
      }
    } else {
      hide DbOk;
      MoveIsGood(db, o.pc, owner);
    }
  }

  lemma InsertIsGood(db: Db, op: Operation, b: Db, owner: Owner)
    requires DbOk(db, owner) && InitialOperation(op) && op.kind == Cognition
    requires op.id == StableId(Cognition, op.key, op.requestHash) && op.id !in db.rows
    requires !HasKey(db.rows, Cognition, op.key) && b == db.(rows := db.rows[op.id := op])
    ensures DbOk(b, owner) && Grows(db, b)
  {
    hide ValidOperation, HasReceipt, ReceiptsOk;
    forall i | IsCognition(b.rows, i) ensures RowOk(b, i) {
      if i != op.id {
        assert IsCognition(db.rows, i) && RowOk(db, i);
      }
    }
    hide RowOk;
  }

  /** A receipt under a task id of its own key drops nothing. */
  lemma SaveIsGood(db: Db, task: Task, id: OpId, output: string, owner: Owner)
    requires DbOk(db, owner) && Own(task, id, owner)
    ensures Good(db, SaveStep(db, task, id, output), owner)
  {
    var b := SaveStep(db, task, id, output).db;
    ReplaceKeepsKeysIff(db.receipts, task.taskId, Receipt(task.key, output));
    hide HasReceipt, ValidRows, NamedRows;
    forall i | IsCognition(b.rows, i) ensures RowOk(b, i) {
      assert IsCognition(db.rows, i) && RowOk(db, i);
    }
    hide RowOk;
  }

  lemma CompleteIsGood(db: Db, task: Task, id: OpId, receipt: Receipt, now: real, owner: Owner)
    requires DbOk(db, owner) && Knows(db, Complete(task, id, receipt), owner)
    ensures Good(db, Perform(db, Complete(task, id, receipt), Env(now, 0.0, ApiError, None)), owner)
  {
    var next := Returned(task, receipt);
    hide HasReceipt;
    NamesOf(db, owner);
    hide DbOk, Advance, Grows, ReceiptsOk;
    CommitIsGood(db, id, MarkCompleted, now, next, owner);
    hide Good, Knows, Commit, Tolerate;
    TolerateIsGood(db, Commit(db, id, MarkCompleted, now, next), next, owner);
  }

  lemma AcceptIsGood(db: Db, id: OpId, who: Who, now: real, owner: Owner)
    requires DbOk(db, owner) && Knows(db, AcceptCommit(id, who), owner)
    ensures Good(db, AcceptStep(db, id, who, now), owner)
  {
    hide HasReceipt, Advance, Grows, DbOk;
    NamesOf(db, owner);
    var next := AcceptedNext(who);
    CommitIsGood(db, id, MarkCompleted, now, next, owner);
    if who.InSweep? || who.InRecovery? {
      TolerateIsGood(db, Commit(db, id, MarkCompleted, now, next), next, owner);
    }
    hide Good, Knows, Commit, Tolerate;
  }

  lemma ScheduleCommitIsGood(db: Db, id: OpId, at: real, who: Who, now: real, owner: Owner)
    requires DbOk(db, owner) && OwnWho(who, id, owner)
    ensures Good(db, ScheduleStep(db, id, at, who, now), owner)
  {
    hide HasReceipt, Advance, Grows, DbOk;
    NamesOf(db, owner);
    var next := ScheduledNext(who, id);
    CommitIsGood(db, id, ScheduleRetry(at), now, next, owner);
    if who.InRecovery? {
      TolerateIsGood(db, Commit(db, id, ScheduleRetry(at), now, next), Idle, owner);
    }
    hide Good, Knows, Commit, Tolerate;
  }

  lemma ExhaustIsGood(db: Db, id: OpId, who: Who, now: real, owner: Owner)
    requires DbOk(db, owner) && Knows(db, ExhaustCommit(id, who), owner)
    ensures Good(db, ExhaustStep(db, id, who, now), owner)
  {
    hide HasReceipt, Transact, Grows, DbOk, OutOfAttempts;
    NamesOf(db, owner);
    var next := if who.InRecovery? then Idle else Raised(RetryExhausted);
    assert Knows(Commit(db, id, MarkExhausted, now, next).db, next, owner) && Knows(db, Idle, owner);
    assert id.kind == Cognition && OutOfAttempts(db, id);
    hide Good, Knows, Commit, Tolerate;
    CommitIsGood(db, id, MarkExhausted, now, next, owner);
    if who.InRecovery? {
      TolerateIsGood(db, Commit(db, id, MarkExhausted, now, next), Idle, owner);
    }
  }

  lemma ReadyIsGood(db: Db, task: Task, id: OpId, now: real, owner: Owner)
    requires DbOk(db, owner) && Own(task, id, owner)
    ensures Good(db, ReadyStep(db, task, id, now), owner)
  {
    hide HasReceipt;
    var r := Transact(db.rows, id, MakeRetryReady, now);
    if r.Ok? {
      CognitionAdvance(db.rows[id], MakeRetryReady, now);
      RowMoves(db, id, r.value, owner);
    } else {
      MoveIsGood(db, Raised(StoreRefused(r.error)), owner);
    }
    hide Grows, Advance, ReceiptsOk, DoomedOk, RowOk;
  }

  /** A plain commit of a worker on its own row. */
  lemma PlainIsGood(db: Db, id: OpId, cmd: Command, now: real, next: Pc, owner: Owner)
    requires DbOk(db, owner) && id.kind == Cognition && !cmd.MarkCompleted? && !cmd.MarkExhausted?
    requires next.CallApi? || next.Schedule? || next.Sweep?
    requires Knows(db, next, owner)
    ensures Good(db, Commit(db, id, cmd, now, next), owner)
  {
    hide HasReceipt, DbOk;
    CommitIsGood(db, id, cmd, now, next, owner);
  }

  /** The same, going on to `otherwise` on a state conflict. */
  lemma TolerantIsGood(db: Db, id: OpId, cmd: Command, now: real, next: Pc, otherwise: Pc, owner: Owner)
    requires DbOk(db, owner) && id.kind == Cognition && !cmd.MarkCompleted? && !cmd.MarkExhausted?
    requires next.Schedule? || next.Sweep?
    requires Knows(db, next, owner) && Knows(db, otherwise, owner)
    ensures Good(db, Tolerate(Commit(db, id, cmd, now, next), otherwise), owner)
  {
    NamesOf(db, owner);
    hide DbOk, Knows, Good, Commit, Tolerate;
    PlainIsGood(db, id, cmd, now, next, owner);
    TolerateIsGood(db, Commit(db, id, cmd, now, next), otherwise, owner);
  }

  /** Every read leads to a place whose knowledge it has just established. */
  lemma RefreshIsGood(db: Db, task: Task, op: Operation, owner: Owner)
    requires DbOk(db, owner) && Knows(db, Refresh(task, op), owner)
    ensures Good(db, Outcome(db, RefreshNext(db, task, op)), owner)
  {
    assert Knows(db, RefreshNext(db, task, op), owner) by {
      if op.id in db.rows {
        assert IsCognition(db.rows, op.id) && RowOk(db, op.id);
      }
      hide HasReceipt, ReceiptsOk, DoomedOk, ValidRows;
    }
    hide DbOk, Knows, RefreshNext;
    MoveIsGood(db, RefreshNext(db, task, op), owner);
  }

  lemma ScheduleIsGood(db: Db, id: OpId, who: Who, owner: Owner)
    requires DbOk(db, owner) && Knows(db, Schedule(id, who), owner)
    ensures Good(db, Outcome(db, ScheduleNext(db, id, who)), owner)
  {
    assert Knows(db, ScheduleNext(db, id, who), owner) by {
      if id in db.rows {
        assert IsCognition(db.rows, id) && RowOk(db, id);
      }
      hide HasReceipt, ReceiptsOk, DoomedOk;
    }
    hide DbOk, Knows, ScheduleNext;
    MoveIsGood(db, ScheduleNext(db, id, who), owner);
  }

  lemma ReconcileIsGood(db: Db, op: Operation, who: Who, now: real, unit: real, owner: Owner)
    requires DbOk(db, owner) && Knows(db, Reconcile(op, who), owner)
    ensures Good(db, Outcome(db, ReconcileNext(db, op, who, now, unit)), owner)
  {
    assert Knows(db, ReconcileNext(db, op, who, now, unit), owner) by {
      hide HasReceipt, DbOk, Delay;
    }
    hide DbOk, Knows, ReconcileNext;
    MoveIsGood(db, ReconcileNext(db, op, who, now, unit), owner);
  }

  lemma RereadIsGood(db: Db, task: Task, id: OpId, owner: Owner)
    requires DbOk(db, owner) && Own(task, id, owner)
    ensures Good(db, Outcome(db, RereadNext(db, task, id)), owner)
  {
    assert Knows(db, RereadNext(db, task, id), owner) by {
      if id in db.rows {
        assert IsCognition(db.rows, id) && RowOk(db, id);
      }
      hide HasReceipt, ReceiptsOk, DoomedOk, ValidRows;
    }
    hide DbOk, Knows, RereadNext;
    MoveIsGood(db, RereadNext(db, task, id), owner);
  }

  lemma ProbeIsGood(db: Db, pc: Pc, env: Env, owner: Owner)
    requires DbOk(db, owner) && Knows(db, pc, owner)
    requires pc.Lookup? || pc.Top? || pc.ReturnCached? || pc.Sweep? || pc.SweepProbe? || pc.BeginRead?
             || pc.BeginProbe? || pc.RecoverProbe?
    ensures Good(db, Perform(db, pc, env), owner)
  {
    var next := Perform(db, pc, env).pc;
    assert Knows(db, next, owner) by {
      hide HasReceipt, DbOk;
    }
    hide DbOk, Knows;
    MoveIsGood(db, next, owner);
  }

  /** Every step keeps the tables and the worker's knowledge. */
  lemma PerformIsGood(db: Db, pc: Pc, env: Env, owner: Owner)
    requires DbOk(db, owner) && Knows(db, pc, owner)
    ensures Good(db, Perform(db, pc, env), owner)
  {
    hide DbOk, Good, Transact, HasReceipt;
    match pc
    case Idle => MoveIsGood(db, pc, owner);
    case Register(task) => RegisterIsGood(db, task, owner);
    case Reserve(task) => ReserveIsGood(db, task, env.now, owner);
    case AcceptCommit(id, who) => AcceptIsGood(db, id, who, env.now, owner);
    case ScheduleCommit(id, at, who) => ScheduleCommitIsGood(db, id, at, who, env.now, owner);
    case ExhaustCommit(id, who) => ExhaustIsGood(db, id, who, env.now, owner);
    case SweepCommit(task, id, other) =>
      TolerantIsGood(db, other, MakeRetryReady, env.now, Sweep(task, id), Sweep(task, id), owner);
    case BeginCommit(task, id) => PlainIsGood(db, id, StartAttempt, env.now, CallApi(task, id), owner);
    case CallApi(task, id) => CallIsGood(db, task, id, env.reply, owner);
    case FailCommit(task, id) =>
      PlainIsGood(db, id, MarkFailedSafe(Some(API_FAILED)), env.now, Schedule(id, InLoop(task)), owner);
    case ReadyCommit(task, id) => ReadyIsGood(db, task, id, env.now, owner);
    case Save(task, id, output) => SaveIsGood(db, task, id, output, owner);
    case Complete(task, id, receipt) => CompleteIsGood(db, task, id, receipt, env.now, owner);
    case RecoverFail(id) =>
      TolerantIsGood(db, id, MarkFailedSafe(Some(NO_RECEIPT)), env.now, Schedule(id, InRecovery), Idle, owner);
    case Returned(_, _) => MoveIsGood(db, pc, owner);
    case Raised(_) => MoveIsGood(db, pc, owner);
    case Refresh(task, op) => RefreshIsGood(db, task, op, owner);
    case Schedule(id, who) => ScheduleIsGood(db, id, who, owner);
    case Reconcile(op, who) => ReconcileIsGood(db, op, who, env.now, env.unit, owner);
    case Reread(task, id) => RereadIsGood(db, task, id, owner);
    case _ => ProbeIsGood(db, pc, env, owner);
  }

  lemma RegisterIsGood(db: Db, task: Task, owner: Owner)
    requires DbOk(db, owner) && (ValidTask(task) ==> Owned(task, owner))
    ensures Good(db, RegisterStep(db, task), owner)
  {
    hide HasReceipt, ValidRows, NamedRows, ReceiptsOk;
    var b := RegisterStep(db, task).db;
    assert forall i | i in b.rows :: RowOk(b, i) == RowOk(db, i);
    hide RowOk;
  }

  lemma CallIsGood(db: Db, task: Task, id: OpId, reply: Reply, owner: Owner)
    requires DbOk(db, owner) && Own(task, id, owner)
    ensures Good(db, CallStep(db, task, id, reply), owner)
  {
    hide HasReceipt, ValidRows, NamedRows, ReceiptsOk;
    var b := CallStep(db, task, id, reply).db;
    assert forall i | i in b.rows :: RowOk(b, i) == RowOk(db, i);
    hide RowOk;
  }

  /** Deleting selected rows: they were terminal, or deleted once before. */
  lemma PurgeIsGood(db: Db, ids: set<OpId>, owner: Owner)
    requires DbOk(db, owner)
    ensures DbOk(Purge(db, ids), owner) && Grows(db, Purge(db, ids))
  {
    hide ValidOperation, HasReceipt, ReceiptsOk;
    var b := Purge(db, ids);
    assert forall i | i !in b.purged && i in db.rows :: i in b.rows;
    forall i | IsCognition(b.rows, i) ensures RowOk(b, i) {
      assert IsCognition(db.rows, i) && RowOk(db, i);
    }
    hide RowOk;
  }

  lemma SelectIsGood(db: Db, ids: set<OpId>, owner: Owner)
    requires DbOk(db, owner) && Selectable(db.rows, ids)
    ensures var b := db.(doomed := db.doomed + ids); DbOk(b, owner) && Grows(db, b)
  {
    hide ValidRows, HasReceipt, ReceiptsOk;
    var b := db.(doomed := db.doomed + ids);
    assert forall i | i in b.rows :: RowOk(b, i) == RowOk(db, i);
    assert forall i | i in ids :: i.kind == Cognition;
    hide RowOk;
  }

  // ------------------------------------------------------------- every event

  lemma NamesOf(db: Db, owner: Owner)
    requires DbOk(db, owner)
    ensures NamedRows(db.rows) && ValidRows(db.rows)
  {
  }

  lemma OthersStay(s: State, t: State, w: nat, pc: Pc, owner: Owner)
    requires forall v | v in s.pcs :: Knows(s.db, s.pcs[v], owner)
    requires Grows(s.db, t.db) && NamedRows(s.db.rows) && t.pcs == s.pcs[w := pc] && Knows(t.db, pc, owner)
    ensures forall v | v in t.pcs :: Knows(t.db, t.pcs[v], owner)
  {
    hide Grows, Knows, NamedRows;
    forall v | v in t.pcs ensures Knows(t.db, t.pcs[v], owner) {
      if v != w {
        KnowledgeStays(s.db, t.db, s.pcs[v], owner);
      }
    }
  }

  lemma TablesMove(s: State, db: Db, owner: Owner)
    requires Inv(s, owner) && DbOk(db, owner) && Grows(s.db, db)
    ensures Inv(s.(db := db), owner)
  {
    NamesOf(s.db, owner);
    hide Grows, Knows, DbOk;
    forall v | v in s.pcs ensures Knows(db, s.pcs[v], owner) {
      KnowledgeStays(s.db, db, s.pcs[v], owner);
    }
  }

  lemma IdleKnows(s: State, w: nat, owner: Owner)
    requires Inv(s, owner)
    ensures Knows(s.db, At(s, w), owner)
  {
    hide DbOk;
  }

  predicate OwnedEvent(e: Event, owner: Owner) {
    e.Take? && ValidTask(e.task) ==> Owned(e.task, owner)
  }

  lemma ApplyKeeps(s: State, e: Event, owner: Owner)
    requires Inv(s, owner) && OwnedEvent(e, owner)
    ensures Inv(Apply(s, e), owner) && Grows(s.db, Apply(s, e).db)
  {
    NamesOf(s.db, owner);
    MoveIsGood(s.db, Idle, owner);
    hide DbOk, Perform, NamedRows, Purge, Grows, ValidRows, HasReceipt;
    match e
    case Take(w, task) =>
      if Free(At(s, w)) {
        OthersStay(s, Apply(s, e), w, Lookup(task), owner);
      }
    case Recover(w, id) =>
      if Free(At(s, w)) && id.kind == Cognition {
        OthersStay(s, Apply(s, e), w, RecoverProbe(id), owner);
      }
    case Step(w, env) =>
      IdleKnows(s, w, owner);
      PerformIsGood(s.db, At(s, w), env, owner);
      hide Knows;
      OthersStay(s, Apply(s, e), w, Perform(s.db, At(s, w), env).pc, owner);
    case Crash(w) => OthersStay(s, Apply(s, e), w, Idle, owner);
    case PurgeSelect(ids) =>
      if Selectable(s.db.rows, ids) {
        SelectIsGood(s.db, ids, owner);
        hide Knows;
        TablesMove(s, Apply(s, e).db, owner);
      }
    case PurgeDelete(ids) =>
      PurgeIsGood(s.db, ids, owner);
      hide Knows;
      TablesMove(s, Apply(s, e).db, owner);
  }

  lemma {:induction false} RunKeeps(policy: RetryPolicy, es: seq<Event>, owner: Owner)
    requires forall e | e in es :: OwnedEvent(e, owner)
    ensures Inv(Run(Init(policy), es), owner) && Run(Init(policy), es).db.policy == policy
  {
    hide Apply;
    if es != [] {
      var before := es[..|es| - 1];
      assert es[|es| - 1] in es && forall e | e in before :: e in es;
      RunKeeps(policy, before, owner);
      ApplyKeeps(Run(Init(policy), before), es[|es| - 1], owner);
    }
  }
}
