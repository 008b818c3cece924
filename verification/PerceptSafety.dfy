/**
  What every run of percept delivery keeps: no reserved percept is lost or
  altered, completions are acknowledged, and attempts stay within the budget.
*/
module PerceptSafety {
  import opened Basics
  import opened ReliabilityContract
  import opened OperationStore
  import opened PerceptProtocol

  // -------------------------------------------------------------- invariants

  ghost predicate IsPercept(rows: Rows, id: OpId) {
    id in rows && rows[id].kind == Percept
  }

  /** The envelope waiting under `id` is the first one ever reserved there. */
  ghost predicate Kept(db: Db, id: OpId) {
    id in db.outbox && id in db.first && db.outbox[id].event == db.first[id]
  }

  /** An exhausted row used up its attempts. */
  ghost predicate Spent(p: RetryPolicy, op: Operation) {
    p.retryAfterFailedSafe ==> op.attempt >= p.maxAttempts
  }

  ghost predicate RowOk(db: Db, id: OpId)
    requires id in db.rows
  {
    && (db.rows[id].state == Completed ==> id.key in db.acked)
    && (id !in db.purged ==>
          && (db.rows[id].state != Completed ==> Kept(db, id))
          && (db.rows[id].state == Exhausted ==> Spent(db.policy, db.rows[id])))
  }

  ghost predicate RowsOk(db: Db) {
    && ValidRows(db.rows) && NamedRows(db.rows)
    && forall id | IsPercept(db.rows, id) :: RowOk(db, id)
  }

  ghost predicate OutboxOk(db: Db) {
    && (forall id | id in db.outbox ::
          && id.kind == Percept && db.outbox[id].event.key == id.key
          && (id !in db.purged ==> Kept(db, id)))
    && (forall id | id in db.first && id !in db.purged :: IsPercept(db.rows, id))
    && (forall id | id in db.doomed ::
          id.kind == Percept && (id !in db.purged ==> id in db.rows && Terminal(db.rows[id].state)))
  }

  ghost predicate DbOk(db: Db) {
    RowsOk(db) && OutboxOk(db)
  }

  ghost predicate Finished(db: Db, id: OpId) {
    id !in db.purged ==> id in db.rows && db.rows[id].state == Completed
  }

  ghost predicate Faithful(db: Db, id: OpId, event: Envelope) {
    event.key == id.key && (id !in db.purged ==> id in db.first && event == db.first[id])
  }

  ghost predicate OutOfAttempts(db: Db, id: OpId) {
    id !in db.purged ==> id in db.rows && Spent(db.policy, db.rows[id])
  }

  function IdOfPc(pc: Pc): Option<OpId> {
    match pc
    case Attempt(id) => Some(id)
    case CheckDue(id) => Some(id)
    case Release(id, _) => Some(id)
    case BeginRead(id) => Some(id)
    case BeginCommit(id) => Some(id)
    case Load(id) => Some(id)
    case Send(id, _) => Some(id)
    case Complete(id) => Some(id)
    case Clear(id) => Some(id)
    case Fail(id, _) => Some(id)
    case FailCommit(id, _) => Some(id)
    case Schedule(id) => Some(id)
    case ScheduleCommit(id, _) => Some(id)
    case ExhaustCommit(id) => Some(id)
    case Idle => None
    case Reserve(_, _) => None
    case Done(_) => None
    case Raised(_) => None
  }

  /** What a worker's place says about the durable state. */
  ghost predicate Knows(db: Db, pc: Pc) {
    && (IdOfPc(pc).Some? ==> IdOfPc(pc).value.kind == Percept)
    && match pc
       case Send(id, event) => Faithful(db, id, event)
       case Complete(id) => id.key in db.acked
       case Clear(id) => Finished(db, id)
       case ExhaustCommit(id) => OutOfAttempts(db, id)
       case _ => true
  }

  ghost predicate Inv(s: State) {
    DbOk(s.db) && forall w | w in s.pcs :: Knows(s.db, s.pcs[w])
  }

  /** The durable state only moves forward, except for purged rows. */
  ghost predicate Grows(a: Db, b: Db) {
    && a.policy == b.policy && a.purged <= b.purged && a.acked <= b.acked
    && (forall id | IsPercept(a.rows, id) && id !in b.purged ::
          && IsPercept(b.rows, id) && SameIdentity(a.rows[id], b.rows[id])
          && a.rows[id].attempt <= b.rows[id].attempt
          && (Terminal(a.rows[id].state) ==> b.rows[id] == a.rows[id]))
    && (forall id | id in a.first :: id in b.first && b.first[id] == a.first[id])
  }

  ghost predicate Good(db: Db, o: Outcome) {
    DbOk(o.db) && Grows(db, o.db) && Knows(o.db, o.pc)
  }

  lemma KnowledgeStays(a: Db, b: Db, pc: Pc)
    requires Grows(a, b) && Knows(a, pc) && NamedRows(a.rows)
    ensures Knows(b, pc)
  {
  }

  // ------------------------------------------------------------------- steps

  lemma MoveIsGood(db: Db, next: Pc)
    requires DbOk(db) && Knows(db, next)
    ensures Good(db, Outcome(db, next))
  {
    hide DbOk, Knows;
  }

  /** Replacing one percept row by its successor. */
  lemma RowMoves(db: Db, id: OpId, op: Operation)
    requires DbOk(db) && IsPercept(db.rows, id) && !Terminal(db.rows[id].state)
    requires ValidOperation(op) && SameIdentity(db.rows[id], op) && db.rows[id].attempt <= op.attempt
    requires op.state == Completed ==> id.key in db.acked
    requires op.state == Exhausted && id !in db.purged ==> Spent(db.policy, op)
    ensures var b := db.(rows := db.rows[id := op]); DbOk(b) && Grows(db, b)
  {
    hide ValidOperation, Spent, RowsOk, OutboxOk, Grows;
    RowMovesRows(db, id, op);
    RowMovesOutbox(db, id, op);
    RowMovesGrows(db, id, op);
  }

  lemma RowMovesRows(db: Db, id: OpId, op: Operation)
    requires RowsOk(db) && IsPercept(db.rows, id) && !Terminal(db.rows[id].state)
    requires ValidOperation(op) && SameIdentity(db.rows[id], op)
    requires op.state == Completed ==> id.key in db.acked
    requires op.state == Exhausted && id !in db.purged ==> Spent(db.policy, op)
    ensures RowsOk(db.(rows := db.rows[id := op]))
  {
    hide ValidOperation, Spent;
    var b := db.(rows := db.rows[id := op]);
    forall i | IsPercept(b.rows, i) ensures RowOk(b, i) {
      assert IsPercept(db.rows, i) && RowOk(db, i) && Kept(b, i) == Kept(db, i);
    }
    hide RowOk, Kept;
  }

  lemma RowMovesOutbox(db: Db, id: OpId, op: Operation)
    requires OutboxOk(db) && IsPercept(db.rows, id) && !Terminal(db.rows[id].state) && SameIdentity(db.rows[id], op)
    ensures OutboxOk(db.(rows := db.rows[id := op]))
  {
    assert forall i :: Kept(db.(rows := db.rows[id := op]), i) == Kept(db, i);
    hide Kept;
  }

  lemma RowMovesGrows(db: Db, id: OpId, op: Operation)
    requires IsPercept(db.rows, id) && !Terminal(db.rows[id].state)
    requires SameIdentity(db.rows[id], op) && db.rows[id].attempt <= op.attempt
    ensures Grows(db, db.(rows := db.rows[id := op]))
  {
  }

  lemma CommitIsGood(db: Db, id: OpId, cmd: Command, now: real, next: Pc)
    requires DbOk(db) && id.kind == Percept
    requires cmd == MarkCompleted ==> id.key in db.acked
    requires cmd == MarkExhausted ==> OutOfAttempts(db, id)
    requires Transact(db.rows, id, cmd, now).Ok? ==>
               Knows(Commit(db, id, cmd, now, next).db, next)
    ensures Good(db, Commit(db, id, cmd, now, next))
  {
    var r := Transact(db.rows, id, cmd, now);
    if r.Ok? {
      PerceptAdvance(db.rows[id], cmd, now);
      RowMoves(db, id, r.value);
    } else {
      MoveIsGood(db, Raised(r.error));
    }
    hide DbOk, Grows, Knows;
  }

  lemma PerceptAdvance(op: Operation, cmd: Command, now: real)
    requires Advance(op, cmd, now).Ok?
    ensures var r := Advance(op, cmd, now).value;
            && ValidOperation(r) && SameIdentity(op, r) && !Terminal(op.state)
            && op.attempt <= r.attempt
            && (r.state == Completed <==> cmd == MarkCompleted)
            && (r.state == Exhausted <==> cmd == MarkExhausted)
            && (cmd == MarkExhausted ==> r.attempt == op.attempt)
  {
  }

  lemma ReserveIsGood(db: Db, event: Envelope, hash: string, now: real)
    requires DbOk(db)
    ensures Good(db, ReserveStep(db, event, hash, now))
  {
    var op := InitialPercept(event, hash, now);
    var o := ReserveStep(db, event, hash, now);
    ReserveKeepsRows(db.rows, op);
    if ReservedPercept(db.rows, db.outbox, op, event).Ok? {
      if HasKey(db.rows, Percept, event.key) {
        assert AfterReserve(db.rows, op) == db.rows;
        assert o.db == db;
        hide HasKey, ValidOperation, OutboxOk;
        MoveIsGood(db, o.pc);
      } else {
        InsertIsGood(db, op, event, o.db);
        hide DbOk, Grows;
      }
    } else {
      hide DbOk;
      MoveIsGood(db, o.pc);
    }
  }

  /** `b` is `db` with a new row and its envelope. */
  ghost predicate Inserted(db: Db, op: Operation, event: Envelope, b: Db) {
    && InitialOperation(op) && op.kind == Percept && op.key == event.key
    && op.id == StableId(Percept, op.key, op.requestHash)
    && op.id !in db.rows && !HasKey(db.rows, Percept, op.key)
    && b == db.(rows := db.rows[op.id := op],
                outbox := db.outbox[op.id := OutboxEntry(event, op.createdAt)],
                first := if op.id !in db.first then db.first[op.id := event] else db.first)
  }

  lemma InsertIsGood(db: Db, op: Operation, event: Envelope, b: Db)
    requires DbOk(db) && Inserted(db, op, event, b)
    ensures DbOk(b) && Grows(db, b)
  {
    DbParts(db);
    hide DbOk, RowsOk, OutboxOk, ValidOperation, Grows, Inserted;
    InsertKeepsOutbox(db, op, event, b);
    InsertKeepsRows(db, op, event, b);
    DbWhole(b);
    InsertGrows(db, op, event, b);
  }

  lemma DbParts(db: Db)
    requires DbOk(db)
    ensures RowsOk(db) && OutboxOk(db)
  {
    hide RowsOk, OutboxOk;
  }

  lemma DbWhole(db: Db)
    requires RowsOk(db) && OutboxOk(db)
    ensures DbOk(db)
  {
    hide RowsOk, OutboxOk;
  }

  lemma InsertGrows(db: Db, op: Operation, event: Envelope, b: Db)
    requires DbOk(db) && Inserted(db, op, event, b)
    ensures Grows(db, b)
  {
    hide ValidOperation, OutboxOk, RowOk;
  }

  lemma InsertKeepsOutbox(db: Db, op: Operation, event: Envelope, b: Db)
    requires RowsOk(db) && OutboxOk(db) && Inserted(db, op, event, b)
    ensures OutboxOk(b)
    ensures op.id !in db.purged ==> Kept(b, op.id)
    ensures forall i | i in db.rows :: Kept(b, i) == Kept(db, i)
  {
    hide RowsOk, ValidOperation;
    assert op.id !in db.purged ==> op.id !in db.first;
  }

  lemma InsertKeepsRows(db: Db, op: Operation, event: Envelope, b: Db)
    requires RowsOk(db) && Inserted(db, op, event, b)
    requires op.id !in db.purged ==> Kept(b, op.id)
    requires forall i | i in db.rows :: Kept(b, i) == Kept(db, i)
    ensures RowsOk(b)
  {
    hide ValidOperation, Kept;
    forall i | IsPercept(b.rows, i) ensures RowOk(b, i) {
      if i != op.id {
        assert IsPercept(db.rows, i) && RowOk(db, i);
      }
    }
    hide RowOk;
  }

  /** Every step keeps the tables and the worker's knowledge. */
  lemma PerformIsGood(db: Db, pc: Pc, env: Env)
    requires DbOk(db) && Knows(db, pc)
    ensures Good(db, Perform(db, pc, env))
  {
    hide DbOk, Good, Transact;
    match pc
    case Idle => MoveIsGood(db, pc);
    case Reserve(event, hash) => ReserveIsGood(db, event, hash, env.now);
    case Attempt(id) => MoveIsGood(db, AttemptNext(db, id));
    case CheckDue(id) => MoveIsGood(db, DueNext(db, id, env.now, env.listed));
    case Release(id, thenBegin) => ReleaseIsGood(db, id, thenBegin, env.now);
    case BeginRead(id) => MoveIsGood(db, BeginNext(db, id));
    case BeginCommit(id) => BeginIsGood(db, id, env.now);
    case Load(id) => LoadIsGood(db, id);
    case Send(id, event) => SendIsGood(db, id, event, env.reply);
    case Complete(id) => CompleteIsGood(db, id, env.now);
    case Clear(id) => ClearIsGood(db, id);
    case Fail(id, code) => MoveIsGood(db, FailNext(db, id, code));
    case FailCommit(id, code) => CommitIsGood(db, id, MarkFailedSafe(Some(code)), env.now, Schedule(id));
    case Schedule(id) => ScheduleIsGood(db, id, env.now, env.unit);
    case ScheduleCommit(id, at) => CommitIsGood(db, id, ScheduleRetry(at), env.now, Done(false));
    case ExhaustCommit(id) => CommitIsGood(db, id, MarkExhausted, env.now, Done(false));
    case Done(_) => MoveIsGood(db, pc);
    case Raised(_) => MoveIsGood(db, pc);
  }

  lemma ReleaseIsGood(db: Db, id: OpId, thenBegin: bool, now: real)
    requires DbOk(db) && id.kind == Percept
    ensures Good(db, ReleaseStep(db, id, thenBegin, now))
  {
    hide DbOk, Grows;
    CommitIsGood(db, id, MakeRetryReady, now, if thenBegin then BeginRead(id) else Idle);
  }

  lemma BeginIsGood(db: Db, id: OpId, now: real)
    requires DbOk(db) && id.kind == Percept
    ensures Good(db, BeginStep(db, id, now))
  {
    hide DbOk, Grows;
    CommitIsGood(db, id, StartAttempt, now, Load(id));
  }

  lemma LoadIsGood(db: Db, id: OpId)
    requires DbOk(db) && id.kind == Percept
    ensures Good(db, Outcome(db, LoadNext(db, id)))
  {
    hide RowsOk;
    MoveIsGood(db, LoadNext(db, id));
  }

  lemma SendIsGood(db: Db, id: OpId, event: Envelope, reply: Reply)
    requires DbOk(db) && id.kind == Percept && Faithful(db, id, event)
    ensures Good(db, SendStep(db, id, event, reply))
  {
    if reply != AckOk {
      hide DbOk;
      MoveIsGood(db, SendStep(db, id, event, reply).pc);
    } else {
      hide ValidRows, NamedRows, OutboxOk;
      var b := SendStep(db, id, event, reply).db;
      assert forall i :: Kept(b, i) == Kept(db, i);
      AckKeepsOutbox(db, b);
    }
  }

  lemma AckKeepsOutbox(db: Db, b: Db)
    requires OutboxOk(db) && b == db.(acked := b.acked)
    ensures OutboxOk(b)
  {
  }

  lemma CompleteIsGood(db: Db, id: OpId, now: real)
    requires DbOk(db) && id.kind == Percept && id.key in db.acked
    ensures Good(db, Commit(db, id, MarkCompleted, now, Clear(id)))
  {
    hide DbOk;
    if Transact(db.rows, id, MarkCompleted, now).Ok? {
      PerceptAdvance(db.rows[id], MarkCompleted, now);
    }
    hide Advance, Grows;
    CommitIsGood(db, id, MarkCompleted, now, Clear(id));
  }

  /** Clearing is safe: the row is completed, or was purged meanwhile. */
  lemma ClearIsGood(db: Db, id: OpId)
    requires DbOk(db) && Finished(db, id)
    ensures Good(db, Outcome(db.(outbox := db.outbox - {id}), Done(true)))
  {
    hide ValidRows, NamedRows;
    var b := db.(outbox := db.outbox - {id});
    assert forall i | i != id :: Kept(b, i) == Kept(db, i);
    forall i | IsPercept(b.rows, i) ensures RowOk(b, i) {
      assert IsPercept(db.rows, i) && RowOk(db, i);
    }
    hide Kept;
  }

  lemma ScheduleIsGood(db: Db, id: OpId, now: real, unit: real)
    requires DbOk(db) && id.kind == Percept
    ensures Good(db, Outcome(db, ScheduleNext(db, id, now, unit)))
  {
    hide DbOk;
    MoveIsGood(db, ScheduleNext(db, id, now, unit));
  }

  /** Deleting selected rows: they were terminal, or deleted once before. */
  lemma PurgeIsGood(db: Db, ids: set<OpId>)
    requires DbOk(db)
    ensures DbOk(Purge(db, ids)) && Grows(db, Purge(db, ids))
  {
    hide ValidOperation;
    var b := Purge(db, ids);
    assert forall i | i !in b.purged :: Kept(b, i) == Kept(db, i);
    assert forall i | i !in b.purged && i in db.rows :: i in b.rows;
    forall i | IsPercept(b.rows, i) ensures RowOk(b, i) {
      assert IsPercept(db.rows, i) && RowOk(db, i);
    }
    hide RowOk, Kept;
  }

  lemma SelectIsGood(db: Db, ids: set<OpId>)
    requires DbOk(db) && Selectable(db.rows, ids)
    ensures var b := db.(doomed := db.doomed + ids); DbOk(b) && Grows(db, b)
  {
    hide ValidRows;
    var b := db.(doomed := db.doomed + ids);
    assert forall i :: Kept(b, i) == Kept(db, i);
  }

  // ------------------------------------------------------------- every event

  lemma OthersStay(s: State, t: State, w: nat, pc: Pc)
    requires forall v | v in s.pcs :: Knows(s.db, s.pcs[v])
    requires Grows(s.db, t.db) && NamedRows(s.db.rows) && t.pcs == s.pcs[w := pc] && Knows(t.db, pc)
    ensures forall v | v in t.pcs :: Knows(t.db, t.pcs[v])
  {
    hide Grows, Knows, NamedRows;
    forall v | v in t.pcs ensures Knows(t.db, t.pcs[v]) {
      if v != w {
        KnowledgeStays(s.db, t.db, s.pcs[v]);
      }
    }
  }

  lemma TablesMove(s: State, db: Db)
    requires Inv(s) && DbOk(db) && Grows(s.db, db)
    ensures Inv(s.(db := db))
  {
    NamesOf(s.db);
    hide Grows, Knows, DbOk;
    forall v | v in s.pcs ensures Knows(db, s.pcs[v]) {
      KnowledgeStays(s.db, db, s.pcs[v]);
    }
  }

  lemma NamesOf(db: Db)
    requires DbOk(db)
    ensures NamedRows(db.rows) && ValidRows(db.rows)
  {
  }

  lemma IdleKnows(s: State, w: nat)
    requires Inv(s)
    ensures Knows(s.db, At(s, w))
  {
    hide DbOk;
  }

  lemma ApplyKeeps(s: State, e: Event)
    requires Inv(s)
    ensures Inv(Apply(s, e)) && Grows(s.db, Apply(s, e).db)
  {
    NamesOf(s.db);
    MoveIsGood(s.db, Idle);
    hide DbOk, Perform, NamedRows, Purge, Grows, Knows, ValidRows;
    match e
    case Take(w, job) =>
      if Free(At(s, w)) && PerceptJob(job) {
        EntryKnows(s.db, job);
        OthersStay(s, Apply(s, e), w, Entry(job));
      }
    case Step(w, env) =>
      IdleKnows(s, w);
      PerformIsGood(s.db, At(s, w), env);
      OthersStay(s, Apply(s, e), w, Perform(s.db, At(s, w), env).pc);
    case Crash(w) => OthersStay(s, Apply(s, e), w, Idle);
    case PurgeSelect(ids) =>
      if Selectable(s.db.rows, ids) {
        SelectIsGood(s.db, ids);
        TablesMove(s, Apply(s, e).db);
      }
    case PurgeDelete(ids) =>
      PurgeIsGood(s.db, ids);
      TablesMove(s, Apply(s, e).db);
  }

  lemma EntryKnows(db: Db, job: Job)
    requires PerceptJob(job)
    ensures Knows(db, Entry(job))
  {
  }

  lemma {:induction false} RunKeeps(policy: RetryPolicy, es: seq<Event>)
    ensures Inv(Run(Init(policy), es)) && Run(Init(policy), es).db.policy == policy
  {
    hide Apply;
    if es != [] {
      RunKeeps(policy, es[..|es| - 1]);
      ApplyKeeps(Run(Init(policy), es[..|es| - 1]), es[|es| - 1]);
    }
  }
}
