/**
  The promises of cognition, each over every run of the protocol in which task
  ids and idempotency keys correspond.
*/
module CognitionTheorems {
  import opened Basics
  import opened ReliabilityContract
  import opened OperationStore
  import opened Backoff
  import opened Budget
  import opened CognitionProtocol
  import opened CognitionSafety

  // ------------------------------------------------- the correspondence of ids

  /** Some task taken in the run, and accepted by the store, names both. */
  predicate Pairs(es: seq<Event>, taskId: string, key: string) {
    exists e | e in es :: e.Take? && ValidTask(e.task) && e.task.taskId == taskId && e.task.key == key
  }

  /** A task id is never reused for another key. */
  ghost predicate Corresponds(es: seq<Event>) {
    forall t, a, b | Pairs(es, t, a) && Pairs(es, t, b) :: a == b
  }

  ghost function KeyOf(es: seq<Event>, taskId: string): string {
    if key :| Pairs(es, taskId, key) then key else ""
  }

  ghost function OwnerOf(es: seq<Event>): Owner {
    (t: string) => KeyOf(es, t)
  }

  lemma OwnsItsRun(es: seq<Event>, runs: seq<Event>)
    requires Corresponds(es) && forall e | e in runs :: e in es
    ensures forall e | e in runs :: OwnedEvent(e, OwnerOf(es))
  {
    forall e | e in runs ensures OwnedEvent(e, OwnerOf(es)) {
      if e.Take? && ValidTask(e.task) {
        assert Pairs(es, e.task.taskId, e.task.key);
      }
    }
  }

  lemma Keeps(policy: RetryPolicy, es: seq<Event>)
    requires Corresponds(es)
    ensures Inv(Run(Init(policy), es), OwnerOf(es)) && Run(Init(policy), es).db.policy == policy
  {
    OwnsItsRun(es, es);
    RunKeeps(policy, es, OwnerOf(es));
  }

  // ---------------------------------------------------------------- receipts

  /**
    A completed cognition has a stored receipt for its key, whichever state a
    late completion took it from.
  */
  lemma CompletedIsBacked(policy: RetryPolicy, es: seq<Event>, id: OpId)
    requires Corresponds(es) && IsCognition(Run(Init(policy), es).db.rows, id)
    requires Run(Init(policy), es).db.rows[id].state == Completed
    ensures HasReceipt(Run(Init(policy), es).db.receipts, Run(Init(policy), es).db.rows[id].key)
  {
    Keeps(policy, es);
    assert RowOk(Run(Init(policy), es).db, id);
  }

  /** Once a key has a receipt it keeps one, purges included. */
  lemma {:induction false} ReceiptsStay(policy: RetryPolicy, es: seq<Event>, more: seq<Event>, key: string)
    requires Corresponds(es + more) && HasReceipt(Run(Init(policy), es).db.receipts, key)
    ensures HasReceipt(Run(Init(policy), es + more).db.receipts, key)
    decreases |more|
  {
    hide HasReceipt, Apply, Inv;
    var all := es + more;
    if more == [] {
      assert all == es;
    } else {
      var before := more[..|more| - 1];
      assert all[..|all| - 1] == es + before;
      assert all[|all| - 1] in all && forall e | e in es + before :: e in all;
      FewerCorrespond(all, es + before);
      ReceiptsStay(policy, es, before, key);
      OwnsItsRun(all, all);
      RunKeeps(policy, es + before, OwnerOf(all));
      ApplyKeeps(Run(Init(policy), es + before), all[|all| - 1], OwnerOf(all));
    }
  }

  lemma FewerCorrespond(es: seq<Event>, fewer: seq<Event>)
    requires Corresponds(es) && forall e | e in fewer :: e in es
    ensures Corresponds(fewer)
  {
    forall t, a, b | Pairs(fewer, t, a) && Pairs(fewer, t, b) ensures a == b {
      assert Pairs(es, t, a) && Pairs(es, t, b);
    }
  }

  /** `process` answers only with a receipt for its key, and such a receipt is stored. */
  lemma AnswersAreStored(policy: RetryPolicy, es: seq<Event>, w: nat)
    requires Corresponds(es) && At(Run(Init(policy), es), w).Returned?
    ensures var s := Run(Init(policy), es);
            HasReceipt(s.db.receipts, At(s, w).task.key) && At(s, w).receipt.key == At(s, w).task.key
  {
    Keeps(policy, es);
    IdleKnows(Run(Init(policy), es), w, OwnerOf(es));
  }

  /** The error "cognition_completed_receipt_missing" is unreachable. */
  lemma NoReceiptIsMissing(policy: RetryPolicy, es: seq<Event>, w: nat)
    requires Corresponds(es)
    ensures At(Run(Init(policy), es), w) != Raised(ReceiptMissing)
  {
    Keeps(policy, es);
    IdleKnows(Run(Init(policy), es), w, OwnerOf(es));
  }

  /**
    EXHAUSTED means the attempts are used up, or the policy grants no retry, on
    every row never purged.
  */
  lemma ExhaustedIsSpent(policy: RetryPolicy, es: seq<Event>, id: OpId)
    requires Corresponds(es)
    requires var db := Run(Init(policy), es).db;
             IsCognition(db.rows, id) && id !in db.purged && db.rows[id].state == Exhausted
    ensures Run(Init(policy), es).db.rows[id].attempt >= policy.maxAttempts || !policy.retryAfterFailedSafe
  {
    Keeps(policy, es);
    assert RowOk(Run(Init(policy), es).db, id);
  }

  // ---------------------------------------------------- attempts and API calls

  /** The worker has read a row with attempts left, and will schedule another one. */
  predicate Permit(p: RetryPolicy, pc: Pc, id: OpId) {
    || (pc.ScheduleCommit? && pc.id == id)
    || (pc.Reconcile? && pc.op.id == id && Decide(p, pc.op, 0.0, 0.0).Wait?)
  }

  predicate Calling(pc: Pc, id: OpId) {
    pc.CallApi? && pc.id == id
  }

  /** The workers that may yet schedule another attempt of `id`. */
  ghost function Holders(s: State, id: OpId): set<nat> {
    set w | w in s.pcs && Permit(s.db.policy, s.pcs[w], id)
  }

  /** The workers about to call the API for `id`. */
  ghost function Callers(s: State, id: OpId): set<nat> {
    set w | w in s.pcs && Calling(s.pcs[w], id)
  }

  function AttemptAt(rows: Rows, id: OpId): int {
    if id in rows then rows[id].attempt else 0
  }

  ghost predicate CallsFit(s: State, id: OpId) {
    id !in s.db.purged ==> s.db.calls[id] + |Callers(s, id)| <= AttemptAt(s.db.rows, id)
  }

  ghost predicate Crew(s: State, workers: nat) {
    forall w | w in s.pcs :: w < workers
  }

  ghost predicate RowInBudget(s: State, workers: nat, id: OpId) {
    && Within(RowAt(s.db.rows, id), |Holders(s, id)|, workers, Allowance(s.db.policy))
    && (id.kind == Cognition ==> CallsFit(s, id))
  }

  ghost predicate InBudget(s: State, workers: nat) {
    Crew(s, workers) && forall id :: RowInBudget(s, workers, id)
  }

  /** A step charges the calls it makes, or gets ready to make, to the attempts. */
  predicate Charged(a: Db, calling: bool, b: Db, calls: bool, id: OpId) {
    id !in b.purged ==>
      && id !in a.purged
      && b.calls[id] + (if calls then 1 else 0) + AttemptAt(a.rows, id)
           <= a.calls[id] + (if calling then 1 else 0) + AttemptAt(b.rows, id)
  }

  predicate Moves(db: Db, pc: Pc, o: Outcome, row: OpId) {
    && Move(RowAt(db.rows, row), Permit(db.policy, pc, row), RowAt(o.db.rows, row), Permit(db.policy, o.pc, row), Allowance(db.policy))
    && (row.kind == Cognition ==> Charged(db, Calling(pc, row), o.db, Calling(o.pc, row), row))
  }

  lemma StartCounts(op: Operation, cmd: Command, now: real)
    requires Advance(op, cmd, now).Ok?
    ensures Advance(op, cmd, now).value.attempt == op.attempt + if cmd.StartAttempt? then 1 else 0
  {
  }

  lemma CommitMoves(db: Db, id: OpId, cmd: Command, now: real, next: Pc, row: OpId, pc: Pc)
    requires cmd.ScheduleRetry? && id == row ==> Permit(db.policy, pc, row)
    requires !Permit(db.policy, next, row) && (Calling(next, row) ==> cmd.StartAttempt? && id == row)
    ensures Moves(db, pc, Commit(db, id, cmd, now, next), row)
  {
    if Transact(db.rows, id, cmd, now).Ok? {
      CommandPromises(db.rows[id], cmd, now);
      StartCounts(db.rows[id], cmd, now);
    }
    hide Advance;
  }

  lemma TolerateMoves(db: Db, pc: Pc, o: Outcome, next: Pc, row: OpId)
    requires Moves(db, pc, o, row) && !Permit(db.policy, next, row) && !Calling(next, row)
    ensures Moves(db, pc, Tolerate(o, next), row)
  {
    hide Move, Charged;
  }

  /** A commit that is followed by `next`, or by `otherwise` on a state conflict. */
  lemma TolerantMoves(db: Db, id: OpId, cmd: Command, now: real, next: Pc, otherwise: Pc, row: OpId, pc: Pc)
    requires cmd.ScheduleRetry? && id == row ==> Permit(db.policy, pc, row)
    requires !next.ScheduleCommit? && !next.Reconcile? && !next.CallApi?
    requires !otherwise.ScheduleCommit? && !otherwise.Reconcile? && !otherwise.CallApi?
    ensures Moves(db, pc, Commit(db, id, cmd, now, next), row)
    ensures Moves(db, pc, Tolerate(Commit(db, id, cmd, now, next), otherwise), row)
  {
    hide Moves, Commit, Tolerate;
    CommitMoves(db, id, cmd, now, next, row, pc);
    TolerateMoves(db, pc, Commit(db, id, cmd, now, next), otherwise, row);
  }

  lemma ReserveMoves(db: Db, task: Task, now: real, row: OpId)
    requires ValidRows(db.rows)
    ensures Moves(db, Reserve(task), ReserveStep(db, task, now), row)
  {
    var op := InitialCognition(task, now);
    ReserveKeepsRows(db.rows, op);
    hide ValidRows, Reserved, ValidOperation;
  }

  lemma ReadyMoves(db: Db, task: Task, id: OpId, now: real, row: OpId)
    ensures Moves(db, ReadyCommit(task, id), ReadyStep(db, task, id, now), row)
  {
    if Transact(db.rows, id, MakeRetryReady, now).Ok? {
      CommandPromises(db.rows[id], MakeRetryReady, now);
      StartCounts(db.rows[id], MakeRetryReady, now);
    }
    hide Advance;
  }

  /** A scheduler takes its permit when it reads the row. */
  lemma ScheduleMoves(db: Db, id: OpId, who: Who, row: OpId)
    requires id in db.rows ==> db.rows[id].id == id
    ensures Moves(db, Schedule(id, who), Outcome(db, ScheduleNext(db, id, who)), row)
  {
    var next := ScheduleNext(db, id, who);
    if next.Reconcile? && Decide(db.policy, next.op, 0.0, 0.0).Wait? {
      WaitMeansAttemptsLeft(db.policy, next.op, 0.0, 0.0);
    }
    hide Decide;
  }

  lemma ReconcileMoves(db: Db, op: Operation, who: Who, now: real, unit: real, row: OpId)
    ensures Moves(db, Reconcile(op, who), Outcome(db, ReconcileNext(db, op, who, now, unit)), row)
  {
    hide HasReceipt, Delay;
  }

  /** The places whose next step is a read that neither takes a permit nor calls. */
  predicate Reading(pc: Pc) {
    pc.Idle? || pc.Lookup? || pc.Register? || pc.Top? || pc.Refresh? || pc.ReturnCached? || pc.Sweep?
    || pc.SweepProbe? || pc.Reread? || pc.BeginRead? || pc.BeginProbe? || pc.Save? || pc.RecoverProbe?
    || pc.Returned? || pc.Raised?
  }

  lemma ReadsMove(db: Db, pc: Pc, env: Env, row: OpId)
    requires Reading(pc)
    ensures Moves(db, pc, Perform(db, pc, env), row)
  {
    hide HasReceipt, Replaced;
    var o := Perform(db, pc, env);
    assert o.db.rows == db.rows && o.db.calls == db.calls && o.db.purged == db.purged;
    assert !Permit(db.policy, o.pc, row) && !Calling(o.pc, row) && !Permit(db.policy, pc, row);
    hide Perform;
  }

  /** Every step of one worker is a move the budget allows, and charges its calls. */
  lemma PerformMoves(db: Db, pc: Pc, env: Env, row: OpId)
    requires ValidRows(db.rows)
    ensures Moves(db, pc, Perform(db, pc, env), row)
  {
    hide Moves, Transact, Commit, Tolerate, HasReceipt, ReserveStep, ReadyStep, CallStep, ScheduleNext, ReconcileNext;
    match pc
    case Reserve(task) => ReserveMoves(db, task, env.now, row);
    case Schedule(id, who) => ScheduleMoves(db, id, who, row);
    case Reconcile(op, who) => ReconcileMoves(db, op, who, env.now, env.unit, row);
    case AcceptCommit(id, who) =>
      TolerantMoves(db, id, MarkCompleted, env.now, AcceptedNext(who), AcceptedNext(who), row, pc);
    case ScheduleCommit(id, at, who) =>
      TolerantMoves(db, id, ScheduleRetry(at), env.now, ScheduledNext(who, id), Idle, row, pc);
    case ExhaustCommit(id, who) =>
      TolerantMoves(db, id, MarkExhausted, env.now, if who.InRecovery? then Idle else Raised(RetryExhausted), Idle,
                    row, pc);
    case SweepCommit(task, id, other) =>
      TolerantMoves(db, other, MakeRetryReady, env.now, Sweep(task, id), Sweep(task, id), row, pc);
    case BeginCommit(task, id) => CommitMoves(db, id, StartAttempt, env.now, CallApi(task, id), row, pc);
    case CallApi(task, id) => CallMoves(db, task, id, env.reply, row);
    case FailCommit(task, id) =>
      TolerantMoves(db, id, MarkFailedSafe(Some(API_FAILED)), env.now, Schedule(id, InLoop(task)), Idle, row, pc);
    case ReadyCommit(task, id) => ReadyMoves(db, task, id, env.now, row);
    case Complete(task, id, receipt) =>
      TolerantMoves(db, id, MarkCompleted, env.now, Returned(task, receipt), Returned(task, receipt), row, pc);
    case RecoverFail(id) =>
      TolerantMoves(db, id, MarkFailedSafe(Some(NO_RECEIPT)), env.now, Schedule(id, InRecovery), Idle, row, pc);
    case _ => ReadsMove(db, pc, env, row);
  }

  lemma CallMoves(db: Db, task: Task, id: OpId, reply: Reply, row: OpId)
    ensures Moves(db, CallApi(task, id), CallStep(db, task, id, reply), row)
  {
  }

  /** The worker whose permits and calls an event can change. */
  function Actor(e: Event): nat {
    match e
    case Take(w, _) => w
    case Recover(w, _) => w
    case Step(w, _) => w
    case Crash(w) => w
    case PurgeSelect(_) => 0
    case PurgeDelete(_) => 0
  }

  lemma EventMoves(s: State, e: Event, id: OpId)
    requires ValidRows(s.db.rows)
    ensures var t := Apply(s, e);
            var w := Actor(e);
            && (forall v | v != w :: v in Holders(s, id) <==> v in Holders(t, id))
            && (forall v | v != w :: v in Callers(s, id) <==> v in Callers(t, id))
            && Move(RowAt(s.db.rows, id), w in Holders(s, id), RowAt(t.db.rows, id), w in Holders(t, id),
                    Allowance(s.db.policy))
            && (id.kind == Cognition ==> Charged(s.db, w in Callers(s, id), t.db, w in Callers(t, id), id))
            && t.db.policy == s.db.policy
  {
    if e.Step? {
      PerformMoves(s.db, At(s, e.w), e.env, id);
      StepKeepsPolicy(s.db, At(s, e.w), e.env);
    }
    hide Perform, ValidRows, Decide;
  }

  lemma StepKeepsPolicy(db: Db, pc: Pc, env: Env)
    ensures Perform(db, pc, env).db.policy == db.policy
  {
    hide Transact, HasReceipt, Decide, Replaced, AfterReserve, Reserved;
  }

  lemma StepKeepsRows(db: Db, pc: Pc, env: Env)
    requires ValidRows(db.rows)
    ensures ValidRows(Perform(db, pc, env).db.rows)
  {
    hide HasReceipt, Decide, Replaced, ValidRows, Transact, AfterReserve, Reserved;
    match pc
    case Reserve(task) => ReserveKeepsRows(db.rows, InitialCognition(task, env.now));
    case AcceptCommit(id, who) => TransactKeepsRows(db.rows, id, MarkCompleted, env.now);
    case ScheduleCommit(id, at, who) => TransactKeepsRows(db.rows, id, ScheduleRetry(at), env.now);
    case ExhaustCommit(id, who) => TransactKeepsRows(db.rows, id, MarkExhausted, env.now);
    case SweepCommit(task, id, other) => TransactKeepsRows(db.rows, other, MakeRetryReady, env.now);
    case BeginCommit(task, id) => TransactKeepsRows(db.rows, id, StartAttempt, env.now);
    case FailCommit(task, id) => TransactKeepsRows(db.rows, id, MarkFailedSafe(Some(API_FAILED)), env.now);
    case ReadyCommit(task, id) => TransactKeepsRows(db.rows, id, MakeRetryReady, env.now);
    case Complete(task, id, receipt) => TransactKeepsRows(db.rows, id, MarkCompleted, env.now);
    case RecoverFail(id) => TransactKeepsRows(db.rows, id, MarkFailedSafe(Some(NO_RECEIPT)), env.now);
    case _ =>
  }

  lemma EventKeepsRows(s: State, e: Event)
    requires ValidRows(s.db.rows)
    ensures ValidRows(Apply(s, e).db.rows)
  {
    if e.Step? {
      StepKeepsRows(s.db, At(s, e.w), e.env);
    }
    hide Perform, ValidOperation;
  }

  lemma RowBudgetStays(s: State, e: Event, workers: nat, id: OpId)
    requires ValidRows(s.db.rows) && Crew(s, workers) && RowInBudget(s, workers, id)
    requires workers >= 1 && ValidPolicy(s.db.policy) && ByWorkers([e], workers)
    ensures Crew(Apply(s, e), workers) && RowInBudget(Apply(s, e), workers, id)
  {
    var t := Apply(s, e);
    var w := Actor(e);
    ByWorkersMeans(s, e, workers);
    HoldersFit(Holders(t, id), workers);
    EventMoves(s, e, id);
    hide Within, Apply, Move, RowAt, AttemptAt;
    HoldersChange(Holders(s, id), Holders(t, id), w);
    HoldersChange(Callers(s, id), Callers(t, id), w);
    MoveKeepsBudget(RowAt(s.db.rows, id), w in Holders(s, id), RowAt(t.db.rows, id), w in Holders(t, id),
                    |Holders(s, id)|, |Holders(t, id)|, workers, Allowance(s.db.policy));
  }

  lemma BudgetStays(s: State, e: Event, workers: nat)
    requires ValidRows(s.db.rows) && InBudget(s, workers) && workers >= 1 && ValidPolicy(s.db.policy)
    requires ByWorkers([e], workers)
    ensures InBudget(Apply(s, e), workers)
  {
    hide Apply, Crew, RowInBudget, ByWorkers, ValidRows;
    forall id ensures Crew(Apply(s, e), workers) && RowInBudget(Apply(s, e), workers, id) {
      RowBudgetStays(s, e, workers, id);
    }
    RowBudgetStays(s, e, workers, StableId(Cognition, "", ""));
  }

  lemma ByWorkersMeans(s: State, e: Event, workers: nat)
    requires (forall w | w in s.pcs :: w < workers) && ByWorkers([e], workers)
    ensures forall w | w in Apply(s, e).pcs :: w < workers
  {
    assert e in [e];
    hide Perform;
  }

  lemma {:induction false} RunInBudget(policy: RetryPolicy, workers: nat, es: seq<Event>)
    requires ValidPolicy(policy) && workers >= 1 && ByWorkers(es, workers)
    ensures var s := Run(Init(policy), es);
            ValidRows(s.db.rows) && InBudget(s, workers) && s.db.policy == policy
  {
    var s := Run(Init(policy), es);
    if es == [] {
      forall id ensures RowInBudget(s, workers, id) {
        assert Holders(s, id) == {} && Callers(s, id) == {};
      }
    } else {
      var before := es[..|es| - 1];
      var e := es[|es| - 1];
      assert e in es && forall f | f in before :: f in es;
      RunInBudget(policy, workers, before);
      hide Apply, InBudget, ValidPolicy, ValidRows;
      BudgetStays(Run(Init(policy), before), e, workers);
      EventKeepsRows(Run(Init(policy), before), e);
      EventMoves(Run(Init(policy), before), e, StableId(Cognition, "", ""));
    }
  }

  /**
    With `workers` workers no cognition is attempted more than
    max_attempts + workers - 1 times, however their schedulers race, and unless
    its row was purged the Hermes API is called at most once an attempt.
  */
  lemma CallsAreBounded(policy: RetryPolicy, workers: nat, es: seq<Event>, id: OpId)
    requires ValidPolicy(policy) && workers >= 1 && ByWorkers(es, workers)
    requires id in Run(Init(policy), es).db.rows && id.kind == Cognition
    ensures var db := Run(Init(policy), es).db;
            && db.rows[id].attempt <= Cap(Allowance(policy), workers) <= policy.maxAttempts + workers - 1
            && (id !in db.purged ==> db.calls[id] <= db.rows[id].attempt)
  {
    RunInBudget(policy, workers, es);
    var s := Run(Init(policy), es);
    hide Run, Holders, Callers;
    assert RowInBudget(s, workers, id);
    BudgetBoundsAttempts(s.db.rows[id], |Holders(s, id)|, workers, Allowance(policy));
  }

  /** Left to one worker, no row is ever promised more attempts than it is allowed. */
  lemma OneWorkerStaysInBudget(policy: RetryPolicy, es: seq<Event>, id: OpId)
    requires ValidPolicy(policy) && ByWorkers(es, 1) && id in Run(Init(policy), es).db.rows
    ensures Promised(Run(Init(policy), es).db.rows[id]) <= Allowance(policy)
  {
    RunInBudget(policy, 1, es);
    var s := Run(Init(policy), es);
    hide Run, Holders, Callers;
    assert RowInBudget(s, 1, id);
  }
}
