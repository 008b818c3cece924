/**
  Task ids that name two keys: the receipt table is keyed by task id as well as
  by idempotency key, so a reused task id drops the receipt of the other key.
  Completions stay backed exactly when no task id is reused.
*/
module CognitionReuse {
  import opened Basics
  import opened ReliabilityContract
  import opened OperationStore
  import opened CognitionProtocol
  import opened CognitionSafety
  import opened CognitionTheorems

  type Tasks = Task -> bool

  predicate Takes(es: seq<Event>, allowed: Tasks) {
    forall e | e in es && e.Take? :: allowed(e.task)
  }

  ghost predicate Reaches(s: State, t: State, allowed: Tasks) {
    exists es :: Takes(es, allowed) && Run(s, es) == t
  }

  /** One more event at the end of a run. */
  lemma Then(s: State, t: State, e: Event, allowed: Tasks)
    requires Reaches(s, t, allowed) && (e.Take? ==> allowed(e.task))
    ensures Reaches(s, Apply(t, e), allowed)
  {
    hide Apply;
    var a :| Takes(a, allowed) && Run(s, a) == t;
    assert (a + [e])[..|a + [e]| - 1] == a;
    assert Takes(a + [e], allowed) && Run(s, a + [e]) == Apply(t, e);
  }

  lemma ReachesSelf(s: State, allowed: Tasks)
    ensures Reaches(s, s, allowed)
  {
    assert Takes([], allowed) && Run(s, []) == s;
  }

  // ----------------------------------------------------- an undisturbed call

  /** Nothing is known of the task's key yet. */
  ghost predicate Fresh(db: Db, task: Task) {
    && ValidTask(task) && ValidRows(db.rows)
    && !HasReceipt(db.receipts, task.key)
    && !HasKey(db.rows, Cognition, task.key)
    && StableId(Cognition, task.key, task.hash) !in db.rows
    && (forall t | t in db.tasks :: db.tasks[t].key != task.key)
  }

  function Env0(output: string): Env {
    Env(0.0, 0.0, Answer(output), None)
  }

  function Idd(task: Task): OpId {
    StableId(Cognition, task.key, task.hash)
  }

  /** One step of worker `w`. */
  ghost function Next(s: State, w: nat, output: string): State {
    Apply(s, Step(w, Env0(output)))
  }

  /** After the reservation: the row is new and prepared. */
  ghost predicate Reserved0(s: State, t: State, w: nat, task: Task) {
    var op := InitialCognition(task, 0.0);
    && t.db == s.db.(rows := s.db.rows[op.id := op], tasks := t.db.tasks)
    && t.db.tasks == (if task.taskId in s.db.tasks then s.db.tasks else s.db.tasks[task.taskId := task])
    && At(t, w) == Top(task, op)
  }

  lemma Reserves(s: State, w: nat, task: Task, output: string, from: State, allowed: Tasks) returns (t: State)
    requires Reaches(from, s, allowed) && allowed(task) && Free(At(s, w)) && Fresh(s.db, task)
    ensures Reaches(from, t, allowed) && Reserved0(s, t, w, task)
  {
    var s1 := Apply(s, Take(w, task));
    Then(from, s, Take(w, task), allowed);
    var s2 := Next(s1, w, output);
    Then(from, s1, Step(w, Env0(output)), allowed);
    assert At(s2, w) == Register(task) && s2.db == s.db;
    var s3 := Next(s2, w, output);
    Then(from, s2, Step(w, Env0(output)), allowed);
    assert At(s3, w) == Reserve(task) && s3.db == s.db.(tasks := s3.db.tasks);
    hide HasReceipt, Reaches;
    t := Next(s3, w, output);
    Then(from, s3, Step(w, Env0(output)), allowed);
    assert InitialOperation(InitialCognition(task, 0.0));
    hide ValidOperation;
  }

  /** One step, given what it does. */
  lemma Moves(s: State, w: nat, db: Db, pc: Pc, output: string, from: State, allowed: Tasks) returns (t: State)
    requires Reaches(from, s, allowed) && Perform(s.db, At(s, w), Env0(output)) == Outcome(db, pc)
    ensures Reaches(from, t, allowed) && t.db == db && At(t, w) == pc
  {
    hide Perform, Reaches;
    t := Next(s, w, output);
    Then(from, s, Step(w, Env0(output)), allowed);
  }

  /** From the loop head to the API call: the attempt is in flight. */
  lemma Begins(s: State, w: nat, task: Task, op: Operation, output: string, from: State, allowed: Tasks)
    returns (t: State, started: Operation)
    requires Reaches(from, s, allowed) && At(s, w) == Top(task, op) && op == InitialCognition(task, 0.0)
    requires ValidTask(task) && !HasReceipt(s.db.receipts, task.key)
    requires op.id in s.db.rows && s.db.rows[op.id] == op
    ensures Reaches(from, t, allowed) && At(t, w) == CallApi(task, op.id)
    ensures t.db == s.db.(rows := s.db.rows[op.id := started])
    ensures ValidOperation(started) && started == op.(state := InFlight, attempt := 1)
  {
    var id := op.id;
    started := op.(state := InFlight, attempt := 1);
    assert ValidOperation(op) && Advance(op, StartAttempt, 0.0) == Ok(started);
    hide HasReceipt, Reaches, Advance, ValidOperation;
    var s1 := Moves(s, w, s.db, Refresh(task, op), output, from, allowed);
    var s2 := Moves(s1, w, s.db, BeginRead(task, id), output, from, allowed);
    var s3 := Moves(s2, w, s.db, BeginCommit(task, id), output, from, allowed);
    t := Moves(s3, w, s.db.(rows := s.db.rows[id := started]), CallApi(task, id), output, from, allowed);
  }

  /** From the API call to the answer. */
  lemma Completes(op: Operation, completed: Operation)
    requires ValidOperation(op) && op.kind == Cognition && op.state == InFlight
    requires completed == op.(state := Completed, nextAttemptAt := None, errorCode := None, updatedAt := 0.0)
    ensures Advance(op, MarkCompleted, 0.0) == Ok(completed)
  {
  }

  lemma Answers(s: State, w: nat, task: Task, op: Operation, output: string, from: State, allowed: Tasks)
    returns (t: State, completed: Operation)
    requires Reaches(from, s, allowed) && At(s, w) == CallApi(task, op.id)
    requires ValidOperation(op) && op.kind == Cognition && op.state == InFlight && op.key == task.key
    requires op.id in s.db.rows && s.db.rows[op.id] == op
    ensures Reaches(from, t, allowed) && At(t, w) == Returned(task, Receipt(task.key, output))
    ensures t.db == s.db.(rows := s.db.rows[op.id := completed],
                          receipts := Replaced(s.db.receipts, task.taskId, Receipt(task.key, output)),
                          calls := s.db.calls + multiset{op.id})
    ensures completed.state == Completed && completed.attempt == op.attempt
    ensures completed.kind == Cognition && completed.key == task.key && completed.id == op.id
  {
    var id := op.id;
    var receipt := Receipt(task.key, output);
    completed := op.(state := Completed, nextAttemptAt := None, errorCode := None, updatedAt := 0.0);
    hide HasReceipt, Reaches, Advance, ValidOperation, Replaced;
    Completes(op, completed);
    var called := s.db.(calls := s.db.calls + multiset{id});
    var saved := called.(receipts := Replaced(s.db.receipts, task.taskId, receipt));
    var s1 := Moves(s, w, called, Save(task, id, output), output, from, allowed);
    var s2 := Moves(s1, w, saved, Complete(task, id, receipt), output, from, allowed);
    t := Moves(s2, w, saved.(rows := s.db.rows[id := completed]), Returned(task, receipt), output, from, allowed);
  }

  /**
    A worker left alone with a new key calls the API once and answers with its
    output, the row completed and the receipt stored.
  */
  lemma FreshKeyIsAnswered(s: State, w: nat, task: Task, output: string, from: State, allowed: Tasks)
    returns (t: State)
    requires Reaches(from, s, allowed) && allowed(task) && Free(At(s, w)) && Fresh(s.db, task)
    ensures Reaches(from, t, allowed) && At(t, w) == Returned(task, Receipt(task.key, output))
    ensures Idd(task) in t.db.rows && t.db.rows[Idd(task)].state == Completed
    ensures t.db.rows[Idd(task)].key == task.key && t.db.rows[Idd(task)].kind == Cognition
    ensures t.db.rows == s.db.rows[Idd(task) := t.db.rows[Idd(task)]] && t.db.rows[Idd(task)].attempt == 1
    ensures t.db.receipts == Replaced(s.db.receipts, task.taskId, Receipt(task.key, output))
    ensures t.db.calls == s.db.calls + multiset{Idd(task)}
    ensures t.db.tasks == (if task.taskId in s.db.tasks then s.db.tasks else s.db.tasks[task.taskId := task])
  {
    hide Reaches, HasReceipt, ValidOperation;
    var op := InitialCognition(task, 0.0);
    var s1 := Reserves(s, w, task, output, from, allowed);
    var s2, started := Begins(s1, w, task, op, output, from, allowed);
    var completed;
    t, completed := Answers(s2, w, task, started, output, from, allowed);
  }

  // ------------------------------------------------------------- reused ids

  ghost predicate Backed(s: State) {
    forall id | IsCognition(s.db.rows, id) && s.db.rows[id].state == Completed ::
      HasReceipt(s.db.receipts, s.db.rows[id].key)
  }

  ghost predicate AlwaysBacked(policy: RetryPolicy, allowed: Tasks) {
    forall es | Takes(es, allowed) :: Backed(Run(Init(policy), es))
  }

  ghost predicate OwnIds(allowed: Tasks) {
    forall a, b | allowed(a) && allowed(b) && ValidTask(a) && ValidTask(b) && a.taskId == b.taskId :: a.key == b.key
  }

  lemma {:induction false} RowsStayValid(policy: RetryPolicy, es: seq<Event>)
    ensures ValidRows(Run(Init(policy), es).db.rows)
  {
    hide Apply;
    if es != [] {
      RowsStayValid(policy, es[..|es| - 1]);
      EventKeepsRows(Run(Init(policy), es[..|es| - 1]), es[|es| - 1]);
    }
  }

  lemma ReachedRows(policy: RetryPolicy, s: State, allowed: Tasks)
    requires Reaches(Init(policy), s, allowed)
    ensures ValidRows(s.db.rows)
  {
    var es :| Takes(es, allowed) && Run(Init(policy), es) == s;
    RowsStayValid(policy, es);
  }

  lemma ByRun(policy: RetryPolicy, s: State, allowed: Tasks)
    requires Reaches(Init(policy), s, allowed)
    ensures exists es :: Takes(es, allowed) && Run(Init(policy), es) == s
  {
  }

  /** Two valid tasks with one id and two keys: the second answer drops the first receipt. */
  lemma ReuseDropsReceipt(policy: RetryPolicy, a: Task, b: Task, allowed: Tasks)
    requires allowed(a) && allowed(b) && ValidTask(a) && ValidTask(b) && a.taskId == b.taskId && a.key != b.key
    ensures exists es :: Takes(es, allowed) && !Backed(Run(Init(policy), es))
  {
    var s := Init(policy);
    ReachesSelf(s, allowed);
    assert Fresh(s.db, a);
    var t := FreshKeyIsAnswered(s, 0, a, "", s, allowed);
    hide ValidOperation, Run, ValidTask, Reaches;
    ReachedRows(policy, t, allowed);
    hide ValidRows;
    assert t.db.receipts == map[a.taskId := Receipt(a.key, "")];
    assert Fresh(t.db, b);
    var u := FreshKeyIsAnswered(t, 0, b, "", s, allowed);
    assert u.db.receipts == map[a.taskId := Receipt(b.key, "")];
    assert IsCognition(u.db.rows, Idd(a)) && !Backed(u);
    ByRun(policy, u, allowed);
  }

  /**
    In every run over the allowed tasks a completed cognition has its receipt,
    exactly when no two of them share a task id under different keys.
  */
  lemma AlwaysBackedIff(policy: RetryPolicy, allowed: Tasks)
    ensures AlwaysBacked(policy, allowed) <==> OwnIds(allowed)
  {
    if OwnIds(allowed) {
      forall es | Takes(es, allowed) ensures Backed(Run(Init(policy), es)) {
        assert Corresponds(es) by {
          forall t, x, y | Pairs(es, t, x) && Pairs(es, t, y) ensures x == y {
          }
        }
        forall id | IsCognition(Run(Init(policy), es).db.rows, id) && Run(Init(policy), es).db.rows[id].state == Completed
          ensures HasReceipt(Run(Init(policy), es).db.receipts, Run(Init(policy), es).db.rows[id].key)
        {
          CompletedIsBacked(policy, es, id);
        }
      }
    } else {
      var a, b :| allowed(a) && allowed(b) && ValidTask(a) && ValidTask(b) && a.taskId == b.taskId && a.key != b.key;
      ReuseDropsReceipt(policy, a, b, allowed);
    }
  }
}
