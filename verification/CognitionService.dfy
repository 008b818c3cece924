/**
  The cognition service in its own, imperative form: the retry loop terminates,
  calls the API at most as often as attempts are left, never once a receipt is
  durable, and answers only with a stored receipt. Each call is a solo execution
  of the step system. (src/hermes_life_bridge/cognition_service.py, cognition_store.py)
*/
module CognitionService {
  import opened Basics
  import opened ReliabilityContract
  import opened SqlOrder
  import opened OperationStore
  import opened Backoff
  import opened Budget
  import opened RetryEngine
  import opened CognitionAnswers
  import C = CognitionProtocol

  // -------------------------------------------------------- solo execution

  ghost function Solo(db: C.Db, pc: C.Pc, envs: seq<C.Env>): C.Outcome {
    if envs == [] then C.Outcome(db, pc)
    else
      var o := Solo(db, pc, envs[..|envs| - 1]);
      C.Perform(o.db, o.pc, envs[|envs| - 1])
  }

  /** One worker's program leads from `a` to `b`. */
  ghost predicate Reaches(a: C.Outcome, b: C.Outcome) {
    exists envs :: Solo(a.db, a.pc, envs) == b
  }

  lemma ReachesSelf(a: C.Outcome)
    ensures Reaches(a, a)
  {
    assert Solo(a.db, a.pc, []) == a;
  }

  lemma ReachesStep(a: C.Outcome, b: C.Outcome, env: C.Env)
    requires Reaches(a, b)
    ensures Reaches(a, C.Perform(b.db, b.pc, env))
  {
    var envs :| Solo(a.db, a.pc, envs) == b;
    assert (envs + [env])[..|envs|] == envs;
    hide C.Perform;
    assert Solo(a.db, a.pc, envs + [env]) == C.Perform(b.db, b.pc, env);
  }

  lemma {:induction false} SoloSplits(db: C.Db, pc: C.Pc, a: seq<C.Env>, b: seq<C.Env>)
    ensures var o := Solo(db, pc, a);
            Solo(db, pc, a + b) == Solo(o.db, o.pc, b)
  {
    hide C.Perform;
    if b == [] {
      assert a + b == a;
    } else {
      SoloSplits(db, pc, a, b[..|b| - 1]);
      assert (a + b)[..|a + b| - 1] == a + b[..|b| - 1];
    }
  }

  lemma ReachesTrans(a: C.Outcome, b: C.Outcome, c: C.Outcome)
    requires Reaches(a, b) && Reaches(b, c)
    ensures Reaches(a, c)
  {
    var x :| Solo(a.db, a.pc, x) == b;
    var y :| Solo(b.db, b.pc, y) == c;
    SoloSplits(a.db, a.pc, x, y);
    hide Solo;
    assert Solo(a.db, a.pc, x + y) == c;
  }

  /** Two and three steps. */
  lemma ReachesTwo(a: C.Outcome, b: C.Outcome, c: C.Outcome, e: C.Env, f: C.Env)
    requires C.Perform(a.db, a.pc, e) == b && C.Perform(b.db, b.pc, f) == c
    ensures Reaches(a, c)
  {
    hide C.Perform, Reaches;
    ReachesSelf(a);
    ReachesStep(a, a, e);
    ReachesStep(a, b, f);
  }

  lemma ReachesThree(a: C.Outcome, b: C.Outcome, c: C.Outcome, d: C.Outcome, e: C.Env, f: C.Env, g: C.Env)
    requires C.Perform(a.db, a.pc, e) == b && C.Perform(b.db, b.pc, f) == c && C.Perform(c.db, c.pc, g) == d
    ensures Reaches(a, d)
  {
    hide C.Perform, Reaches;
    ReachesTwo(a, b, c, e, f);
    ReachesStep(a, c, g);
  }

  /** A solo execution is a run of the protocol by that worker. */
  lemma {:induction false} SoloIsRun(s: C.State, w: nat, envs: seq<C.Env>)
    ensures var t := C.Run(s, seq(|envs|, i requires 0 <= i < |envs| => C.Step(w, envs[i])));
            t.db == Solo(s.db, C.At(s, w), envs).db && C.At(t, w) == Solo(s.db, C.At(s, w), envs).pc
  {
    hide C.Perform;
    if envs != [] {
      var es := seq(|envs|, i requires 0 <= i < |envs| => C.Step(w, envs[i]));
      var before := envs[..|envs| - 1];
      SoloIsRun(s, w, before);
      assert es[..|es| - 1] == seq(|before|, i requires 0 <= i < |before| => C.Step(w, before[i]));
    }
  }

  // ---------------------------------------------------------- receipt table

  ghost predicate OneEach(receipts: C.Receipts) {
    forall t, u | t in receipts && u in receipts && t != u :: receipts[t].key != receipts[u].key
  }

  lemma ReceiptIs(receipts: C.Receipts, t: string)
    requires OneEach(receipts) && t in receipts
    ensures C.HasReceipt(receipts, receipts[t].key) && C.ReceiptOf(receipts, receipts[t].key) == receipts[t]
  {
  }

  class CognitionStore {
    var tasks: map<string, C.Task>
    var receipts: C.Receipts

    ghost predicate Valid()
      reads this
    {
      OneEach(receipts)
    }

    constructor ()
      ensures Valid() && tasks == map[] && receipts == map[]
    {
      tasks, receipts := map[], map[];
    }

    method GetReceipt(key: string) returns (r: Option<C.Receipt>)
      requires Valid()
      ensures r == if C.HasReceipt(receipts, key) then Some(C.ReceiptOf(receipts, key)) else None
    {
      if t :| t in receipts && receipts[t].key == key {
        ReceiptIs(receipts, t);
        return Some(receipts[t]);
      }
      return None;
    }

    /** INSERT OR IGNORE, then compare the request hash stored for the key. */
    method ReserveTask(task: C.Task) returns (ok: bool)
      modifies this`tasks
      ensures ok <==> !exists t | t in old(tasks) :: old(tasks)[t].key == task.key && old(tasks)[t].hash != task.hash
      ensures tasks == if task.taskId in old(tasks) || exists t | t in old(tasks) :: old(tasks)[t].key == task.key
                       then old(tasks) else old(tasks)[task.taskId := task]
    {
      if t :| t in tasks && tasks[t].key == task.key && tasks[t].hash != task.hash {
        return false;
      }
      if task.taskId !in tasks && !exists t | t in tasks :: tasks[t].key == task.key {
        tasks := tasks[task.taskId := task];
      }
      return true;
    }

    /** INSERT OR REPLACE */
    method SaveReceipt(taskId: string, receipt: C.Receipt)
      requires Valid()
      modifies this`receipts
      ensures Valid() && receipts == C.Replaced(old(receipts), taskId, receipt)
    {
      receipts := C.Replaced(receipts, taskId, receipt);
    }
  }

  // -------------------------------------------------------------- the class

  function PlaceOf(task: C.Task, a: Answer): C.Pc {
    match a case Answered(receipt) => C.Returned(task, receipt) case Failed(failure) => C.Raised(failure)
  }

  /** The receipt probe the service hands to the engine. */
  function ProbeOf(receipts: C.Receipts): Operation -> bool {
    (op: Operation) => C.HasReceipt(receipts, op.key)
  }

  // -------------------------------------------- engine calls as solo steps

  function EnvAt(now: real, unit: real): C.Env {
    C.Env(now, unit, C.ApiError, None)
  }

  /** A durable cognition row. */
  ghost predicate Durable(db: C.Db, id: OpId, state: OperationState) {
    && id in db.rows && ValidOperation(db.rows[id]) && db.rows[id].kind == Cognition && db.rows[id].state == state
    && db.rows[id].id == id && id.kind == Cognition && db.rows[id].key == id.key
    && (state != Prepared ==> db.rows[id].attempt >= 1) && db.policy.reconcileBeforeRetry
  }

  /** Where schedule_failed_safe leaves its worker. */
  function ScheduledPlace(who: C.Who, id: OpId, d: Disposition): C.Pc {
    match d
    case WasCompleted => C.AcceptedNext(who)
    case WasScheduled => C.ScheduledNext(who, id)
    case _ => if who.InRecovery? then C.Idle else C.Raised(C.RetryExhausted)
  }

  /** What schedule_failed_safe plans for the failed row `id`. */
  ghost predicate Planned(db: C.Db, id: OpId, plan: Plan, now: real, unit: real)
    requires id in db.rows
  {
    if C.HasReceipt(db.receipts, id.key) then plan == Do(MarkCompleted, WasCompleted)
    else match Decide(db.policy, db.rows[id], now, unit)
      case Exhaust => plan == Do(MarkExhausted, WasExhausted)
      case Wait(at) => plan == Do(ScheduleRetry(at), WasScheduled)
      case FreshDecision => false
      case Refuse => false
  }

  lemma DecisionIsPlan(db: C.Db, id: OpId, now: real, unit: real)
    requires Durable(db, id, FailedSafe)
    ensures var op := db.rows[id];
            var plan := SchedulePlan(db.policy, op, Some(ProbeOf(db.receipts)), now, unit);
            && plan.Ok? && plan.value.Do? && Planned(db, id, plan.value, now, unit)
            && Advance(op, plan.value.cmd, now).Ok?
  {
    ScheduleGoes(db.rows[id], db.policy, Some(ProbeOf(db.receipts)), now, unit);
    hide Delay, C.HasReceipt;
  }

  lemma ScheduleReaches(db: C.Db, id: OpId, who: C.Who, now: real, unit: real)
    requires Durable(db, id, FailedSafe)
    ensures var r := ScheduleOn(db.rows, id, db.policy, Some(ProbeOf(db.receipts)), now, unit);
            && r.Ok? && r.value.disposition in {WasCompleted, WasScheduled, WasExhausted}
            && Reaches(C.Outcome(db, C.Schedule(id, who)),
                       C.Outcome(db.(rows := db.rows[id := r.value.op]), ScheduledPlace(who, id, r.value.disposition)))
  {
    var env := EnvAt(now, unit);
    DecisionIsPlan(db, id, now, unit);
    var plan := SchedulePlan(db.policy, db.rows[id], Some(ProbeOf(db.receipts)), now, unit).value;
    var after := db.(rows := db.rows[id := Advance(db.rows[id], plan.cmd, now).value]);
    PlannedEnds(db, id, plan, now, unit);
    hide Advance, SchedulePlan, Decide, ValidOperation, C.HasReceipt, Planned;
    var next := C.ReconcileNext(db, db.rows[id], who, now, unit);
    CommitStep(db, id, who, plan, env);
    hide C.Commit;
    ReachesThree(C.Outcome(db, C.Schedule(id, who)), C.Outcome(db, C.Reconcile(db.rows[id], who)),
                 C.Outcome(db, next), C.Outcome(after, ScheduledPlace(who, id, plan.disposition)), env, env, env);
  }

  lemma PlannedEnds(db: C.Db, id: OpId, plan: Plan, now: real, unit: real)
    requires id in db.rows && Planned(db, id, plan, now, unit)
    ensures plan.Do? && plan.disposition in {WasCompleted, WasScheduled, WasExhausted}
  {
    hide Decide;
  }

  lemma CommitStep(db: C.Db, id: OpId, who: C.Who, plan: Plan, env: C.Env)
    requires Durable(db, id, FailedSafe) && plan.Do? && Advance(db.rows[id], plan.cmd, env.now).Ok?
    requires Planned(db, id, plan, env.now, env.unit)
    ensures C.Perform(db, C.ReconcileNext(db, db.rows[id], who, env.now, env.unit), env)
         == C.Outcome(db.(rows := db.rows[id := Advance(db.rows[id], plan.cmd, env.now).value]),
                      ScheduledPlace(who, id, plan.disposition))
  {
    hide Advance, Decide, ValidOperation, C.HasReceipt;
  }

  lemma BeginReaches(db: C.Db, task: C.Task, id: OpId, now: real)
    requires Durable(db, id, Prepared)
    ensures var r := BeginOn(db.rows, id, db.policy, Some(ProbeOf(db.receipts)), now);
            && r.Ok? && r.value.disposition in {WasCompleted, WasStarted}
            && (r.value.disposition == WasCompleted ==> C.HasReceipt(db.receipts, id.key))
            && (r.value.disposition == WasStarted ==> r.value.op.state == InFlight && r.value.op.attempt == db.rows[id].attempt + 1)
            && Reaches(C.Outcome(db, C.BeginRead(task, id)),
                       C.Outcome(db.(rows := db.rows[id := r.value.op]),
                                 if r.value.disposition == WasCompleted then C.ReturnCached(task) else C.CallApi(task, id)))
  {
    BegunIs(db, id, now);
    BegunSteps(db, task, id, now);
    var env := EnvAt(now, 0.0);
    var a := C.Outcome(db, C.BeginRead(task, id));
    var r := BeginOn(db.rows, id, db.policy, Some(ProbeOf(db.receipts)), now).value;
    var d := C.Outcome(db.(rows := db.rows[id := r.op]),
                       if r.disposition == WasCompleted then C.ReturnCached(task) else C.CallApi(task, id));
    hide C.HasReceipt, C.Perform, BeginOn, Advance, ValidOperation, Reaches;
    if db.rows[id].attempt == 0 {
      ReachesTwo(a, C.Outcome(db, C.BeginCommit(task, id)), d, env, env);
    } else {
      var c := C.Outcome(db, if C.HasReceipt(db.receipts, id.key) then C.AcceptCommit(id, C.InBegin(task)) else C.BeginCommit(task, id));
      ReachesThree(a, C.Outcome(db, C.BeginProbe(task, id)), c, d, env, env, env);
    }
  }

  /** What begin_attempt decides: an accepted receipt counts only after a first attempt. */
  lemma BegunIs(db: C.Db, id: OpId, now: real)
    requires Durable(db, id, Prepared)
    ensures var accepted := db.rows[id].attempt > 0 && C.HasReceipt(db.receipts, id.key);
            var r := Advance(db.rows[id], if accepted then MarkCompleted else StartAttempt, now);
            && r.Ok? && (!accepted ==> r.value.state == InFlight && r.value.attempt == db.rows[id].attempt + 1)
            && BeginOn(db.rows, id, db.policy, Some(ProbeOf(db.receipts)), now)
                 == Ok(RetryResult(if accepted then WasCompleted else WasStarted, r.value))
  {
    hide C.HasReceipt;
  }

  lemma BegunSteps(db: C.Db, task: C.Task, id: OpId, now: real)
    requires Durable(db, id, Prepared)
    ensures var env := EnvAt(now, 0.0);
            var accepted := db.rows[id].attempt > 0 && C.HasReceipt(db.receipts, id.key);
            var r := Advance(db.rows[id], if accepted then MarkCompleted else StartAttempt, now);
            && C.Perform(db, C.BeginRead(task, id), env)
                 == C.Outcome(db, if db.rows[id].attempt > 0 then C.BeginProbe(task, id) else C.BeginCommit(task, id))
            && C.Perform(db, C.BeginProbe(task, id), env)
                 == C.Outcome(db, if C.HasReceipt(db.receipts, id.key) then C.AcceptCommit(id, C.InBegin(task)) else C.BeginCommit(task, id))
            && (r.Ok? ==>
                  C.Perform(db, if accepted then C.AcceptCommit(id, C.InBegin(task)) else C.BeginCommit(task, id), env)
                    == C.Outcome(db.(rows := db.rows[id := r.value]),
                                 if accepted then C.ReturnCached(task) else C.CallApi(task, id)))
  {
    hide C.HasReceipt, Advance, ValidOperation;
  }

  lemma SweepReachesOne(db: C.Db, task: C.Task, own: OpId, id: OpId, policies: Registry, now: real)
    requires Durable(db, id, RetryWait) && policies(Cognition) == db.policy
    ensures Reaches(C.Outcome(db, C.Sweep(task, own)),
                    C.Outcome(db.(rows := db.rows[id := Released(policies, Some(ProbeOf(db.receipts)), now)(db.rows[id])]),
                              C.Sweep(task, own)))
  {
    var env := C.Env(now, 0.0, C.ApiError, Some(id));
    var op := db.rows[id];
    var accepted := C.HasReceipt(db.receipts, id.key);
    var cmd := if accepted then MarkCompleted else MakeRetryReady;
    ReleaseGoes(op, db.policy, Some(ProbeOf(db.receipts)), now);
    assert Advance(op, cmd, now).Ok?;
    assert Released(policies, Some(ProbeOf(db.receipts)), now)(op) == Advance(op, cmd, now).value;
    var after := db.(rows := db.rows[id := Advance(op, cmd, now).value]);
    SweepSteps(db, task, own, id, now);
    hide Advance, ValidOperation, C.HasReceipt, Released, C.Perform, Durable, Reaches;
    ReachesThree(C.Outcome(db, C.Sweep(task, own)), C.Outcome(db, C.SweepProbe(task, own, id)),
                 C.Outcome(db, if accepted then C.AcceptCommit(id, C.InSweep(task, own)) else C.SweepCommit(task, own, id)),
                 C.Outcome(after, C.Sweep(task, own)), env, env, env);
  }

  lemma SweepSteps(db: C.Db, task: C.Task, own: OpId, id: OpId, now: real)
    requires Durable(db, id, RetryWait)
    ensures var env := C.Env(now, 0.0, C.ApiError, Some(id));
            var accepted := C.HasReceipt(db.receipts, id.key);
            var r := Advance(db.rows[id], if accepted then MarkCompleted else MakeRetryReady, now);
            var next := if accepted then C.AcceptCommit(id, C.InSweep(task, own)) else C.SweepCommit(task, own, id);
            && C.Perform(db, C.Sweep(task, own), env) == C.Outcome(db, C.SweepProbe(task, own, id))
            && C.Perform(db, C.SweepProbe(task, own, id), env) == C.Outcome(db, next)
            && (r.Ok? ==> C.Perform(db, next, env) == C.Outcome(db.(rows := db.rows[id := r.value]), C.Sweep(task, own)))
  {
    hide Advance, ValidOperation, C.HasReceipt;
  }

  /** release_due over any set of due cognitions. */
  lemma {:induction false} SweepReaches(db: C.Db, task: C.Task, own: OpId, ids: set<OpId>, policies: Registry, now: real)
    requires policies(Cognition) == db.policy && forall id | id in ids :: Durable(db, id, RetryWait)
    ensures Reaches(C.Outcome(db, C.Sweep(task, own)),
                    C.Outcome(db.(rows := Mapped(db.rows, ids, Released(policies, Some(ProbeOf(db.receipts)), now))),
                              C.Sweep(task, own)))
    decreases |ids|
  {
    var f := Released(policies, Some(ProbeOf(db.receipts)), now);
    var a := C.Outcome(db, C.Sweep(task, own));
    hide Released, Reaches, ValidOperation;
    if ids == {} {
      assert Mapped(db.rows, ids, f) == db.rows && db.(rows := db.rows) == db;
      ReachesSelf(a);
    } else {
      var id :| id in ids;
      SweepReaches(db, task, own, ids - {id}, policies, now);
      var before := db.(rows := Mapped(db.rows, ids - {id}, f));
      assert before.rows[id] == db.rows[id];
      SweepReachesOne(before, task, own, id, policies, now);
      assert Mapped(db.rows, ids, f) == before.rows[id := f(db.rows[id])];
      ReachesTrans(a, C.Outcome(before, C.Sweep(task, own)),
                   C.Outcome(before.(rows := before.rows[id := f(db.rows[id])]), C.Sweep(task, own)));
    }
  }

  class CognitionService {
    const store: CognitionStore
    const operations: Store
    const retry: RetryEngine
    const world: nat -> Input
    var tick: nat
    var startupRecovered: bool
    ghost var calls: multiset<OpId>
    /** The same calls in order, each with the input that answered it. */
    ghost var asked: seq<Asking>
    /** The call under way: where it began and where it is. */
    ghost var start: C.Outcome
    ghost var place: C.Pc

    ghost predicate Valid()
      reads this, store, operations, retry
    {
      && retry.store == operations && retry.Valid() && store.Valid() && NamedRows(operations.rows)
      && retry.policies(Cognition).reconcileBeforeRetry
    }

    constructor (store: CognitionStore, operations: Store, retry: RetryEngine, world: nat -> Input)
      requires retry.store == operations && retry.Valid() && store.Valid() && NamedRows(operations.rows)
      requires retry.policies(Cognition).reconcileBeforeRetry
      ensures Valid() && this.store == store && this.operations == operations && this.retry == retry && calls == multiset{}
      ensures this.world == world && tick == 0 && asked == [] && !startupRecovered
    {
      this.store, this.operations, this.retry, this.world := store, operations, retry, world;
      tick, calls, asked, startupRecovered := 0, multiset{}, [], false;
    }

    ghost function Tables(): C.Db
      reads this, store, operations, retry
    {
      C.Db(retry.policies(Cognition), operations.rows, store.tasks, store.receipts, {}, {}, calls)
    }

    ghost function Setup(): Setting {
      Setting(operations.rank, retry.policies(Cognition), retry.unit, world)
    }

    ghost function Seen(): View
      reads this, store, operations
    {
      View(operations.rows, store.receipts, asked)
    }

    /** No receipt is stored for the task's key. */
    ghost predicate Unanswered(task: C.Task)
      reads store
    {
      !C.HasReceipt(store.receipts, task.key)
    }

    ghost predicate OnTrack()
      reads this, store, operations, retry
    {
      Valid() && Reaches(start, C.Outcome(Tables(), place))
    }

    ghost method Begin(pc: C.Pc)
      requires Valid()
      modifies this`start, this`place
      ensures OnTrack() && place == pc && start == C.Outcome(Tables(), pc)
    {
      start, place := C.Outcome(Tables(), pc), pc;
      ReachesSelf(start);
    }

    /** A step of the worker from the tables `before` to the present ones. */
    ghost method Went(before: C.Db, env: C.Env, next: C.Pc)
      requires Valid() && Reaches(start, C.Outcome(before, place))
      requires C.Perform(before, place, env) == C.Outcome(Tables(), next)
      modifies this`place
      ensures OnTrack() && place == next
    {
      hide C.Perform, Reaches;
      ReachesStep(start, C.Outcome(before, place), env);
      place := next;
    }

    /** Several steps at once, from the tables `before` to the present ones. */
    ghost method Jumped(before: C.Db, next: C.Pc)
      requires Valid() && Reaches(start, C.Outcome(before, place))
      requires Reaches(C.Outcome(before, place), C.Outcome(Tables(), next))
      modifies this`place
      ensures OnTrack() && place == next
    {
      hide Reaches;
      ReachesTrans(start, C.Outcome(before, place), C.Outcome(Tables(), next));
      place := next;
    }

    ghost predicate Holds(id: OpId)
      reads operations
    {
      id in operations.rows && operations.rows[id].kind == Cognition && id.kind == Cognition
    }

    lemma PolicyIsValid()
      requires Valid()
      ensures ValidPolicy(retry.policies(Cognition))
    {
      hide Explains, ValidRows, InitialOperation, NamedRows, OneEach;
    }

    lemma DurableRow(id: OpId)
      requires Valid() && id in operations.rows && operations.rows[id].kind == Cognition
      ensures Durable(Tables(), id, operations.rows[id].state)
    {
      retry.RowWasAttempted(id);
      hide GoodRegistry, Explains, ValidRows, InitialOperation, ValidOperation;
    }

    // ------------------------------------------------------------ engine calls

    method Schedule(id: OpId, now: real, ghost who: C.Who) returns (r: RetryResult)
      requires OnTrack() && place == C.Schedule(id, who) && Holds(id) && operations.rows[id].state == FailedSafe
      modifies this`place, operations`rows, operations`journal
      ensures OnTrack() && place == ScheduledPlace(who, id, r.disposition) && Holds(id) && operations.rows[id] == r.op
      ensures r.op.attempt == old(operations.rows)[id].attempt && r.op.id == id
      ensures r.disposition in {WasCompleted, WasScheduled, WasExhausted}
      ensures r.disposition == WasScheduled ==> r.op.state == RetryWait && r.op.attempt < Allowance(retry.policies(Cognition))
      ensures r.disposition == WasCompleted ==> C.HasReceipt(store.receipts, id.key) && r.op.state == Completed
      ensures operations.rows == old(operations.rows)[id := r.op]
      ensures !C.HasReceipt(store.receipts, id.key) ==> ScheduledTo(Setup(), old(operations.rows)[id], now, r)
    {
      hide GoodRegistry, Explains, ScheduleOn, ValidRows, InitialOperation, NamedRows, Reaches, OneEach, ScheduledTo;
      ghost var before := Tables();
      var probe := Some(ProbeOf(store.receipts));
      ghost var unit := retry.unit(operations.rows[id]);
      DurableRow(id);
      ScheduleReaches(before, id, who, now, unit);
      ScheduledFacts(before, id, now, unit);
      ScheduledIs(before, id, Setup(), now);
      var result := retry.ScheduleFailedSafe(id, now, probe);
      r := result.value;
      Jumped(before, ScheduledPlace(who, id, r.disposition));
    }

    /** release_due over all due cognitions, then the refreshed row. */
    method SweepDue(task: C.Task, id: OpId, now: real)
      requires OnTrack() && place == C.Sweep(task, id) && Holds(id) && operations.rows[id].state == RetryWait
      modifies this`place, operations`rows, operations`journal
      ensures OnTrack() && place == C.Reread(task, id) && Holds(id)
      ensures operations.rows[id].attempt == old(operations.rows)[id].attempt
      ensures operations.rows == ReleasedRows(Setup(), old(operations.rows), store.receipts, now)
    {
      hide GoodRegistry, Explains, ValidRows, InitialOperation, NamedRows, Reaches, OneEach, C.Perform;
      ReleaseAllDue(task, id, now);
      SweepEnds(Tables(), task, id, now);
      Went(Tables(), EnvAt(now, 0.0), C.Reread(task, id));
    }

    method ReleaseAllDue(task: C.Task, id: OpId, now: real)
      requires OnTrack() && place == C.Sweep(task, id) && Holds(id) && operations.rows[id].state == RetryWait
      modifies this`place, operations`rows, operations`journal
      ensures OnTrack() && place == C.Sweep(task, id) && Holds(id)
      ensures operations.rows[id].attempt == old(operations.rows)[id].attempt
      ensures operations.rows == ReleasedRows(Setup(), old(operations.rows), store.receipts, now)
    {
      hide GoodRegistry, Explains, ValidRows, InitialOperation, NamedRows, Reaches, OneEach, FirstOf, Released,
           DueAt, C.Perform, Supported, FirstDue, ReleasedRows, Mapped, Durable;
      ghost var before, rows := Tables(), operations.rows;
      var probe := Some(ProbeOf(store.receipts));
      CognitionSupported(retry.policies, probe);
      DueAreDurable(now);
      var results;
      ghost var ids;
      results, ids := retry.ReleaseDue(now, Cognition, 100, probe);
      ChosenAreEligible(operations.rank, DueAt(rows), ids, DueIds(rows, Cognition, now), Max(100));
      SweepReaches(before, task, id, ids, retry.policies, now);
      ReleasedNames(rows, ids, retry.policies, probe, now);
      ReleasedKeepsAttempt(rows[id], retry.policies, probe, now);
      MappedRow(rows, ids, Released(retry.policies, probe, now), id);
      SweepIsReleased(before, ids, Setup(), retry.policies, now);
      Jumped(before, C.Sweep(task, id));
    }

    lemma DueAreDurable(now: real)
      requires Valid()
      ensures forall id | id in DueIds(operations.rows, Cognition, now) :: Durable(Tables(), id, RetryWait)
    {
      hide GoodRegistry, Explains, ValidRows, InitialOperation, NamedRows, OneEach;
      forall id | id in DueIds(operations.rows, Cognition, now) ensures Durable(Tables(), id, RetryWait) {
        DurableRow(id);
      }
    }

    method BeginAttempt(task: C.Task, id: OpId, now: real) returns (r: RetryResult)
      requires OnTrack() && place == C.BeginRead(task, id) && Holds(id) && operations.rows[id].state == Prepared
      modifies this`place, operations`rows, operations`journal
      ensures OnTrack() && Holds(id) && operations.rows[id] == r.op && r.op.id == id
      ensures r.disposition in {WasCompleted, WasStarted}
      ensures place == if r.disposition == WasCompleted then C.ReturnCached(task) else C.CallApi(task, id)
      ensures r.disposition == WasCompleted ==> C.HasReceipt(store.receipts, id.key)
      ensures r.disposition == WasStarted ==> r.op.state == InFlight && r.op.attempt == old(operations.rows)[id].attempt + 1
      ensures operations.rows == old(operations.rows)[id := r.op]
      ensures r.disposition == WasStarted ==> r.op == StartedRow(old(operations.rows)[id], now)
    {
      hide GoodRegistry, Explains, BeginOn, ValidRows, InitialOperation, NamedRows, Reaches, OneEach, C.HasReceipt;
      ghost var before := Tables();
      var probe := Some(ProbeOf(store.receipts));
      DurableRow(id);
      BeginReaches(before, task, id, now);
      BegunFacts(before, id, now);
      BegunRow(before, id, now);
      var result := retry.BeginAttempt(id, now, probe);
      r := result.value;
      Jumped(before, if r.disposition == WasCompleted then C.ReturnCached(task) else C.CallApi(task, id));
    }

    // ------------------------------------------------------------ receipt cache

    /** Look the key up; go on to `otherwise` if it has no receipt. */
    method CheckCache(task: C.Task, ghost otherwise: C.Pc) returns (cached: Option<C.Receipt>)
      requires OnTrack()
      requires C.Perform(Tables(), place, EnvAt(0.0, 0.0)) == C.Outcome(Tables(), C.CachedNext(Tables(), task, otherwise))
      modifies this`place
      ensures OnTrack() && cached.Some? == C.HasReceipt(store.receipts, task.key)
      ensures place == if cached.Some? then C.Returned(task, cached.value) else otherwise
      ensures cached.Some? ==> cached.value.key == task.key && cached.value == C.ReceiptOf(store.receipts, task.key)
    {
      hide GoodRegistry, Explains, ValidRows, InitialOperation, NamedRows, Reaches, C.Perform;
      cached := store.GetReceipt(task.key);
      Went(Tables(), EnvAt(0.0, 0.0), C.CachedNext(Tables(), task, otherwise));
    }

    method ReturnCached(task: C.Task) returns (a: Answer)
      requires OnTrack() && place == C.ReturnCached(task)
      modifies this`place
      ensures OnTrack() && place == PlaceOf(task, a)
      ensures a.Answered? == C.HasReceipt(store.receipts, task.key) && (a.Answered? ==> a.receipt.key == task.key)
    {
      hide GoodRegistry, Explains, ValidRows, InitialOperation, NamedRows, Reaches, OneEach, C.HasReceipt;
      var cached := CheckCache(task, C.Raised(C.ReceiptMissing));
      a := if cached.Some? then Answered(cached.value) else Failed(C.ReceiptMissing);
    }

    // -------------------------------------------------------- one loop iteration

    /** One command on the worker's own row, known to go through. */
    method Command(id: OpId, cmd: Command, now: real, ghost next: C.Pc) returns (op: Operation)
      requires OnTrack() && id in operations.rows && Advance(operations.rows[id], cmd, now).Ok?
      requires C.Perform(Tables(), place, EnvAt(now, 0.0))
            == C.Outcome(Tables().(rows := operations.rows[id := Advance(operations.rows[id], cmd, now).value]), next)
      modifies this`place, operations`rows, operations`journal
      ensures OnTrack() && place == next && op == Advance(old(operations.rows)[id], cmd, now).value
      ensures operations.rows == old(operations.rows)[id := op]
    {
      hide GoodRegistry, Explains, ValidRows, InitialOperation, NamedRows, Reaches, OneEach, C.Perform, Advance;
      ghost var before := Tables();
      KeepsNames(operations.rows, id, cmd, now);
      var r := operations.Transition(id, cmd, now);
      op := r.value;
      Went(before, EnvAt(now, 0.0), next);
    }

    /** The worker's own row, at the given state. */
    ghost predicate Owns(task: C.Task, id: OpId, state: OperationState)
      reads operations
    {
      Holds(id) && id.key == task.key && operations.rows[id].state == state
    }

    method CallApi(task: C.Task, id: OpId) returns (reply: C.Reply)
      requires OnTrack() && place == C.CallApi(task, id)
      modifies this`tick, this`place, this`calls, this`asked
      ensures OnTrack() && calls == old(calls) + multiset{id} && reply == world(old(tick)).reply
      ensures tick == old(tick) + 1 && asked == old(asked) + [Asking(old(tick), id)]
      ensures place == match reply case Answer(output) => C.Save(task, id, output) case ApiError => C.FailCommit(task, id)
    {
      hide GoodRegistry, Explains, ValidRows, InitialOperation, NamedRows, Reaches, OneEach;
      ghost var before, env := Tables(), C.Env(0.0, 0.0, world(tick).reply, None);
      reply := world(tick).reply;
      calls, asked := calls + multiset{id}, asked + [Asking(tick, id)];
      tick := tick + 1;
      Went(before, env, match reply case Answer(output) => C.Save(task, id, output) case ApiError => C.FailCommit(task, id));
    }

    /** The receipt first, then the completion. */
    method SaveAndComplete(task: C.Task, id: OpId, output: string) returns (a: Answer)
      requires OnTrack() && place == C.Save(task, id, output) && Owns(task, id, InFlight)
      modifies this`tick, this`place, store`receipts, operations`rows, operations`journal
      ensures OnTrack() && a == Answered(C.Receipt(task.key, output)) && place == PlaceOf(task, a)
      ensures C.HasReceipt(store.receipts, task.key)
      ensures old(Unanswered(task)) ==> store.receipts == old(store.receipts)[task.taskId := C.Receipt(task.key, output)]
      ensures operations.rows == old(operations.rows)[id := Stamped(old(operations.rows)[id], Completed, world(old(tick)).now, None)]
    {
      hide GoodRegistry, Explains, ValidRows, InitialOperation, NamedRows, Reaches, Advance;
      var receipt := C.Receipt(task.key, output);
      ReplacedIsPut(store.receipts, task.taskId, receipt);
      ghost var before := Tables();
      C.ReplaceKeepsKeysIff(store.receipts, task.taskId, receipt);
      store.SaveReceipt(task.taskId, receipt);
      hide OneEach, C.Replaced, C.HasReceipt;
      Went(before, EnvAt(0.0, 0.0), C.Complete(task, id, receipt));
      Complete(task, id, receipt);
      a := Answered(receipt);
    }

    method Complete(task: C.Task, id: OpId, receipt: C.Receipt)
      requires OnTrack() && place == C.Complete(task, id, receipt) && Owns(task, id, InFlight)
      modifies this`tick, this`place, operations`rows, operations`journal
      ensures OnTrack() && place == C.Returned(task, receipt)
      ensures operations.rows == old(operations.rows)[id := Stamped(old(operations.rows)[id], Completed, world(old(tick)).now, None)]
    {
      hide GoodRegistry, Explains, ValidRows, InitialOperation, NamedRows, Reaches, OneEach, C.HasReceipt, Advance,
           C.Perform, Durable;
      var now := world(tick).now;
      tick := tick + 1;
      DurableRow(id);
      CompleteCommits(Tables(), task, id, receipt, now);
      StampsDurable(Tables(), id, InFlight, MarkCompleted, now);
      var _ := Command(id, MarkCompleted, now, C.Returned(task, receipt));
    }

    /** A failed call: fail safe, schedule, and get ready again if attempts are left; each takes its own time. */
    method Retry(task: C.Task, id: OpId) returns (r: Result<Operation>, a: Answer)
      requires OnTrack() && place == C.FailCommit(task, id) && Owns(task, id, InFlight)
      modifies this`tick, this`place, operations`rows, operations`journal
      ensures OnTrack() && (a.Answered? ==> C.HasReceipt(store.receipts, task.key) && a.receipt.key == task.key)
      ensures r.Err? ==> place == PlaceOf(task, a)
      ensures r.Ok? ==> place == C.Top(task, r.value) && Owns(task, id, Prepared) && operations.rows[id] == r.value && r.value.id == id
                        && r.value.attempt == old(operations.rows)[id].attempt < Allowance(retry.policies(Cognition))
      ensures Unanswered(task) ==>
                RetriedAs(Setup(), old(operations.rows), operations.rows, id, old(tick), tick, if r.Ok? then None else Some(a))
    {
      hide GoodRegistry, Explains, ValidRows, InitialOperation, NamedRows, Reaches, OneEach, C.HasReceipt, Advance,
           C.Perform, RetriedAs, ScheduledAgain, Stamped;
      ghost var rows, t := operations.rows, tick;
      DurableRow(id);
      MarkFailed(task, id, world(tick).now);
      tick := tick + 1;
      ghost var failed := operations.rows;
      r, a := Reschedule(task, id);
      if Unanswered(task) {
        RetryComposes(Setup(), rows, failed, operations.rows, id, t, tick, if r.Ok? then None else Some(a));
      }
    }

    method Reschedule(task: C.Task, id: OpId) returns (r: Result<Operation>, a: Answer)
      requires OnTrack() && place == C.Schedule(id, C.InLoop(task)) && Owns(task, id, FailedSafe)
      modifies this`tick, this`place, operations`rows, operations`journal
      ensures OnTrack() && (a.Answered? ==> C.HasReceipt(store.receipts, task.key) && a.receipt.key == task.key)
      ensures r.Err? ==> place == PlaceOf(task, a)
      ensures r.Ok? ==> place == C.Top(task, r.value) && Owns(task, id, Prepared) && operations.rows[id] == r.value && r.value.id == id
                        && r.value.attempt == old(operations.rows)[id].attempt < Allowance(retry.policies(Cognition))
      ensures Unanswered(task) ==>
                ScheduledAgain(Setup(), old(operations.rows), operations.rows, id, old(tick), tick, if r.Ok? then None else Some(a))
    {
      hide GoodRegistry, Explains, ValidRows, InitialOperation, NamedRows, Reaches, OneEach, C.HasReceipt, Advance,
           C.Perform;
      r, a := Err(StateConflict), Failed(C.RetryExhausted);
      var now := world(tick).now;
      tick := tick + 1;
      var scheduled := Schedule(id, now, C.InLoop(task));
      if scheduled.disposition == WasCompleted {
        a := ReturnCached(task);
      } else if scheduled.disposition == WasScheduled {
        var again := MakeReady(task, id);
        r := Ok(again);
      }
    }

    method MarkFailed(task: C.Task, id: OpId, now: real)
      requires OnTrack() && place == C.FailCommit(task, id) && Owns(task, id, InFlight)
      modifies this`place, operations`rows, operations`journal
      ensures OnTrack() && place == C.Schedule(id, C.InLoop(task)) && Owns(task, id, FailedSafe)
      ensures operations.rows[id].attempt == old(operations.rows)[id].attempt
      ensures operations.rows == old(operations.rows)[id := Stamped(old(operations.rows)[id], FailedSafe, now, Some("hermes_api_failed_safe"))]
    {
      hide GoodRegistry, Explains, ValidRows, InitialOperation, NamedRows, Reaches, OneEach, C.HasReceipt, Advance,
           C.Perform, Durable;
      DurableRow(id);
      FailCommits(Tables(), task, id, now);
      StampsDurable(Tables(), id, InFlight, MarkFailedSafe(Some(C.API_FAILED)), now);
      var _ := Command(id, MarkFailedSafe(Some(C.API_FAILED)), now, C.Schedule(id, C.InLoop(task)));
    }

    method MakeReady(task: C.Task, id: OpId) returns (op: Operation)
      requires OnTrack() && place == C.ReadyCommit(task, id) && Owns(task, id, RetryWait)
      modifies this`tick, this`place, operations`rows, operations`journal
      ensures OnTrack() && place == C.Top(task, op) && Owns(task, id, Prepared) && operations.rows[id] == op && op.id == id
      ensures op.attempt == old(operations.rows)[id].attempt && tick == old(tick) + 1
      ensures operations.rows == old(operations.rows)[id := Stamped(old(operations.rows)[id], Prepared, world(old(tick)).now, None)]
    {
      hide GoodRegistry, Explains, ValidRows, InitialOperation, NamedRows, Reaches, OneEach, C.HasReceipt, Advance,
           C.Perform, ValidOperation, Durable;
      var now := world(tick).now;
      tick := tick + 1;
      DurableRow(id);
      ReadyCommits(Tables(), task, id, now);
      StampsDurable(Tables(), id, RetryWait, MakeRetryReady, now);
      op := Command(id, MakeRetryReady, now,
                    C.Top(task, Advance(operations.rows[id], MakeRetryReady, now).value));
    }

    /**
      _prepare_operation: ready means the row may be begun. Without a receipt it
      leads to the answer the state of the row calls for.
    */
    method PrepareOperation(task: C.Task, op: Operation) returns (ready: bool, a: Answer)
      requires OnTrack() && place == C.Refresh(task, op) && Owns(task, op.id, op.state) && operations.rows[op.id] == op
      modifies this`tick, this`place, operations`rows, operations`journal
      ensures OnTrack() && (a.Answered? ==> C.HasReceipt(store.receipts, task.key) && a.receipt.key == task.key)
      ensures ready ==> place == C.BeginRead(task, op.id) && Owns(task, op.id, Prepared)
                        && operations.rows[op.id].attempt == op.attempt && CallsLeft(retry.policies(Cognition), op) >= 1
      ensures !ready ==> place == PlaceOf(task, a)
      ensures Unanswered(task) ==>
                LeadsTo(Setup(), task, op, old(Seen()), old(tick), ready, RowAt(operations.rows, op.id), Seen(), tick, a)
    {
      hide GoodRegistry, Explains, ValidRows, InitialOperation, NamedRows, Reaches, OneEach, C.HasReceipt, Advance,
           C.Perform, WaitingAnswer, Computed, LeadsTo;
      RefreshReads(Tables(), task, op);
      ghost var before, t := Seen(), tick;
      ready, a := false, Failed(C.RetryNotReady);
      match op.state
      case Completed =>
        ready, a := PrepareCompleted(task, op.id);
        EndsLead(Setup(), task, op, before, Seen(), t, tick, a);
      case FailedSafe =>
        Went(Tables(), EnvAt(0.0, 0.0), C.Schedule(op.id, C.InPrepare(task)));
        ready, a := PrepareFailed(task, op.id);
      case RetryWait =>
        Went(Tables(), EnvAt(0.0, 0.0), C.Sweep(task, op.id));
        ready, a := PrepareWaiting(task, op.id);
        WaitsLead(Setup(), task, op, before, t, ready, RowAt(operations.rows, op.id), Seen(), tick, a);
      case Prepared =>
        Went(Tables(), EnvAt(0.0, 0.0), C.BeginRead(task, op.id));
        ready := true;
        PreparedLeads(Setup(), task, op, before, t, a);
      case _ =>
        var failure := if op.state == InFlight then C.OperationInFlight
                       else if op.state == Exhausted then C.RetryExhausted
                       else C.StoreRefused(StateConflict);
        Went(Tables(), EnvAt(0.0, 0.0), C.Raised(failure));
        a := Failed(failure);
        EndsLead(Setup(), task, op, before, Seen(), t, tick, a);
    }

    method PrepareCompleted(task: C.Task, id: OpId) returns (ready: bool, a: Answer)
      requires OnTrack() && id.key == task.key
      requires C.Perform(Tables(), place, EnvAt(0.0, 0.0)) == C.Outcome(Tables(),
                 if C.HasReceipt(store.receipts, id.key) then C.ReturnCached(task) else C.Raised(C.ReceiptMissing))
      modifies this`place
      ensures OnTrack() && !ready && place == PlaceOf(task, a)
      ensures a.Answered? ==> C.HasReceipt(store.receipts, task.key) && a.receipt.key == task.key
      ensures Unanswered(task) ==> a == Failed(C.ReceiptMissing)
    {
      hide GoodRegistry, Explains, ValidRows, InitialOperation, NamedRows, Reaches, C.HasReceipt, C.Perform;
      ready := false;
      var cached := store.GetReceipt(id.key);
      if cached.None? {
        Went(Tables(), EnvAt(0.0, 0.0), C.Raised(C.ReceiptMissing));
        a := Failed(C.ReceiptMissing);
      } else {
        Went(Tables(), EnvAt(0.0, 0.0), C.ReturnCached(task));
        a := ReturnCached(task);
      }
    }

    method PrepareFailed(task: C.Task, id: OpId) returns (ready: bool, a: Answer)
      requires OnTrack() && place == C.Schedule(id, C.InPrepare(task)) && Owns(task, id, FailedSafe)
      modifies this`tick, this`place, operations`rows, operations`journal
      ensures OnTrack() && (a.Answered? ==> C.HasReceipt(store.receipts, task.key) && a.receipt.key == task.key)
      ensures ready ==> place == C.BeginRead(task, id) && Owns(task, id, Prepared)
                        && operations.rows[id].attempt == old(operations.rows)[id].attempt < Allowance(retry.policies(Cognition))
      ensures !ready ==> place == PlaceOf(task, a)
      ensures Unanswered(task) ==>
                LeadsTo(Setup(), task, old(operations.rows)[id], old(Seen()), old(tick), ready, RowAt(operations.rows, id), Seen(), tick, a)
    {
      hide GoodRegistry, Explains, ValidRows, InitialOperation, NamedRows, Reaches, OneEach, C.HasReceipt, Advance,
           C.Perform, ScheduledTo, LeadsTo, Waits, Durable;
      ghost var before, t, op := Seen(), tick, operations.rows[id];
      OwnId(id);
      var now := world(tick).now;
      tick := tick + 1;
      ready, a := false, Failed(C.RetryExhausted);
      var scheduled := Schedule(id, now, C.InPrepare(task));
      ghost var m := Seen();
      match scheduled.disposition {
        case WasCompleted => a := ReturnCached(task);
        case WasScheduled => ready, a := PrepareWaiting(task, id);
        case _ =>
      }
      if Unanswered(task) {
        FailedLeads(Setup(), task, op, before, m, scheduled, t, ready, RowAt(operations.rows, id), Seen(), tick, a);
      }
    }

    method PrepareWaiting(task: C.Task, id: OpId) returns (ready: bool, a: Answer)
      requires OnTrack() && place == C.Sweep(task, id) && Owns(task, id, RetryWait)
      modifies this`tick, this`place, operations`rows, operations`journal
      ensures OnTrack() && (a.Answered? ==> C.HasReceipt(store.receipts, task.key) && a.receipt.key == task.key)
      ensures ready ==> place == C.BeginRead(task, id) && Owns(task, id, Prepared)
                        && operations.rows[id].attempt == old(operations.rows)[id].attempt
      ensures !ready ==> place == PlaceOf(task, a)
      ensures Unanswered(task) ==>
                Waits(Setup(), old(operations.rows)[id], old(Seen()), old(tick), ready, RowAt(operations.rows, id), Seen(), tick, a)
    {
      hide GoodRegistry, Explains, ValidRows, InitialOperation, NamedRows, Reaches, OneEach, C.HasReceipt, Advance,
           C.Perform, ReleasedRows, FirstDue;
      ghost var rows := operations.rows;
      OwnId(id);
      var now := world(tick).now;
      tick := tick + 1;
      SweepDue(task, id, now);
      ReleasedRow(Setup(), rows, store.receipts, now, id);
      RereadReads(Tables(), task, id);
      ready, a := false, Failed(C.RetryNotReady);
      var op := operations.Get(id);
      if op.value.state == Completed {
        Went(Tables(), EnvAt(0.0, 0.0), C.ReturnCached(task));
        a := ReturnCached(task);
      } else if op.value.state != Prepared {
        Went(Tables(), EnvAt(0.0, 0.0), C.Raised(C.RetryNotReady));
      } else {
        Went(Tables(), EnvAt(0.0, 0.0), C.BeginRead(task, id));
        ready := true;
      }
    }

    /** From the prepared row through one API call: an answer, or the row ready again. */
    method Attempt(task: C.Task, id: OpId) returns (r: Result<Operation>, a: Answer)
      requires OnTrack() && place == C.BeginRead(task, id) && Owns(task, id, Prepared)
      modifies this`tick, this`place, this`calls, this`asked, store`receipts, operations`rows, operations`journal
      ensures OnTrack() && (a.Answered? ==> C.HasReceipt(store.receipts, task.key) && a.receipt.key == task.key)
      ensures calls == old(calls) || calls == old(calls) + multiset{id}
      ensures r.Err? ==> place == PlaceOf(task, a)
      ensures r.Ok? ==>
                && place == C.Top(task, r.value) && r.value.id == id
                && Owns(task, id, Prepared) && operations.rows[id] == r.value
                && r.value.attempt == old(operations.rows)[id].attempt + 1 < Allowance(retry.policies(Cognition))
      // without a receipt the call is made, and its reply decides
      ensures old(Unanswered(task)) ==>
                Tried(Setup(), task, old(operations.rows)[id], old(Seen()), old(tick), Seen(), tick, if r.Ok? then None else Some(a))
    {
      hide GoodRegistry, Explains, ValidRows, InitialOperation, NamedRows, Reaches, OneEach, C.HasReceipt, Advance,
           C.Perform, Tried, RetriedAs, StartedRow, Stamped;
      ghost var before, t := Seen(), tick;
      OwnId(id);
      var now := world(tick).now;
      tick := tick + 1;
      r, a := Err(StateConflict), Failed(C.RetryNotReady);
      var begun := BeginAttempt(task, id, now);
      if begun.disposition == WasCompleted {
        a := ReturnCached(task);
        return;
      }
      r, a := Ask(task, id, before.rows[id], before, t);
    }

    /** Call the API on the started row and record what came of it. */
    method Ask(task: C.Task, id: OpId, ghost op: Operation, ghost before: View, ghost t: nat) returns (r: Result<Operation>, a: Answer)
      requires OnTrack() && place == C.CallApi(task, id) && Owns(task, id, InFlight)
      requires op.id == id && id in before.rows && tick == t + 1
      requires Seen() == before.(rows := before.rows[id := StartedRow(op, world(t).now)])
      modifies this`tick, this`place, this`calls, this`asked, store`receipts, operations`rows, operations`journal
      ensures OnTrack() && (a.Answered? ==> C.HasReceipt(store.receipts, task.key) && a.receipt.key == task.key)
      ensures calls == old(calls) + multiset{id} && (r.Err? ==> place == PlaceOf(task, a))
      ensures r.Ok? ==>
                && place == C.Top(task, r.value) && r.value.id == id
                && Owns(task, id, Prepared) && operations.rows[id] == r.value
                && r.value.attempt == old(operations.rows)[id].attempt < Allowance(retry.policies(Cognition))
      ensures old(Unanswered(task)) ==> Tried(Setup(), task, op, before, t, Seen(), tick, if r.Ok? then None else Some(a))
    {
      hide GoodRegistry, Explains, ValidRows, InitialOperation, NamedRows, Reaches, OneEach, C.HasReceipt, Advance,
           C.Perform, Tried, RetriedAs, StartedRow, Stamped;
      var reply := CallApi(task, id);
      match reply
      case Answer(output) =>
        r := Err(StateConflict);
        a := SaveAndComplete(task, id, output);
        AnsweredTries(Setup(), task, op, before, t, Seen(), tick, a);
      case ApiError =>
        r, a := Retry(task, id);
        if Unanswered(task) {
          FailedTries(Setup(), task, op, before, t, Seen(), tick, if r.Ok? then None else Some(a));
        }
    }

    lemma OwnId(id: OpId)
      requires Valid() && Holds(id)
      ensures operations.rows[id].id == id && (operations.rows[id].state != Prepared ==> operations.rows[id].attempt >= 1)
    {
      DurableRow(id);
      hide GoodRegistry, Explains, ValidRows, InitialOperation, ValidOperation;
    }

    // ---------------------------------------------------------------- process

    /**
      process, past the reservation: each turn of the loop makes at most one API
      call and uses up one attempt.
    */
    method Loop(task: C.Task, reserved: Operation) returns (a: Answer)
      requires OnTrack() && place == C.Top(task, reserved)
      requires Owns(task, reserved.id, reserved.state) && operations.rows[reserved.id] == reserved
      modifies this`tick, this`place, this`calls, this`asked, store`receipts, operations`rows, operations`journal
      ensures OnTrack() && place == PlaceOf(task, a)
      ensures a.Answered? ==> C.HasReceipt(store.receipts, task.key) && a.receipt.key == task.key
      ensures old(Unanswered(task)) ==> RowAnswer(Setup(), task, reserved, old(Seen()), Seen(), old(tick), a)
      ensures |calls| <= |old(calls)| + CallsLeft(retry.policies(Cognition), reserved)
      ensures Promised(reserved) <= Allowance(retry.policies(Cognition)) ==>
                |calls| <= |old(calls)| + AttemptsLeft(retry.policies(Cognition), reserved.attempt)
    {
      hide GoodRegistry, Explains, ValidRows, InitialOperation, NamedRows, Reaches, OneEach, C.HasReceipt, Advance,
           C.Perform, RowAnswer, Answers, Unanswered;
      var op := reserved;
      AnswersItself(Setup(), task, op, Seen(), tick);
      PolicyIsValid();
      AloneCallsLeft(retry.policies(Cognition), reserved);
      while true
        invariant OnTrack() && place == C.Top(task, op)
        invariant Owns(task, op.id, op.state) && operations.rows[op.id] == op
        // whatever answers the row as it is now answers it as the loop found it
        invariant old(Unanswered(task)) ==>
                    Unanswered(task) && Answers(Setup(), task, op, Seen(), tick, reserved, old(Seen()), old(tick))
        invariant |calls| + CallsLeft(retry.policies(Cognition), op)
               <= |old(calls)| + CallsLeft(retry.policies(Cognition), reserved)
        decreases CallsLeft(retry.policies(Cognition), op)
      {
        ghost var was, m, t := op, Seen(), tick;
        var again;
        again, a := Turn(task, op);
        if again.Err? {
          if old(Unanswered(task)) {
            AnswersEnd(Setup(), task, was, m, t, reserved, old(Seen()), old(tick), Seen(), a);
          }
          return;
        }
        op := again.value;
        if old(Unanswered(task)) {
          AnswersTrans(Setup(), task, op, Seen(), tick, was, m, t, reserved, old(Seen()), old(tick));
        }
      }
    }

    method Turn(task: C.Task, op: Operation) returns (again: Result<Operation>, a: Answer)
      requires OnTrack() && place == C.Top(task, op)
      requires Owns(task, op.id, op.state) && operations.rows[op.id] == op
      modifies this`tick, this`place, this`calls, this`asked, store`receipts, operations`rows, operations`journal
      ensures OnTrack() && (a.Answered? ==> C.HasReceipt(store.receipts, task.key) && a.receipt.key == task.key)
      ensures old(Unanswered(task)) ==>
                Turned(Setup(), task, op, old(Seen()), old(tick), Seen(), tick, if again.Ok? then None else Some(a))
      ensures calls == old(calls) || (|calls| == |old(calls)| + 1 && CallsLeft(retry.policies(Cognition), op) >= 1)
      ensures again.Err? ==> place == PlaceOf(task, a)
      ensures again.Ok? ==>
                && again.value.id == op.id && place == C.Top(task, again.value) && Owns(task, again.value.id, again.value.state)
                && operations.rows[again.value.id] == again.value
                && CallsLeft(retry.policies(Cognition), again.value) < CallsLeft(retry.policies(Cognition), op)
    {
      hide GoodRegistry, Explains, ValidRows, InitialOperation, NamedRows, Reaches, OneEach, C.HasReceipt, Advance,
           C.Perform, CallsLeft, RowAnswer, Answers, LeadsTo, Tried, Turned;
      ghost var before, t := Seen(), tick;
      DurableRow(op.id);
      again := Err(StateConflict);
      TopReads(Tables(), task, op);
      var cached := CheckCache(task, C.Refresh(task, op));
      if cached.Some? {
        a := Answered(cached.value);
        return;
      }
      var ready;
      ready, a := PrepareOperation(task, op);
      ghost var m, mid, row, end := Seen(), tick, RowAt(operations.rows, op.id), a;
      if ready {
        OwnId(op.id);
        OneMoreCall(calls, op.id);
        again, a := Attempt(task, op.id);
        if again.Ok? {
          OneLessLeft(retry.policies(Cognition), op, again.value);
        }
      }
      if old(Unanswered(task)) {
        TurnEnds(Setup(), task, op, before, t, ready, row, m, mid, end, Seen(), tick, if ready && again.Ok? then None else Some(a));
      }
    }

    /** process */
    method Process(task: C.Task) returns (a: Answer)
      requires Valid()
      modifies this, store, operations
      ensures OnTrack() && start == C.Outcome(old(Tables()), C.Lookup(task)) && place == PlaceOf(task, a)
      // it answers only with a stored receipt for the key
      ensures a.Answered? ==> C.HasReceipt(store.receipts, task.key) && a.receipt.key == task.key
      // it calls the API at most once an attempt the row still has
      ensures |calls| <= |old(calls)| + CallsLeftFor(retry.policies(Cognition), old(operations.rows), task)
      // which, on a row no other scheduler raced on, is max_attempts - attempt
      ensures Unraced(retry.policies(Cognition), old(operations.rows), task) ==>
                |calls| <= |old(calls)| + AttemptsLeft(retry.policies(Cognition), AttemptOf(old(operations.rows), task))
      // and not at all once a receipt is durable
      ensures C.HasReceipt(old(store.receipts), task.key) ==>
                a == Answered(C.ReceiptOf(old(store.receipts), task.key)) && Tables() == old(Tables()) && asked == old(asked)
      // without one the task table, then the row and the replies decide
      ensures !C.HasReceipt(old(store.receipts), task.key) ==>
                if exists u | u in old(store.tasks) :: old(store.tasks)[u].key == task.key && old(store.tasks)[u].hash != task.hash then
                  a == Failed(C.KeyReused) && Seen() == old(Seen())
                else ReservedAnswer(Setup(), task, old(Seen()), Seen(), old(tick), a)
      // a new task is computed at once, and answered exactly if one of the calls allowed is
      ensures var op := NewCognition(task, world(old(tick)).now);
              !C.HasReceipt(old(store.receipts), task.key) && a != Failed(C.KeyReused) && IsNew(old(operations.rows), op) ==>
                && Computed(Setup(), task, op, old(Seen()).(rows := old(operations.rows)[op.id := op]), Seen(), old(tick) + 1, a)
                && (a.Answered? <==> !AllErrors(Setup(), old(tick) + 1, CallsAllowed(retry.policies(Cognition), 0)))
    {
      hide GoodRegistry, Explains, ValidRows, InitialOperation, NamedRows, Reaches, OneEach, C.HasReceipt, Advance,
           C.Perform, AttemptOf, CallsLeftFor, Unraced, RowFor, ReservedAnswer, Computed, IsNew, AllErrors,
           CallsAllowed;
      ghost var before, t := Seen(), tick;
      Begin(C.Lookup(task));
      TopReads(Tables(), task, InitialTask(task));
      var cached := CheckCache(task, C.Register(task));
      if cached.Some? {
        return Answered(cached.value);
      }
      var registered := RegisterTask(task);
      if !registered {
        return Failed(C.KeyReused);
      }
      a := Admit(task);
      NewAnswers(Setup(), task, before, Seen(), t, a);
    }

    /** The rest of process, past the task table. */
    method Admit(task: C.Task) returns (a: Answer)
      requires OnTrack() && place == C.Reserve(task)
      modifies this`tick, this`place, this`calls, this`asked, store`receipts, operations`rows, operations`journal
      ensures OnTrack() && place == PlaceOf(task, a) && ValidRows(old(operations.rows))
      ensures a.Answered? ==> C.HasReceipt(store.receipts, task.key) && a.receipt.key == task.key
      ensures |calls| <= |old(calls)| + CallsLeftFor(retry.policies(Cognition), old(operations.rows), task)
      ensures Unraced(retry.policies(Cognition), old(operations.rows), task) ==>
                |calls| <= |old(calls)| + AttemptsLeft(retry.policies(Cognition), AttemptOf(old(operations.rows), task))
      ensures old(Unanswered(task)) ==> ReservedAnswer(Setup(), task, old(Seen()), Seen(), old(tick), a)
    {
      hide GoodRegistry, Explains, InitialOperation, NamedRows, Reaches, OneEach, C.HasReceipt, Advance, C.Perform,
           AttemptOf, CallsLeftFor, Unraced, RowFor, RowAnswer, Reserved, AfterReserve, ValidRows;
      PolicyIsValid();
      var reserved := ReserveOperation(task);
      if reserved.Err? {
        return Failed(C.StoreRefused(reserved.error));
      }
      RowForLeft(retry.policies(Cognition), old(operations.rows), task, reserved.value);
      a := Loop(task, reserved.value);
    }

    method RegisterTask(task: C.Task) returns (ok: bool)
      requires OnTrack() && place == C.Register(task)
      modifies this`place, store`tasks
      ensures OnTrack() && place == if ok then C.Reserve(task) else C.Raised(C.KeyReused)
      ensures ok <==> !exists t | t in old(store.tasks) :: old(store.tasks)[t].key == task.key && old(store.tasks)[t].hash != task.hash
    {
      hide GoodRegistry, Explains, ValidRows, InitialOperation, NamedRows, Reaches, OneEach;
      ghost var before := Tables();
      ok := store.ReserveTask(task);
      Went(before, EnvAt(0.0, 0.0), if ok then C.Reserve(task) else C.Raised(C.KeyReused));
    }

    method ReserveOperation(task: C.Task) returns (r: Result<Operation>)
      requires OnTrack() && place == C.Reserve(task)
      modifies this`tick, this`place, operations`rows, operations`journal
      ensures OnTrack() && place == match r case Ok(op) => C.Top(task, op) case Err(e) => C.Raised(C.StoreRefused(e))
      ensures r.Ok? ==>
                && Owns(task, r.value.id, r.value.state) && operations.rows[r.value.id] == r.value
                && RowFor(old(operations.rows), task, r.value)
      ensures tick == old(tick) + 1 && ValidRows(old(operations.rows))
      ensures var op := NewCognition(task, world(old(tick)).now);
              && r == Reserved(old(operations.rows), op)
              && operations.rows == if r.Ok? then AfterReserve(old(operations.rows), op) else old(operations.rows)
    {
      hide GoodRegistry, Explains, InitialOperation, Reaches, OneEach, Reserved, AfterReserve, C.Perform, NamedRows,
           ValidRows, RowFor;
      ghost var before := Tables();
      var now := world(tick).now;
      tick := tick + 1;
      ReserveSteps(before, task, now);
      var created;
      r, created := operations.Reserve(C.InitialCognition(task, now));
      Went(before, EnvAt(now, 0.0), match r case Ok(op) => C.Top(task, op) case Err(e) => C.Raised(C.StoreRefused(e)));
    }

    /**
      recover_startup, once: every interrupted cognition is completed on its
      receipt, or failed safe and scheduled, and counted; the API is not called.
    */
    method RecoverStartup() returns (counts: RecoveryCounts)
      requires Valid()
      modifies this`tick, this`startupRecovered, operations`rows, operations`journal
      ensures Valid() && startupRecovered && Replays(old(Tables()), Tables())
      ensures old(startupRecovered) ==> counts == RecoveryCounts(0, 0, 0) && operations.rows == old(operations.rows)
      ensures !old(startupRecovered) ==>
                var ids := InState(old(operations.rows), Cognition, InFlight);
                && operations.rows == Mapped(old(operations.rows), ids,
                     Recovered(retry.policies, Some(ProbeOf(store.receipts)), world(old(tick)).now, retry.unit))
                && counts == CountsOf(ids, operations.rows)
                && counts.completed + counts.scheduled + counts.exhausted == |ids|
    {
      hide GoodRegistry, Explains, ValidRows, InitialOperation, NamedRows, OneEach, C.HasReceipt, Advance, Mapped,
           Recovered, InState, Replays, Tells, CountsOf;
      ghost var before := Tables();
      ReplaysSelf(before);
      if startupRecovered {
        return RecoveryCounts(0, 0, 0);
      }
      var now := world(tick).now;
      tick := tick + 1;
      ghost var all := InState(operations.rows, Cognition, InFlight);
      InFlightAreDurable();
      AllRecoveriesReplay(before, before, all, retry.policies, now, retry.unit);
      RecoveredNames(operations.rows, all, retry.policies, Some(ProbeOf(store.receipts)), now, retry.unit);
      var results;
      ghost var ids;
      results, ids := retry.RecoverInterruptedCognition(now, ProbeOf(store.receipts));
      startupRecovered := true;
      counts := CountResults(results, operations.rows, ids, all);
    }

    lemma InFlightAreDurable()
      requires Valid()
      ensures forall id | id in InState(operations.rows, Cognition, InFlight) :: Durable(Tables(), id, InFlight)
    {
      hide GoodRegistry, Explains, ValidRows, InitialOperation, NamedRows, OneEach;
      forall id | id in InState(operations.rows, Cognition, InFlight) ensures Durable(Tables(), id, InFlight) {
        DurableRow(id);
      }
    }
  }

  // ------------------------------------------------- how one turn leads to the answer

  /** Whatever answers the row `op` from `m` on, answers `first` from `a` on. */
  ghost predicate Answers(s: Setting, task: C.Task, op: Operation, m: View, mid: nat, first: Operation, a: View, t: nat) {
    forall b, ans | RowAnswer(s, task, op, m, b, mid, ans) :: RowAnswer(s, task, first, a, b, t, ans)
  }

  lemma AnswersItself(s: Setting, task: C.Task, op: Operation, a: View, t: nat)
    ensures Answers(s, task, op, a, t, op, a, t)
  {
    hide RowAnswer;
  }

  lemma AnswersTrans(s: Setting, task: C.Task, op: Operation, n: View, late: nat, was: Operation, m: View, mid: nat,
                     first: Operation, a: View, t: nat)
    requires Answers(s, task, op, n, late, was, m, mid) && Answers(s, task, was, m, mid, first, a, t)
    ensures Answers(s, task, op, n, late, first, a, t)
  {
    hide RowAnswer;
  }

  lemma AnswersEnd(s: Setting, task: C.Task, op: Operation, m: View, mid: nat, first: Operation, a: View, t: nat, b: View, ans: Answer)
    requires Answers(s, task, op, m, mid, first, a, t) && RowAnswer(s, task, op, m, b, mid, ans)
    ensures RowAnswer(s, task, first, a, b, t, ans)
  {
    hide RowAnswer;
  }

  /** Preparing the row `op` either ends the call with `ans`, or leaves the prepared row whose loop answers it. */
  ghost predicate LeadsTo(s: Setting, task: C.Task, op: Operation, a: View, t: nat, ready: bool, row: Option<Operation>, m: View,
                          mid: nat, ans: Answer) {
    if !ready then RowAnswer(s, task, op, a, m, t, ans)
    else
      && row.Some? && row.value.state == Prepared
      && forall b, end | Computed(s, task, row.value, m, b, mid, end) :: RowAnswer(s, task, op, a, b, t, end)
  }

  /** release_due either makes the waiting row ready or refuses the call. */
  ghost predicate Waits(s: Setting, op: Operation, a: View, t: nat, ready: bool, row: Option<Operation>, m: View, mid: nat,
                        ans: Answer) {
    var now := s.world(t).now;
    && m == a.(rows := ReleasedRows(s, a.rows, a.receipts, now)) && mid == t + 1
    && (ready <==> FirstDue(s.rank, a.rows, Cognition, now, 100, op.id))
    && (ready ==> row == Some(Stamped(op, Prepared, now, None))) && (!ready ==> ans == Failed(C.RetryNotReady))
  }

  lemma ReleasedRow(s: Setting, rows: Rows, receipts: C.Receipts, now: real, id: OpId)
    requires id in rows
    ensures ReleasedRows(s, rows, receipts, now)[id] ==
            if FirstDue(s.rank, rows, Cognition, now, 100, id)
            then Stamped(rows[id], if C.HasReceipt(receipts, id.key) then Completed else Prepared, now, None)
            else rows[id]
  {
    hide FirstDue, C.HasReceipt, Stamped;
  }

  lemma WaitsLead(s: Setting, task: C.Task, op: Operation, a: View, t: nat, ready: bool, row: Option<Operation>, m: View,
                  mid: nat, ans: Answer)
    ensures op.state == RetryWait && Waits(s, op, a, t, ready, row, m, mid, ans) ==>
              LeadsTo(s, task, op, a, t, ready, row, m, mid, ans)
  {
    hide FirstDue, ReleasedRows, Computed;
  }

  lemma PreparedLeads(s: Setting, task: C.Task, op: Operation, a: View, t: nat, ans: Answer)
    requires op.state == Prepared
    ensures LeadsTo(s, task, op, a, t, true, Some(op), a, t, ans)
  {
    hide Computed;
  }

  lemma EndsLead(s: Setting, task: C.Task, op: Operation, a: View, b: View, t: nat, mid: nat, ans: Answer)
    ensures RowAnswer(s, task, op, a, b, t, ans) ==> LeadsTo(s, task, op, a, t, false, RowAt(b.rows, op.id), b, mid, ans)
  {
    hide RowAnswer;
  }

  lemma FailedLeads(s: Setting, task: C.Task, op: Operation, a: View, m: View, scheduled: RetryResult, t: nat, ready: bool,
                    row: Option<Operation>, b: View, mid: nat, ans: Answer)
    requires op.state == FailedSafe && op.attempt >= 1 && op.id in a.rows && ScheduledTo(s, op, s.world(t).now, scheduled)
    requires m == a.(rows := a.rows[op.id := scheduled.op])
    requires scheduled.disposition == WasScheduled ==> Waits(s, scheduled.op, m, t + 1, ready, row, b, mid, ans)
    requires scheduled.disposition != WasScheduled ==> !ready && b == m && ans == Failed(C.RetryExhausted)
    ensures LeadsTo(s, task, op, a, t, ready, row, b, mid, ans)
  {
    hide Delay, FirstDue, ReleasedRows, Computed;
  }

  /** One call from the prepared row `op`: an end, or the row ready for the next call. */
  ghost predicate Tried(s: Setting, task: C.Task, op: Operation, a: View, t: nat, b: View, to: nat, end: Option<Answer>) {
    match end
    case Some(ans) => Computed(s, task, op, a, b, t, ans)
    case None =>
      && to == t + 5 && s.world(t + 1).reply == C.ApiError && op.id in a.rows
      && op.attempt + 1 < (if s.policy.retryAfterFailedSafe then s.policy.maxAttempts else 1)
      && b == View(a.rows[op.id := NextTry(op, s.world(t + 4).now)], a.receipts, a.asked + [Asking(t + 1, op.id)])
  }

  lemma AnsweredTries(s: Setting, task: C.Task, op: Operation, a: View, t: nat, b: View, to: nat, ans: Answer)
    requires s.world(t + 1).reply.Answer? && ans == Answered(C.Receipt(task.key, s.world(t + 1).reply.output))
    requires b.asked == a.asked + [Asking(t + 1, op.id)]
    requires b.rows == a.rows[op.id := StartedRow(op, s.world(t).now)][op.id := Stamped(StartedRow(op, s.world(t).now), Completed, s.world(t + 2).now, None)]
    ensures b.receipts == a.receipts[task.taskId := ans.receipt] ==> Tried(s, task, op, a, t, b, to, Some(ans))
  {
    if b.receipts == a.receipts[task.taskId := ans.receipt] {
      ComputesOnce(s, task, op, a, b, t, ans);
    }
    hide Computed;
  }

  lemma FailedTries(s: Setting, task: C.Task, op: Operation, a: View, t: nat, b: View, to: nat, end: Option<Answer>)
    requires s.world(t + 1).reply == C.ApiError && op.id in a.rows
    requires b.asked == a.asked + [Asking(t + 1, op.id)] && b.receipts == a.receipts
    requires RetriedAs(s, a.rows[op.id := StartedRow(op, s.world(t).now)], b.rows, op.id, t + 2, to, end)
    ensures Tried(s, task, op, a, t, b, to, end)
  {
    if end.Some? {
      ComputesOnce(s, task, op, a, b, t, end.value);
    }
    hide Computed;
  }

  /** How a turn ends, or what it leaves for the next. */
  ghost predicate Turned(s: Setting, task: C.Task, op: Operation, a: View, t: nat, b: View, to: nat, end: Option<Answer>) {
    match end
    case Some(ans) => RowAnswer(s, task, op, a, b, t, ans)
    case None =>
      && op.id in b.rows && b.rows[op.id].state == Prepared && b.receipts == a.receipts
      && Answers(s, task, b.rows[op.id], b, to, op, a, t)
  }

  lemma {:induction false} TurnEnds(s: Setting, task: C.Task, op: Operation, a: View, t: nat, ready: bool, row: Option<Operation>,
                                    m: View, mid: nat, pre: Answer, b: View, to: nat, end: Option<Answer>)
    requires LeadsTo(s, task, op, a, t, ready, row, m, mid, pre)
    requires if ready then row.Some? && row.value.id == op.id && m.receipts == a.receipts && Tried(s, task, row.value, m, mid, b, to, end)
             else b == m && end == Some(pre)
    ensures Turned(s, task, op, a, t, b, to, end)
  {
    hide Computed;
    if ready && end.None? {
      var next := NextTry(row.value, s.world(mid + 4).now);
      forall x, ans | RowAnswer(s, task, next, b, x, to, ans) ensures RowAnswer(s, task, op, a, x, t, ans) {
        ComputesMore(s, task, row.value, m, b, x, mid, s.world(mid + 4).now, ans);
      }
    }
  }

  // ------------------------------------------------- what the steps make of a row

  /** What schedule_failed_safe makes of a failed row without receipt. */
  ghost predicate ScheduledTo(s: Setting, op: Operation, now: real, r: RetryResult) {
    if op.attempt >= 1 && s.policy.retryAfterFailedSafe && op.attempt < s.policy.maxAttempts then
      r == RetryResult(WasScheduled, WaitingRow(s, op, now))
    else r == RetryResult(WasExhausted, op.(state := Exhausted, updatedAt := now))
  }

  lemma ScheduledIs(db: C.Db, id: OpId, s: Setting, now: real)
    requires Durable(db, id, FailedSafe) && s.policy == db.policy
    ensures !C.HasReceipt(db.receipts, id.key) ==>
              var r := ScheduleOn(db.rows, id, db.policy, Some(ProbeOf(db.receipts)), now, s.unit(db.rows[id]));
              r.Ok? && ScheduledTo(s, db.rows[id], now, r.value)
  {
    var op := db.rows[id];
    DecisionIsPlan(db, id, now, s.unit(op));
    StampsRow(op, SchedulePlan(db.policy, op, Some(ProbeOf(db.receipts)), now, s.unit(op)).value.cmd, now);
    hide Delay, C.HasReceipt, Advance, ValidOperation;
  }

  /** One failed call: the row is ready again, or exhausted and the call ends. */
  ghost predicate RetriedAs(s: Setting, a: Rows, b: Rows, id: OpId, t: nat, to: nat, end: Option<Answer>)
    requires id in a
  {
    if a[id].attempt < (if s.policy.retryAfterFailedSafe then s.policy.maxAttempts else 1) then
      end.None? && to == t + 3 && b == a[id := Stamped(a[id], Prepared, s.world(t + 2).now, None)]
    else
      && end == Some(Failed(C.RetryExhausted))
      && b == a[id := Stamped(a[id], Exhausted, s.world(t + 1).now, Some("hermes_api_failed_safe"))]
  }

  ghost predicate ScheduledAgain(s: Setting, a: Rows, b: Rows, id: OpId, t: nat, to: nat, end: Option<Answer>)
    requires id in a
  {
    if a[id].attempt >= 1 && s.policy.retryAfterFailedSafe && a[id].attempt < s.policy.maxAttempts then
      end.None? && to == t + 2 && b == a[id := Stamped(WaitingRow(s, a[id], s.world(t).now), Prepared, s.world(t + 1).now, None)]
    else
      && end == Some(Failed(C.RetryExhausted))
      && b == a[id := a[id].(state := Exhausted, updatedAt := s.world(t).now)]
  }

  lemma RetryComposes(s: Setting, a: Rows, failed: Rows, b: Rows, id: OpId, t: nat, to: nat, end: Option<Answer>)
    requires id in a && a[id].attempt >= 1
    requires failed == a[id := Stamped(a[id], FailedSafe, s.world(t).now, Some("hermes_api_failed_safe"))]
    requires ScheduledAgain(s, failed, b, id, t + 1, to, end)
    ensures RetriedAs(s, a, b, id, t, to, end)
  {
    hide Delay;
  }

  lemma StampsDurable(db: C.Db, id: OpId, state: OperationState, cmd: Command, now: real)
    requires Durable(db, id, state) && Advance(db.rows[id], cmd, now).Ok?
    requires cmd.MarkFailedSafe? || cmd == MarkCompleted || cmd == MakeRetryReady || cmd == StartAttempt
    ensures Advance(db.rows[id], cmd, now).value ==
            match cmd
            case MarkFailedSafe(code) => Stamped(db.rows[id], FailedSafe, now, code)
            case MarkCompleted => Stamped(db.rows[id], Completed, now, None)
            case MakeRetryReady => Stamped(db.rows[id], Prepared, now, None)
            case _ => StartedRow(db.rows[id], now)
  {
    StampsRow(db.rows[id], cmd, now);
    hide Advance, Stamped, StartedRow, ValidOperation;
  }

  lemma BegunRow(db: C.Db, id: OpId, now: real)
    requires Durable(db, id, Prepared)
    ensures var r := BeginOn(db.rows, id, db.policy, Some(ProbeOf(db.receipts)), now);
            r.Ok? && r.value.disposition == WasStarted ==> r.value.op == StartedRow(db.rows[id], now)
  {
    BegunIs(db, id, now);
    hide BeginOn, C.HasReceipt, StartedRow, ValidOperation;
    if Advance(db.rows[id], StartAttempt, now).Ok? {
      StampsDurable(db, id, Prepared, StartAttempt, now);
    }
    hide Advance;
  }

  lemma ReplacedIsPut(receipts: C.Receipts, taskId: string, receipt: C.Receipt)
    ensures !C.HasReceipt(receipts, receipt.key) ==> C.Replaced(receipts, taskId, receipt) == receipts[taskId := receipt]
  {
  }

  lemma MappedRow(rows: Rows, ids: set<OpId>, f: Operation -> Operation, id: OpId)
    requires id in rows
    ensures id in Mapped(rows, ids, f) && Mapped(rows, ids, f)[id] == if id in ids then f(rows[id]) else rows[id]
  {
  }

  /** The sweep over the first due cognitions is the release of each. */
  lemma SweepIsReleased(db: C.Db, ids: set<OpId>, s: Setting, policies: Registry, now: real)
    requires policies(Cognition) == db.policy && forall id | id in ids :: Durable(db, id, RetryWait)
    requires forall id :: id in ids <==> FirstDue(s.rank, db.rows, Cognition, now, 100, id)
    ensures Mapped(db.rows, ids, Released(policies, Some(ProbeOf(db.receipts)), now)) == ReleasedRows(s, db.rows, db.receipts, now)
  {
    hide FirstDue, Released, C.HasReceipt, Durable, Stamped;
    forall id | id in ids
      ensures id in db.rows && Released(policies, Some(ProbeOf(db.receipts)), now)(db.rows[id])
           == Stamped(db.rows[id], if C.HasReceipt(db.receipts, id.key) then Completed else Prepared, now, None)
    {
      ReleasedOne(db, id, policies, now);
    }
  }

  lemma ReleasedOne(db: C.Db, id: OpId, policies: Registry, now: real)
    requires Durable(db, id, RetryWait) && policies(Cognition) == db.policy
    ensures id in db.rows
    ensures Released(policies, Some(ProbeOf(db.receipts)), now)(db.rows[id])
         == Stamped(db.rows[id], if C.HasReceipt(db.receipts, id.key) then Completed else Prepared, now, None)
  {
    var op := db.rows[id];
    var cmd := if C.HasReceipt(db.receipts, id.key) then MarkCompleted else MakeRetryReady;
    ReleaseGoes(op, db.policy, Some(ProbeOf(db.receipts)), now);
    assert Advance(op, cmd, now).Ok?;
    assert Released(policies, Some(ProbeOf(db.receipts)), now)(op) == Advance(op, cmd, now).value;
    hide Released, Advance, ValidOperation, C.HasReceipt, Stamped;
    StampsDurable(db, id, RetryWait, cmd, now);
  }

  // ------------------------------------------------------- startup recovery

  datatype RecoveryCounts = RecoveryCounts(completed: nat, scheduled: nat, exhausted: nat)

  function With(ids: set<OpId>, rows: Rows, state: OperationState): set<OpId> {
    set id | id in ids && id in rows && rows[id].state == state
  }

  function CountsOf(ids: set<OpId>, rows: Rows): RecoveryCounts {
    RecoveryCounts(|With(ids, rows, Completed)|, |With(ids, rows, RetryWait)|, |With(ids, rows, Exhausted)|)
  }

  /** The dispositions, counted. */
  method CountResults(results: seq<RetryResult>, ghost rows: Rows, ghost ids: seq<OpId>, ghost all: set<OpId>)
    returns (counts: RecoveryCounts)
    requires Lists(ids, all) && Tells(rows, ids, results)
    ensures counts == CountsOf(all, rows) && counts.completed + counts.scheduled + counts.exhausted == |all|
  {
    hide With, Told, Elements;
    ListedAll(ids, all);
    counts := RecoveryCounts(0, 0, 0);
    NoneWith(rows);
    assert ids[..0] == [];
    for n := 0 to |results|
      invariant counts == CountsOf(Elements(ids[..n]), rows)
      invariant counts.completed + counts.scheduled + counts.exhausted == n
    {
      OneMoreWith(ids, n, rows, results[n]);
      counts := match results[n].disposition
        case WasCompleted => counts.(completed := counts.completed + 1)
        case WasScheduled => counts.(scheduled := counts.scheduled + 1)
        case WasExhausted => counts.(exhausted := counts.exhausted + 1)
        case _ => counts;
    }
    assert ids[..|results|] == ids;
  }

  lemma NoneWith(rows: Rows)
    ensures CountsOf(Elements([]), rows) == RecoveryCounts(0, 0, 0)
  {
    assert forall state :: With(Elements([]), rows, state) == {};
  }

  lemma OneMoreWith(ids: seq<OpId>, n: nat, rows: Rows, r: RetryResult)
    requires n < |ids| && ids[n] in rows && rows[ids[n]] == r.op && Told(r)
    requires forall i, j | 0 <= i < j < |ids| :: ids[i] != ids[j]
    ensures var was := CountsOf(Elements(ids[..n]), rows);
            CountsOf(Elements(ids[..n + 1]), rows) == match r.disposition
              case WasCompleted => was.(completed := was.completed + 1)
              case WasScheduled => was.(scheduled := was.scheduled + 1)
              case WasExhausted => was.(exhausted := was.exhausted + 1)
              case _ => was
    ensures r.disposition in {WasCompleted, WasScheduled, WasExhausted}
  {
    ElementsGrow(ids, n);
    var before := Elements(ids[..n]);
    assert ids[n] !in before;
    hide Elements;
    WithGrows(before, ids[n], rows, Completed);
    WithGrows(before, ids[n], rows, RetryWait);
    WithGrows(before, ids[n], rows, Exhausted);
    hide With;
  }

  lemma WithGrows(ids: set<OpId>, id: OpId, rows: Rows, state: OperationState)
    requires id !in ids && id in rows
    ensures |With(ids + {id}, rows, state)| == |With(ids, rows, state)| + if rows[id].state == state then 1 else 0
  {
    var before, after := With(ids, rows, state), With(ids + {id}, rows, state);
    assert id !in before;
    if rows[id].state == state {
      assert after == before + {id};
    } else {
      assert after == before;
    }
  }

  /** Some run of one worker leads from the tables `a` to the tables `b`. */
  ghost predicate Replays(a: C.Db, b: C.Db) {
    exists es :: Leads(a, es, b)
  }

  ghost predicate Leads(a: C.Db, es: seq<C.Event>, b: C.Db) {
    var s := C.Run(C.State(a, map[]), es);
    s.db == b && C.Free(C.At(s, 0))
  }

  lemma ReplaysSelf(a: C.Db)
    ensures Replays(a, a)
  {
    assert Leads(a, [], a);
  }

  lemma {:induction false} RunSplits(s: C.State, a: seq<C.Event>, b: seq<C.Event>)
    ensures C.Run(s, a + b) == C.Run(C.Run(s, a), b)
  {
    hide C.Apply;
    if b == [] {
      assert a + b == a;
    } else {
      RunSplits(s, a, b[..|b| - 1]);
      assert (a + b)[..|a + b| - 1] == a + b[..|b| - 1];
    }
  }

  /** Worker 0 takes up an interrupted cognition and steps through `envs`. */
  lemma RecoveryRuns(s: C.State, id: OpId, envs: seq<C.Env>) returns (es: seq<C.Event>)
    requires C.Free(C.At(s, 0)) && id.kind == Cognition
    ensures var o := Solo(s.db, C.RecoverProbe(id), envs);
            C.Run(s, es).db == o.db && C.At(C.Run(s, es), 0) == o.pc
  {
    var first := [C.Recover(0, id)];
    var steps := seq(|envs|, i requires 0 <= i < |envs| => C.Step(0, envs[i]));
    es := first + steps;
    RunSplits(s, first, steps);
    assert first[..0] == [];
    assert C.Run(s, first) == C.Apply(s, C.Recover(0, id));
    hide Solo, C.Perform;
    SoloIsRun(C.Apply(s, C.Recover(0, id)), 0, envs);
  }

  lemma RecoveryReplays(a: C.Db, db: C.Db, id: OpId, after: C.Db)
    requires Replays(a, db) && id.kind == Cognition
    requires Reaches(C.Outcome(db, C.RecoverProbe(id)), C.Outcome(after, C.Idle))
    ensures Replays(a, after)
  {
    var es :| Leads(a, es, db);
    var envs :| Solo(db, C.RecoverProbe(id), envs) == C.Outcome(after, C.Idle);
    var s := C.Run(C.State(a, map[]), es);
    hide C.Run, Solo;
    var more := RecoveryRuns(s, id, envs);
    RunSplits(C.State(a, map[]), es, more);
    assert Leads(a, es + more, after);
  }

  /** Recovering any set of interrupted cognitions, one by one, is a run. */
  lemma {:induction false} AllRecoveriesReplay(a: C.Db, db: C.Db, ids: set<OpId>, policies: Registry, now: real, unit: Operation -> real)
    requires Replays(a, db) && policies(Cognition) == db.policy && forall id | id in ids :: Durable(db, id, InFlight)
    ensures Replays(a, db.(rows := Mapped(db.rows, ids, Recovered(policies, Some(ProbeOf(db.receipts)), now, unit))))
    decreases |ids|
  {
    var f := Recovered(policies, Some(ProbeOf(db.receipts)), now, unit);
    hide Recovered, Replays, Reaches, ValidOperation;
    if ids == {} {
      assert Mapped(db.rows, ids, f) == db.rows && db.(rows := db.rows) == db;
    } else {
      var id :| id in ids;
      AllRecoveriesReplay(a, db, ids - {id}, policies, now, unit);
      var before := db.(rows := Mapped(db.rows, ids - {id}, f));
      assert before.rows[id] == db.rows[id];
      RecoveryReaches(before, id, policies, now, unit);
      assert Mapped(db.rows, ids, f) == before.rows[id := f(db.rows[id])];
      RecoveryReplays(a, before, id, before.(rows := before.rows[id := f(db.rows[id])]));
    }
  }

  lemma RecoveredNames(rows: Rows, ids: set<OpId>, policies: Registry, probe: Probe, now: real, unit: Operation -> real)
    requires NamedRows(rows)
    ensures NamedRows(Mapped(rows, ids, Recovered(policies, probe, now, unit)))
  {
    hide NamedRows, C.HasReceipt, Recovered;
    forall id | id in ids && id in rows ensures SameIdentity(rows[id], Recovered(policies, probe, now, unit)(rows[id])) {
      RecoveredIdentity(rows[id], policies, probe, now, unit);
    }
    MappedNames(rows, ids, Recovered(policies, probe, now, unit));
  }

  lemma RecoveredIdentity(op: Operation, policies: Registry, probe: Probe, now: real, unit: Operation -> real)
    ensures SameIdentity(op, Recovered(policies, probe, now, unit)(op))
  {
    hide Resumed, Carried, SameIdentity;
    CarriedIdentity(op, Ok(Do(MarkCompleted, WasCompleted)), now);
    ResumedIdentity(op, policies, probe, now, unit);
  }

  lemma ResumedIdentity(op: Operation, policies: Registry, probe: Probe, now: real, unit: Operation -> real)
    ensures SameIdentity(op, Resumed(policies, probe, now, unit, COGNITION_RESTART)(op))
  {
    if Advance(op, MarkFailedSafe(Some(COGNITION_RESTART)), now).Ok? {
      var failed := Advance(op, MarkFailedSafe(Some(COGNITION_RESTART)), now).value;
      assert SameIdentity(op, failed);
      ResumedIs(policies, probe, now, unit, COGNITION_RESTART, op);
      hide Advance, Carried, SchedulePlan, Resumed;
      CarriedIdentity(failed, SchedulePlan(policies(failed.kind), failed, probe, now, unit(failed)), now);
    }
  }

  /** Recovering one interrupted cognition is a solo execution from its probe to rest. */
  lemma RecoveryReaches(db: C.Db, id: OpId, policies: Registry, now: real, unit: Operation -> real)
    requires Durable(db, id, InFlight) && policies(Cognition) == db.policy
    ensures Reaches(C.Outcome(db, C.RecoverProbe(id)),
                    C.Outcome(db.(rows := db.rows[id := Recovered(policies, Some(ProbeOf(db.receipts)), now, unit)(db.rows[id])]), C.Idle))
  {
    hide Reaches, C.HasReceipt, Advance, Resumed, ValidOperation, SchedulePlan, Carried;
    if C.HasReceipt(db.receipts, id.key) {
      AcceptReaches(db, id, now);
    } else {
      FailReaches(db, id, policies, now, unit);
    }
  }

  lemma AcceptReaches(db: C.Db, id: OpId, now: real)
    requires Durable(db, id, InFlight) && C.HasReceipt(db.receipts, id.key)
    ensures Reaches(C.Outcome(db, C.RecoverProbe(id)),
                    C.Outcome(db.(rows := db.rows[id :=
                      TakenTo(Carried(db.rows[id], Ok(Do(MarkCompleted, WasCompleted)), now), db.rows[id])]), C.Idle))
  {
    var env := EnvAt(now, 0.0);
    CompleteGoes(db.rows[id], now);
    var after := db.(rows := db.rows[id := Advance(db.rows[id], MarkCompleted, now).value]);
    hide Advance, ValidOperation, C.HasReceipt;
    ReachesTwo(C.Outcome(db, C.RecoverProbe(id)), C.Outcome(db, C.AcceptCommit(id, C.InRecovery)), C.Outcome(after, C.Idle), env, env);
  }

  lemma FailReaches(db: C.Db, id: OpId, policies: Registry, now: real, unit: Operation -> real)
    requires Durable(db, id, InFlight) && policies(Cognition) == db.policy && !C.HasReceipt(db.receipts, id.key)
    ensures Reaches(C.Outcome(db, C.RecoverProbe(id)),
                    C.Outcome(db.(rows := db.rows[id :=
                      Resumed(policies, Some(ProbeOf(db.receipts)), now, unit, COGNITION_RESTART)(db.rows[id])]), C.Idle))
  {
    var op, env := db.rows[id], EnvAt(now, 0.0);
    var a := C.Outcome(db, C.RecoverProbe(id));
    FailedIsDurable(db, id, now);
    hide Advance, C.HasReceipt, Resumed, IsSafeToken, ValidOperation, ScheduleOn, Reaches, SchedulePlan, Carried,
         C.Perform, Durable;
    ResumedIs(policies, Some(ProbeOf(db.receipts)), now, unit, COGNITION_RESTART, op);
    var failed := Advance(op, MarkFailedSafe(Some(COGNITION_RESTART)), now).value;
    var middle := db.(rows := db.rows[id := failed]);
    RecoveryFails(db, id, failed, now);
    ScheduleReaches(middle, id, C.InRecovery, now, unit(failed));
    ReachesTwo(a, C.Outcome(db, C.RecoverFail(id)), C.Outcome(middle, C.Schedule(id, C.InRecovery)), env, env);
    ReachesEnd(a, db, middle, id, failed, policies, now, unit);
  }

  lemma FailedIsDurable(db: C.Db, id: OpId, now: real)
    requires Durable(db, id, InFlight)
    ensures var r := Advance(db.rows[id], MarkFailedSafe(Some(COGNITION_RESTART)), now);
            && r.Ok? && r.value.kind == Cognition && r.value.state == FailedSafe
            && Durable(db.(rows := db.rows[id := r.value]), id, FailedSafe)
  {
    SafeCodes();
    FailGoes(db.rows[id], COGNITION_RESTART, now);
    hide Advance, IsSafeToken, ValidOperation;
  }

  lemma RecoveryFails(db: C.Db, id: OpId, failed: Operation, now: real)
    requires id in db.rows && Advance(db.rows[id], MarkFailedSafe(Some(COGNITION_RESTART)), now) == Ok(failed)
    requires !C.HasReceipt(db.receipts, id.key)
    ensures C.Perform(db, C.RecoverProbe(id), EnvAt(now, 0.0)) == C.Outcome(db, C.RecoverFail(id))
    ensures C.Perform(db, C.RecoverFail(id), EnvAt(now, 0.0))
         == C.Outcome(db.(rows := db.rows[id := failed]), C.Schedule(id, C.InRecovery))
  {
    hide Advance, C.HasReceipt;
  }

  lemma ReachesEnd(a: C.Outcome, db: C.Db, middle: C.Db, id: OpId, failed: Operation, policies: Registry, now: real,
                   unit: Operation -> real)
    requires middle == db.(rows := db.rows[id := failed]) && policies(Cognition) == db.policy && failed.kind == Cognition
    requires failed.state == FailedSafe
    requires Reaches(a, C.Outcome(middle, C.Schedule(id, C.InRecovery)))
    requires var r := ScheduleOn(middle.rows, id, db.policy, Some(ProbeOf(db.receipts)), now, unit(failed));
             r.Ok? && Reaches(C.Outcome(middle, C.Schedule(id, C.InRecovery)),
                              C.Outcome(middle.(rows := middle.rows[id := r.value.op]), C.Idle))
    ensures Reaches(a, C.Outcome(db.(rows := db.rows[id :=
              TakenTo(Carried(failed, SchedulePlan(policies(failed.kind), failed, Some(ProbeOf(db.receipts)), now, unit(failed)), now), failed)]),
              C.Idle))
  {
    var r := ScheduleOn(middle.rows, id, db.policy, Some(ProbeOf(db.receipts)), now, unit(failed));
    assert middle.rows[id := r.value.op] == db.rows[id := r.value.op];
    hide Reaches, SchedulePlan, Carried;
    ReachesTrans(a, C.Outcome(middle, C.Schedule(id, C.InRecovery)),
                 C.Outcome(middle.(rows := middle.rows[id := r.value.op]), C.Idle));
  }

  lemma OneMoreCall(calls: multiset<OpId>, id: OpId)
    ensures |calls + multiset{id}| == |calls| + 1
  {
  }

  /**
    How many API calls one worker can still make on a row: one at least if it is
    ready or waits to be, none if it is in flight or over.
  */
  function CallsLeft(p: RetryPolicy, op: Operation): nat {
    match op.state
    case Prepared => AtLeast(Allowance(p) - op.attempt, 1)
    case RetryWait => AtLeast(Allowance(p) - op.attempt, 1)
    case FailedSafe => AtLeast(Allowance(p) - op.attempt, 0)
    case _ => 0
  }

  function AtLeast(n: int, least: nat): nat {
    if n < least then least else n
  }

  lemma OneLessLeft(p: RetryPolicy, op: Operation, next: Operation)
    requires CallsLeft(p, op) >= 1 && next.state == Prepared && next.attempt == op.attempt + 1 < Allowance(p)
    ensures CallsLeft(p, next) < CallsLeft(p, op)
  {
  }

  /** max_attempts - attempt, or nothing. */
  function AttemptsLeft(p: RetryPolicy, attempt: int): nat {
    AtLeast(p.maxAttempts - attempt, 0)
  }

  /** Within one scheduler's budget no call is made beyond max_attempts. */
  lemma AloneCallsLeft(p: RetryPolicy, op: Operation)
    requires ValidPolicy(p)
    ensures Promised(op) <= Allowance(p) ==> CallsLeft(p, op) <= AttemptsLeft(p, op.attempt)
  {
  }

  /** The row a reservation answers with: the one of the task's key, or a new one. */
  ghost predicate RowFor(rows: Rows, task: C.Task, op: Operation) {
    if HasKey(rows, Cognition, task.key) then op == rows[IdOf(rows, Cognition, task.key)]
    else op.state == Prepared && op.attempt == 0
  }

  lemma RowForLeft(p: RetryPolicy, rows: Rows, task: C.Task, op: Operation)
    requires ValidPolicy(p) && RowFor(rows, task, op)
    ensures CallsLeft(p, op) == CallsLeftFor(p, rows, task) && op.attempt == AttemptOf(rows, task)
    ensures Unraced(p, rows, task) ==> Promised(op) <= Allowance(p)
  {
  }

  ghost function CallsLeftFor(p: RetryPolicy, rows: Rows, task: C.Task): nat {
    if HasKey(rows, Cognition, task.key) then CallsLeft(p, rows[IdOf(rows, Cognition, task.key)])
    else AtLeast(Allowance(p), 1)
  }

  /** No other scheduler has taken the task's row past its own budget. */
  ghost predicate Unraced(p: RetryPolicy, rows: Rows, task: C.Task) {
    HasKey(rows, Cognition, task.key) ==> Promised(rows[IdOf(rows, Cognition, task.key)]) <= Allowance(p)
  }

  /** The attempts a task's row shows before the call. */
  ghost function AttemptOf(rows: Rows, task: C.Task): int {
    if HasKey(rows, Cognition, task.key) then rows[IdOf(rows, Cognition, task.key)].attempt else 0
  }

  function InitialTask(task: C.Task): Operation {
    C.InitialCognition(task, 0.0)
  }

  lemma ScheduledFacts(db: C.Db, id: OpId, now: real, unit: real)
    requires Durable(db, id, FailedSafe) && NamedRows(db.rows)
    ensures var r := ScheduleOn(db.rows, id, db.policy, Some(ProbeOf(db.receipts)), now, unit);
            && r.Ok? && NamedRows(db.rows[id := r.value.op]) && r.value.op.kind == Cognition && r.value.op.id == id
            && r.value.op.attempt == db.rows[id].attempt
            && (r.value.disposition == WasScheduled ==> r.value.op.state == RetryWait && r.value.op.attempt < Allowance(db.policy))
            && (r.value.disposition == WasCompleted ==> C.HasReceipt(db.receipts, id.key) && r.value.op.state == Completed)
  {
    DecisionIsPlan(db, id, now, unit);
    KeepsNames(db.rows, id, SchedulePlan(db.policy, db.rows[id], Some(ProbeOf(db.receipts)), now, unit).value.cmd, now);
    hide Delay, NamedRows, C.HasReceipt;
  }

  lemma BegunFacts(db: C.Db, id: OpId, now: real)
    requires Durable(db, id, Prepared) && NamedRows(db.rows)
    ensures var r := BeginOn(db.rows, id, db.policy, Some(ProbeOf(db.receipts)), now);
            r.Ok? && NamedRows(db.rows[id := r.value.op]) && r.value.op.kind == Cognition && r.value.op.id == id
  {
    hide C.HasReceipt, BeginOn;
    BegunIs(db, id, now);
    var accepted := db.rows[id].attempt > 0 && C.HasReceipt(db.receipts, id.key);
    KeepsNames(db.rows, id, if accepted then MarkCompleted else StartAttempt, now);
    hide NamedRows;
  }

  lemma ReleasedKeepsAttempt(op: Operation, policies: Registry, probe: Probe, now: real)
    requires op.kind == Cognition
    ensures var after := Released(policies, probe, now)(op);
            after.attempt == op.attempt && after.kind == Cognition
  {
    var plan := ReleasePlan(policies(Cognition), op, probe);
    assert Released(policies, probe, now)(op) == TakenTo(Carried(op, plan, now), op);
    hide Released;
    assert plan.Err? || plan == Ok(Do(MarkCompleted, WasCompleted)) || plan == Ok(Do(MakeRetryReady, IsReady));
    hide ReleasePlan;
    CommandKeepsAttempt(op, MarkCompleted, now);
    CommandKeepsAttempt(op, MakeRetryReady, now);
    hide Advance;
  }

  lemma CommandKeepsAttempt(op: Operation, cmd: Command, now: real)
    requires !cmd.StartAttempt?
    ensures var r := Advance(op, cmd, now);
            r.Ok? ==> r.value.attempt == op.attempt && r.value.kind == op.kind
  {
    hide ValidOperation;
  }

  lemma CognitionSupported(policies: Registry, probe: Probe)
    requires probe.Some?
    ensures Supported(policies(Cognition), Cognition, probe)
  {
  }

  lemma SweepEnds(db: C.Db, task: C.Task, id: OpId, now: real)
    ensures C.Perform(db, C.Sweep(task, id), EnvAt(now, 0.0)) == C.Outcome(db, C.Reread(task, id))
  {
  }

  lemma CompleteCommits(db: C.Db, task: C.Task, id: OpId, receipt: C.Receipt, now: real)
    requires Durable(db, id, InFlight)
    ensures Advance(db.rows[id], MarkCompleted, now).Ok?
    ensures C.Perform(db, C.Complete(task, id, receipt), EnvAt(now, 0.0))
         == C.Outcome(db.(rows := db.rows[id := Advance(db.rows[id], MarkCompleted, now).value]), C.Returned(task, receipt))
  {
  }

  lemma FailCommits(db: C.Db, task: C.Task, id: OpId, now: real)
    requires Durable(db, id, InFlight)
    ensures var r := Advance(db.rows[id], MarkFailedSafe(Some(C.API_FAILED)), now);
            && r.Ok? && r.value.state == FailedSafe && r.value.attempt == db.rows[id].attempt && r.value.kind == Cognition
            && C.Perform(db, C.FailCommit(task, id), EnvAt(now, 0.0))
                 == C.Outcome(db.(rows := db.rows[id := r.value]), C.Schedule(id, C.InLoop(task)))
  {
    assert IsSafeToken(C.API_FAILED);
    FailGoes(db.rows[id], C.API_FAILED, now);
    hide Advance;
  }

  lemma ReadyCommits(db: C.Db, task: C.Task, id: OpId, now: real)
    requires Durable(db, id, RetryWait)
    ensures var r := Advance(db.rows[id], MakeRetryReady, now);
            && r.Ok? && r.value.state == Prepared && r.value.attempt == db.rows[id].attempt && r.value.kind == Cognition
            && r.value.id == id
            && C.Perform(db, C.ReadyCommit(task, id), EnvAt(now, 0.0))
                 == C.Outcome(db.(rows := db.rows[id := r.value]), C.Top(task, r.value))
  {
  }

  lemma RefreshReads(db: C.Db, task: C.Task, op: Operation)
    requires op.id in db.rows && db.rows[op.id] == op
    ensures C.Perform(db, C.Refresh(task, op), EnvAt(0.0, 0.0)) == C.Outcome(db, C.RefreshNext(db, task, op))
  {
    hide C.HasReceipt;
  }

  lemma RereadReads(db: C.Db, task: C.Task, id: OpId)
    ensures C.Perform(db, C.Reread(task, id), EnvAt(0.0, 0.0)) == C.Outcome(db, C.RereadNext(db, task, id))
  {
  }

  lemma TopReads(db: C.Db, task: C.Task, op: Operation)
    ensures C.Perform(db, C.Top(task, op), EnvAt(0.0, 0.0)) == C.Outcome(db, C.CachedNext(db, task, C.Refresh(task, op)))
    ensures C.Perform(db, C.Lookup(task), EnvAt(0.0, 0.0)) == C.Outcome(db, C.CachedNext(db, task, C.Register(task)))
    ensures C.Perform(db, C.ReturnCached(task), EnvAt(0.0, 0.0))
         == C.Outcome(db, C.CachedNext(db, task, C.Raised(C.ReceiptMissing)))
  {
    hide C.HasReceipt;
  }

  lemma ReserveSteps(db: C.Db, task: C.Task, now: real)
    requires ValidRows(db.rows) && NamedRows(db.rows)
    ensures var op := C.InitialCognition(task, now);
            var r := Reserved(db.rows, op);
            && C.Perform(db, C.Reserve(task), EnvAt(now, 0.0)) == C.Outcome(
                 if r.Ok? then db.(rows := AfterReserve(db.rows, op)) else db,
                 match r case Ok(x) => C.Top(task, x) case Err(e) => C.Raised(C.StoreRefused(e)))
            && NamedRows(AfterReserve(db.rows, op)) && (r.Err? ==> AfterReserve(db.rows, op) == db.rows)
            && (r.Ok? ==> r.value.id in AfterReserve(db.rows, op) && AfterReserve(db.rows, op)[r.value.id] == r.value
                          && r.value.kind == Cognition && r.value.id.kind == Cognition && r.value.id.key == task.key
                          && RowFor(db.rows, task, r.value))
  {
    var op := C.InitialCognition(task, now);
    ReserveKeepsRows(db.rows, op);
    hide ValidRows, ValidOperation;
  }
}
