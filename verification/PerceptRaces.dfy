/**
  The attempt bound is exact: racing schedulers reach it. Each of `workers`
  schedulers reads the same failed row while attempts are left; every stale
  decision then buys one attempt more.
*/
module PerceptRaces {
  import opened Basics
  import opened ReliabilityContract
  import opened OperationStore
  import opened Backoff
  import opened Budget
  import opened PerceptProtocol
  import opened PerceptSafety
  import opened PerceptTheorems

  // ------------------------------------------------------------ reachability

  ghost predicate Reaches(s: State, t: State, workers: nat) {
    exists es :: ByWorkers(es, workers) && Run(s, es) == t
  }

  lemma {:induction false} RunSplits(s: State, a: seq<Event>, b: seq<Event>)
    ensures Run(s, a + b) == Run(Run(s, a), b)
  {
    hide Apply;
    if b == [] {
      assert a + b == a;
    } else {
      RunSplits(s, a, b[..|b| - 1]);
      assert (a + b)[..|a + b| - 1] == a + b[..|b| - 1];
    }
  }

  lemma ReachesTrans(s: State, t: State, u: State, workers: nat)
    requires Reaches(s, t, workers) && Reaches(t, u, workers)
    ensures Reaches(s, u, workers)
  {
    hide Run;
    var a :| ByWorkers(a, workers) && Run(s, a) == t;
    var b :| ByWorkers(b, workers) && Run(t, b) == u;
    RunSplits(s, a, b);
    assert ByWorkers(a + b, workers);
  }

  lemma ReachesSelf(s: State, workers: nat)
    ensures Reaches(s, s, workers)
  {
    assert ByWorkers([], workers) && Run(s, []) == s;
  }

  lemma ReachesNext(s: State, e: Event, workers: nat)
    requires ByWorkers([e], workers)
    ensures Reaches(s, Apply(s, e), workers)
  {
    hide Apply;
    assert [e][..0] == [];
    assert Run(s, [e]) == Apply(s, e);
  }

  /** Everything but the row and worker `w` is as it was. */
  ghost predicate Only(s: State, t: State, w: nat) {
    && t.db.outbox == s.db.outbox && t.db.policy == s.db.policy
    && forall v | v != w :: At(t, v) == At(s, v)
  }

  ghost predicate Row(s: State, id: OpId, op: Operation) {
    id in s.db.rows && s.db.rows[id] == op
  }

  // ------------------------------------------------------------ single moves

  /** Worker `w` picks up a job. */
  lemma Takes(s: State, w: nat, job: Job, workers: nat) returns (t: State)
    requires w < workers && Free(At(s, w)) && PerceptJob(job)
    ensures Reaches(s, t, workers) && Only(s, t, w) && t.db == s.db && At(t, w) == Entry(job)
  {
    t := Apply(s, Take(w, job));
    ReachesNext(s, Take(w, job), workers);
  }

  lemma Crashes(s: State, w: nat, workers: nat) returns (t: State)
    requires w < workers
    ensures Reaches(s, t, workers) && Only(s, t, w) && t.db == s.db && At(t, w) == Idle
  {
    t := Apply(s, Crash(w));
    ReachesNext(s, Crash(w), workers);
  }

  const LOST := Env(0.0, 0.0, TransportError, true)

  /** A read moves worker `w` on. */
  lemma Reads(s: State, w: nat, next: Pc, workers: nat) returns (t: State)
    requires w < workers && Perform(s.db, At(s, w), LOST) == Outcome(s.db, next)
    ensures Reaches(s, t, workers) && Only(s, t, w) && t.db == s.db && At(t, w) == next
  {
    hide Perform;
    t := Apply(s, Step(w, LOST));
    ReachesNext(s, Step(w, LOST), workers);
  }

  /** A commit moves worker `w` on and replaces the row. */
  lemma Commits(s: State, w: nat, id: OpId, op: Operation, next: Pc, workers: nat) returns (t: State)
    requires w < workers
    requires Perform(s.db, At(s, w), LOST) == Outcome(s.db.(rows := s.db.rows[id := op]), next)
    ensures Reaches(s, t, workers) && Only(s, t, w) && Row(t, id, op) && At(t, w) == next
  {
    hide Perform;
    t := Apply(s, Step(w, LOST));
    ReachesNext(s, Step(w, LOST), workers);
  }

  lemma Chain(s: State, t: State, u: State, w: nat, workers: nat)
    requires Reaches(s, t, workers) && Only(s, t, w) && Reaches(t, u, workers) && Only(t, u, w)
    ensures Reaches(s, u, workers) && Only(s, u, w)
  {
    hide Reaches;
    ReachesTrans(s, t, u, workers);
  }

  // -------------------------------------------------------------- one attempt

  predicate LiveRow(op: Operation, state: OperationState, attempt: int) {
    ValidOperation(op) && op.kind == Percept && op.id.kind == Percept && op.state == state && op.attempt == attempt
  }

  const CODE := "runtime_transport_exception"

  lemma CommandsWork(op: Operation, attempt: int, at: real)
    requires ValidOperation(op) && op.kind == Percept && op.attempt == attempt && op.id.kind == Percept
    ensures op.state == Prepared ==>
              Advance(op, StartAttempt, 0.0).Ok? && LiveRow(Advance(op, StartAttempt, 0.0).value, InFlight, attempt + 1)
    ensures op.state == InFlight ==>
              Advance(op, MarkFailedSafe(Some(CODE)), 0.0).Ok?
              && LiveRow(Advance(op, MarkFailedSafe(Some(CODE)), 0.0).value, FailedSafe, attempt)
    ensures op.state == FailedSafe ==>
              Advance(op, ScheduleRetry(at), 0.0).Ok?
              && LiveRow(Advance(op, ScheduleRetry(at), 0.0).value, RetryWait, attempt)
    ensures op.state == RetryWait ==>
              Advance(op, MakeRetryReady, 0.0).Ok? && LiveRow(Advance(op, MakeRetryReady, 0.0).value, Prepared, attempt)
  {
    assert IsSafeToken(CODE);
  }

  /** Start: from a prepared row to an attempt in flight with its envelope. */
  lemma StartsAttempt(s: State, w: nat, id: OpId, op: Operation, attempt: int, workers: nat)
    returns (t: State, started: Operation)
    requires w < workers && Free(At(s, w)) && Row(s, id, op) && LiveRow(op, Prepared, attempt)
    requires op.id == id && id in s.db.outbox
    ensures Reaches(s, t, workers) && Only(s, t, w) && Row(t, id, started)
    ensures LiveRow(started, InFlight, attempt + 1) && started.id == id
    ensures At(t, w) == Send(id, s.db.outbox[id].event)
  {
    CommandsWork(op, attempt, 0.0);
    started := Advance(op, StartAttempt, 0.0).value;
    assert started.id == id;
    hide Advance, ValidOperation, Reaches;
    var s1 := Takes(s, w, Deliver(id), workers);
    var s2 := Reads(s1, w, BeginRead(id), workers);
    Chain(s, s1, s2, w, workers);
    var s3 := Reads(s2, w, BeginCommit(id), workers);
    Chain(s, s2, s3, w, workers);
    var s4 := Commits(s3, w, id, started, Load(id), workers);
    Chain(s, s3, s4, w, workers);
    t := Reads(s4, w, Send(id, s.db.outbox[id].event), workers);
    Chain(s, s4, t, w, workers);
  }

  /** The transport fails: the row is failed-safe and the worker about to schedule. */
  lemma FailsAttempt(s: State, w: nat, id: OpId, op: Operation, attempt: int, event: Envelope, workers: nat)
    returns (t: State, failed: Operation)
    requires w < workers && At(s, w) == Send(id, event) && Row(s, id, op) && op.id == id
    requires LiveRow(op, InFlight, attempt)
    ensures Reaches(s, t, workers) && Only(s, t, w) && Row(t, id, failed)
    ensures LiveRow(failed, FailedSafe, attempt) && failed.id == id && At(t, w) == Schedule(id)
  {
    CommandsWork(op, attempt, 0.0);
    failed := Advance(op, MarkFailedSafe(Some(CODE)), 0.0).value;
    assert failed.id == id;
    hide Advance, ValidOperation, Reaches;
    var s1 := Reads(s, w, Fail(id, CODE), workers);
    var s2 := Reads(s1, w, FailCommit(id, CODE), workers);
    Chain(s, s1, s2, w, workers);
    t := Commits(s2, w, id, failed, Schedule(id), workers);
    Chain(s, s2, t, w, workers);
  }

  /** A permit is spent and the row released again. */
  lemma SpendsPermit(s: State, w: nat, id: OpId, op: Operation, attempt: int, at: real, workers: nat)
    returns (t: State, ready: Operation)
    requires w < workers && At(s, w) == ScheduleCommit(id, at) && Row(s, id, op) && op.id == id
    requires LiveRow(op, FailedSafe, attempt)
    ensures Reaches(s, t, workers) && Only(s, t, w) && Row(t, id, ready)
    ensures LiveRow(ready, Prepared, attempt) && ready.id == id && At(t, w) == Idle
  {
    CommandsWork(op, attempt, at);
    var waiting := Advance(op, ScheduleRetry(at), 0.0).value;
    CommandsWork(waiting, attempt, at);
    ready := Advance(waiting, MakeRetryReady, 0.0).value;
    assert waiting.id == id && ready.id == id;
    hide Advance, ValidOperation, Reaches;
    var s1 := Commits(s, w, id, waiting, Done(false), workers);
    var s2 := Takes(s1, w, ReleaseDue(id), workers);
    Chain(s, s1, s2, w, workers);
    t := Commits(s2, w, id, ready, Idle, workers);
    Chain(s, s2, t, w, workers);
  }

  /** Worker `w` decides to schedule a failed row that has attempts left. */
  lemma TakesPermit(s: State, w: nat, id: OpId, op: Operation, attempt: int, workers: nat)
    returns (t: State, at: real)
    requires w < workers && Row(s, id, op) && LiveRow(op, FailedSafe, attempt)
    requires 1 <= attempt <= Allowance(s.db.policy) - 1 && id.kind == Percept
    ensures Reaches(s, t, workers) && Only(s, t, w) && t.db == s.db
    ensures At(t, w) == ScheduleCommit(id, at)
  {
    hide Reaches, Delay, ValidOperation;
    var s1 := Crashes(s, w, workers);
    var s2 := Takes(s1, w, Reschedule(id), workers);
    Chain(s, s1, s2, w, workers);
    at := 0.0 + Delay(s.db.policy, attempt, 0.0);
    t := Reads(s2, w, ScheduleCommit(id, at), workers);
    Chain(s, s2, t, w, workers);
  }

  // ------------------------------------------------------------------ the race

  /** One spent permit, one more failed attempt. */
  lemma Round(s: State, w: nat, id: OpId, op: Operation, attempt: int, workers: nat)
    returns (t: State, failed: Operation)
    requires w < workers && At(s, w).ScheduleCommit? && At(s, w).id == id && id in s.db.outbox
    requires Row(s, id, op) && op.id == id && LiveRow(op, FailedSafe, attempt)
    ensures Reaches(s, t, workers) && Only(s, t, w) && Row(t, id, failed)
    ensures LiveRow(failed, FailedSafe, attempt + 1) && failed.id == id && At(t, w) == Schedule(id)
  {
    hide Reaches, ValidOperation;
    var s1, ready := SpendsPermit(s, w, id, op, attempt, At(s, w).at, workers);
    var s2, started := StartsAttempt(s1, w, id, ready, attempt, workers);
    Chain(s, s1, s2, w, workers);
    t, failed := FailsAttempt(s2, w, id, started, attempt + 1, s.db.outbox[id].event, workers);
    Chain(s, s2, t, w, workers);
  }

  /** A failed percept row with its envelope still in the outbox. */
  ghost predicate FailedAt(s: State, id: OpId, attempt: int) {
    && id in s.db.rows && s.db.rows[id].id == id && LiveRow(s.db.rows[id], FailedSafe, attempt)
    && id in s.db.outbox
  }

  /** Worker 0 alone brings the row to its last attempt but one. */
  lemma {:induction false} Climb(s: State, id: OpId, attempt: int, workers: nat) returns (t: State)
    requires workers >= 1 && FailedAt(s, id, attempt) && 1 <= attempt <= Allowance(s.db.policy) - 1
    ensures Reaches(s, t, workers) && t.db.policy == s.db.policy
    ensures FailedAt(t, id, Allowance(s.db.policy) - 1)
    decreases Allowance(s.db.policy) - attempt
  {
    if attempt == Allowance(s.db.policy) - 1 {
      t := s;
      ReachesSelf(s, workers);
    } else {
      hide Reaches, ValidOperation;
      var s1, at := TakesPermit(s, 0, id, s.db.rows[id], attempt, workers);
      var s2, failed := Round(s1, 0, id, s.db.rows[id], attempt, workers);
      t := Climb(s2, id, attempt + 1, workers);
      ReachesTrans(s, s1, s2, workers);
      ReachesTrans(s, s2, t, workers);
    }
  }

  /** Workers `0 .. n - 1` all decide on the same reading of the row. */
  lemma {:induction false} AllDecide(s: State, id: OpId, attempt: int, n: nat, workers: nat) returns (t: State)
    requires n <= workers && FailedAt(s, id, attempt) && 1 <= attempt <= Allowance(s.db.policy) - 1
    ensures Reaches(s, t, workers) && t.db == s.db
    ensures forall v: nat | v < n :: Permit(At(t, v), id)
  {
    if n == 0 {
      t := s;
      ReachesSelf(s, workers);
    } else {
      hide Reaches, ValidOperation;
      var s1 := AllDecide(s, id, attempt, n - 1, workers);
      var at;
      t, at := TakesPermit(s1, n - 1, id, s.db.rows[id], attempt, workers);
      ReachesTrans(s, s1, t, workers);
    }
  }

  /** Each stale decision buys one more attempt. */
  lemma {:induction false} AllSpend(s: State, id: OpId, attempt: int, i: nat, workers: nat) returns (t: State)
    requires i <= workers && FailedAt(s, id, attempt)
    requires forall v: nat | i <= v < workers :: Permit(At(s, v), id)
    ensures Reaches(s, t, workers) && FailedAt(t, id, attempt + workers - i)
    decreases workers - i
  {
    if i == workers {
      t := s;
      ReachesSelf(s, workers);
    } else {
      hide Reaches, ValidOperation;
      assert Permit(At(s, i), id);
      var s1, failed := Round(s, i, id, s.db.rows[id], attempt, workers);
      t := AllSpend(s1, id, attempt + 1, i + 1, workers);
      ReachesTrans(s, s1, t, workers);
    }
  }

  /** A free worker reserves a percept that is not in the table. */
  lemma Reserves(s: State, w: nat, event: Envelope, hash: string, workers: nat) returns (t: State, op: Operation)
    requires w < workers && Free(At(s, w)) && NonBlank(event.key) && IsSha256Hex(hash)
    requires StableId(Percept, event.key, hash) !in s.db.rows && !HasKey(s.db.rows, Percept, event.key)
    ensures Reaches(s, t, workers) && t.db.policy == s.db.policy && At(t, w) == Idle
    ensures forall v | v != w :: At(t, v) == At(s, v)
    ensures var id := StableId(Percept, event.key, hash);
            && Row(t, id, op) && LiveRow(op, Prepared, 0) && op.id == id
            && id in t.db.outbox && t.db.purged == s.db.purged
  {
    op := InitialPercept(event, hash, 0.0);
    var s1 := Takes(s, w, Submit(event, hash), workers);
    var s2 := Apply(s1, Step(w, LOST));
    ReachesNext(s1, Step(w, LOST), workers);
    assert s2.db.rows == s.db.rows[op.id := op] && op.id in s2.db.outbox;
    hide Reaches, ValidOperation, Run, Apply, Reserved;
    t := Crashes(s2, w, workers);
    ReachesTrans(s, s1, s2, workers);
    ReachesTrans(s, s2, t, workers);
  }

  /** A fresh percept, tried once by worker 0. */
  lemma FirstFailure(policy: RetryPolicy, event: Envelope, hash: string, workers: nat) returns (t: State)
    requires NonBlank(event.key) && IsSha256Hex(hash) && workers >= 1
    ensures Reaches(Init(policy), t, workers) && t.db.policy == policy
    ensures FailedAt(t, StableId(Percept, event.key, hash), 1)
  {
    var id := StableId(Percept, event.key, hash);
    var s1, op := Reserves(Init(policy), 0, event, hash, workers);
    hide Reaches, ValidOperation, Init;
    var s2, started := StartsAttempt(s1, 0, id, op, 0, workers);
    var failed;
    t, failed := FailsAttempt(s2, 0, id, started, 1, s1.db.outbox[id].event, workers);
    ReachesTrans(Init(policy), s1, s2, workers);
    ReachesTrans(Init(policy), s2, t, workers);
  }

  /** Some run of `workers` workers makes exactly Cap attempts. */
  lemma CapIsReached(policy: RetryPolicy, workers: nat, event: Envelope, hash: string)
    requires ValidPolicy(policy) && workers >= 1 && NonBlank(event.key) && IsSha256Hex(hash)
    ensures exists es ::
              && ByWorkers(es, workers)
              && StableId(Percept, event.key, hash) in Run(Init(policy), es).db.rows
              && Run(Init(policy), es).db.rows[StableId(Percept, event.key, hash)].attempt
                   == Cap(Allowance(policy), workers)
  {
    var id := StableId(Percept, event.key, hash);
    var t := FirstFailure(policy, event, hash, workers);
    if Allowance(policy) >= 2 {
      hide Reaches, ValidOperation, Init;
      var s0 := t;
      var s1 := Climb(s0, id, 1, workers);
      var s2 := AllDecide(s1, id, Allowance(policy) - 1, workers, workers);
      t := AllSpend(s2, id, Allowance(policy) - 1, 0, workers);
      ReachesTrans(Init(policy), s0, s1, workers);
      ReachesTrans(Init(policy), s1, s2, workers);
      ReachesTrans(Init(policy), s2, t, workers);
    }
    ByRun(policy, t, workers);
  }

  lemma ByRun(policy: RetryPolicy, t: State, workers: nat)
    requires Reaches(Init(policy), t, workers)
    ensures exists es :: ByWorkers(es, workers) && Run(Init(policy), es) == t
  {
  }

  /** No run of `workers` workers attempts a percept more than max_attempts times. */
  ghost predicate NeverExceedsMax(policy: RetryPolicy, workers: nat) {
    forall es, id | ByWorkers(es, workers) && id in Run(Init(policy), es).db.rows ::
      Run(Init(policy), es).db.rows[id].attempt <= policy.maxAttempts
  }

  /**
    max_attempts itself is a bound exactly when there is a single worker, or
    the policy grants no retry at all.
  */
  lemma MaxHoldsIff(policy: RetryPolicy, workers: nat)
    requires ValidPolicy(policy) && workers >= 1
    ensures NeverExceedsMax(policy, workers) <==> workers == 1 || Allowance(policy) == 1
  {
    if workers == 1 || Allowance(policy) == 1 {
      forall es, id | ByWorkers(es, workers) && id in Run(Init(policy), es).db.rows
        ensures Run(Init(policy), es).db.rows[id].attempt <= policy.maxAttempts
      {
        AttemptsAreBounded(policy, workers, es, id);
      }
    } else {
      var hash := seq(64, i => 'a');
      var event := Envelope("k", 0.0, "");
      assert NonBlank("k") by { assert !IsSpace("k"[0]); }
      CapIsReached(policy, workers, event, hash);
    }
  }

  // ------------------------------------------------------- the late clearing

  const ACKED := Env(0.0, 0.0, AckOk, true)

  /** The Runtime answers ok and the row is completed; the clearing is still due. */
  lemma Completes(s: State, w: nat, id: OpId, op: Operation, event: Envelope, workers: nat) returns (t: State)
    requires w < workers && At(s, w) == Send(id, event) && Row(s, id, op) && LiveRow(op, InFlight, 1)
    ensures Reaches(s, t, workers) && At(t, w) == Clear(id) && forall v | v != w :: At(t, v) == At(s, v)
    ensures IsPercept(t.db.rows, id) && t.db.rows[id].state == Completed && t.db.rows[id].key == op.key
  {
    var s1 := Apply(s, Step(w, ACKED));
    ReachesNext(s, Step(w, ACKED), workers);
    assert At(s1, w) == Complete(id);
    t := Apply(s1, Step(w, ACKED));
    ReachesNext(s1, Step(w, ACKED), workers);
    hide Reaches;
    ReachesTrans(s, s1, t, workers);
  }

  /** Maintenance purges the completed row, the only one of its key. */
  lemma Purges(s: State, id: OpId, workers: nat) returns (t: State)
    requires ValidRows(s.db.rows) && IsPercept(s.db.rows, id) && s.db.rows[id].state == Completed
    ensures Reaches(s, t, workers) && t.pcs == s.pcs
    ensures id !in t.db.rows && !HasKey(t.db.rows, Percept, s.db.rows[id].key)
  {
    var s1 := Apply(s, PurgeSelect({id}));
    ReachesNext(s, PurgeSelect({id}), workers);
    t := Apply(s1, PurgeDelete({id}));
    ReachesNext(s1, PurgeDelete({id}), workers);
    hide Reaches, ValidOperation;
    ReachesTrans(s, s1, t, workers);
  }

  lemma Clears(s: State, w: nat, id: OpId, workers: nat) returns (t: State)
    requires w < workers && At(s, w) == Clear(id)
    ensures Reaches(s, t, workers) && t.db.rows == s.db.rows && id !in t.db.outbox
  {
    t := Apply(s, Step(w, LOST));
    ReachesNext(s, Step(w, LOST), workers);
  }

  lemma ReachedRows(policy: RetryPolicy, s: State, workers: nat)
    requires Reaches(Init(policy), s, workers)
    ensures ValidRows(s.db.rows) && forall id | id in s.db.rows :: s.db.rows[id].key == id.key
  {
    var es :| ByWorkers(es, workers) && Run(Init(policy), es) == s;
    RunKeeps(policy, es);
    NamesOf(s.db);
  }

  /** A reserved percept that is not completed and has no envelope. */
  ghost predicate Lost(s: State, id: OpId) {
    IsPercept(s.db.rows, id) && s.db.rows[id].state != Completed && id !in s.db.outbox
  }

  /** Worker 0 stops between completing its percept and clearing the outbox. */
  lemma PausesBeforeClearing(policy: RetryPolicy, event: Envelope, hash: string) returns (t: State)
    requires NonBlank(event.key) && IsSha256Hex(hash)
    ensures Reaches(Init(policy), t, 2)
    ensures var id := StableId(Percept, event.key, hash);
            IsPercept(t.db.rows, id) && t.db.rows[id].state == Completed && At(t, 0) == Clear(id)
  {
    var id := StableId(Percept, event.key, hash);
    var s1, op := Reserves(Init(policy), 0, event, hash, 2);
    hide Reaches, ValidOperation, Init, Run;
    var s2, started := StartsAttempt(s1, 0, id, op, 0, 2);
    t := Completes(s2, 0, id, started, s1.db.outbox[id].event, 2);
    ReachesTrans(Init(policy), s1, s2, 2);
    ReachesTrans(Init(policy), s2, t, 2);
  }

  /**
    A worker pausing between completing and clearing, a purge, and a second
    submission of the same percept: the late clearing takes the new envelope.
  */
  lemma LateClearLoses(policy: RetryPolicy, event: Envelope, hash: string)
    requires NonBlank(event.key) && IsSha256Hex(hash)
    ensures exists es :: Lost(Run(Init(policy), es), StableId(Percept, event.key, hash))
  {
    var id := StableId(Percept, event.key, hash);
    var s3 := PausesBeforeClearing(policy, event, hash);
    ReachedRows(policy, s3, 2);
    var s4 := Purges(s3, id, 2);
    hide Reaches, ValidOperation, ValidRows, Init, Run, HasKey;
    var s5 := Crashes(s4, 1, 2);
    var s6, again := Reserves(s5, 1, event, hash, 2);
    var s7 := Clears(s6, 0, id, 2);
    ReachesTrans(Init(policy), s3, s4, 2);
    ReachesTrans(Init(policy), s4, s5, 2);
    ReachesTrans(Init(policy), s5, s6, 2);
    ReachesTrans(Init(policy), s6, s7, 2);
    ByRun(policy, s7, 2);
    assert Lost(s7, id);
  }

  /**
    Somewhere in the run maintenance deletes the row of `id` while a worker has
    completed it and not yet cleared its envelope.
  */
  ghost predicate DeletesLate(policy: RetryPolicy, es: seq<Event>, id: OpId) {
    exists n | 0 <= n < |es| :: LateDelete(Run(Init(policy), es[..n]), es[n], id)
  }

  ghost predicate LateDelete(s: State, e: Event, id: OpId) {
    e.PurgeDelete? && id in e.ids * s.db.doomed && id in s.db.rows && exists w :: At(s, w) == Clear(id)
  }

  /** A live row has its envelope, and who is about to clear it finds it completed. */
  ghost predicate Covered(db: Db, id: OpId) {
    id in db.rows && db.rows[id].state != Completed ==> id in db.outbox
  }

  ghost predicate Over(db: Db, id: OpId) {
    id in db.rows && db.rows[id].state == Completed
  }

  ghost predicate Holding(s: State, id: OpId) {
    Covered(s.db, id) && forall w | At(s, w) == Clear(id) :: Over(s.db, id)
  }

  /** What a step keeps for one percept. */
  ghost predicate Keeps(db: Db, o: Outcome, id: OpId) {
    Covered(o.db, id) && (Over(db, id) ==> Over(o.db, id)) && (o.pc == Clear(id) ==> Over(o.db, id))
  }

  lemma ReserveKeeps(db: Db, event: Envelope, hash: string, now: real, id: OpId)
    requires ValidRows(db.rows) && Covered(db, id)
    ensures Keeps(db, ReserveStep(db, event, hash, now), id)
  {
    var op := InitialPercept(event, hash, now);
    ReserveKeepsRows(db.rows, op);
    hide ValidRows, HasKey;
  }

  lemma CommitKeeps(db: Db, row: OpId, cmd: Command, now: real, next: Pc, id: OpId)
    requires Covered(db, id)
    requires next == Clear(id) ==> row == id && cmd == MarkCompleted
    ensures Keeps(db, Commit(db, row, cmd, now, next), id)
  {
    if row in db.rows {
      CommandEnds(db.rows[row], cmd, now);
    }
    hide Advance;
  }

  /** COMPLETED is final, and mark_completed leads there. */
  lemma CommandEnds(op: Operation, cmd: Command, now: real)
    ensures var r := Advance(op, cmd, now);
            r.Ok? ==> op.state != Completed && (cmd == MarkCompleted ==> r.value.state == Completed)
  {
    hide ValidOperation;
  }

  lemma PerformKeeps(db: Db, pc: Pc, env: Env, id: OpId)
    requires ValidRows(db.rows) && Covered(db, id) && (pc == Clear(id) ==> Over(db, id))
    ensures Keeps(db, Perform(db, pc, env), id)
  {
    hide Keeps, Commit, ValidRows, AttemptNext, DueNext, BeginNext, LoadNext, FailNext, ScheduleNext;
    match pc
    case Reserve(event, hash) => ReserveKeeps(db, event, hash, env.now, id);
    case Release(row, thenBegin) =>
      ReleaseKeeps(db, row, thenBegin, env.now, id);
    case BeginCommit(row) => BeginKeeps(db, row, env.now, id);
    case Complete(row) => CommitKeeps(db, row, MarkCompleted, env.now, Clear(row), id);
    case FailCommit(row, code) => CommitKeeps(db, row, MarkFailedSafe(Some(code)), env.now, Schedule(row), id);
    case ScheduleCommit(row, at) => CommitKeeps(db, row, ScheduleRetry(at), env.now, Done(false), id);
    case ExhaustCommit(row) => CommitKeeps(db, row, MarkExhausted, env.now, Done(false), id);
    case _ => ReadKeeps(db, pc, env, id);
  }

  lemma ReleaseKeeps(db: Db, row: OpId, thenBegin: bool, now: real, id: OpId)
    requires Covered(db, id)
    ensures Keeps(db, ReleaseStep(db, row, thenBegin, now), id)
  {
    hide Commit;
    CommitKeeps(db, row, MakeRetryReady, now, if thenBegin then BeginRead(row) else Idle, id);
  }

  lemma BeginKeeps(db: Db, row: OpId, now: real, id: OpId)
    requires Covered(db, id)
    ensures Keeps(db, BeginStep(db, row, now), id)
  {
    hide Commit;
    CommitKeeps(db, row, StartAttempt, now, Load(row), id);
  }

  lemma ReadKeeps(db: Db, pc: Pc, env: Env, id: OpId)
    requires pc.Idle? || pc.Attempt? || pc.CheckDue? || pc.BeginRead? || pc.Load? || pc.Send? || pc.Clear?
             || pc.Fail? || pc.Schedule? || pc.Done? || pc.Raised?
    requires Covered(db, id) && (pc == Clear(id) ==> Over(db, id))
    ensures Keeps(db, Perform(db, pc, env), id)
  {
    hide Decide;
  }

  lemma StepHolds(s: State, w: nat, env: Env, id: OpId)
    requires ValidRows(s.db.rows) && Holding(s, id)
    ensures Holding(Apply(s, Step(w, env)), id)
  {
    var t := Apply(s, Step(w, env));
    PerformKeeps(s.db, At(s, w), env, id);
    hide Perform, ValidRows, Covered, Over;
    forall v | At(t, v) == Clear(id) ensures Over(t.db, id) {
      assert v != w ==> At(s, v) == Clear(id);
    }
  }

  lemma PurgeHolds(s: State, ids: set<OpId>, id: OpId)
    requires Holding(s, id) && !LateDelete(s, PurgeDelete(ids), id)
    ensures Holding(Apply(s, PurgeDelete(ids)), id)
  {
    var t := Apply(s, PurgeDelete(ids));
    forall v | At(t, v) == Clear(id) ensures Over(t.db, id) {
      assert At(s, v) == Clear(id) && Over(s.db, id);
    }
  }

  /** Neither a new job nor a crash leaves its worker about to clear. */
  lemma PlaceHolds(s: State, w: nat, pc: Pc, id: OpId)
    requires Holding(s, id) && !pc.Clear?
    ensures Holding(s.(pcs := s.pcs[w := pc]), id)
  {
    var t := s.(pcs := s.pcs[w := pc]);
    forall v | At(t, v) == Clear(id) ensures Over(t.db, id) {
      assert v != w && At(s, v) == Clear(id);
    }
  }

  lemma EventHolds(s: State, e: Event, id: OpId)
    requires ValidRows(s.db.rows) && Holding(s, id) && !LateDelete(s, e, id)
    ensures Holding(Apply(s, e), id)
  {
    match e
    case Take(w, job) => PlaceHolds(s, w, Entry(job), id);
    case Step(w, env) => StepHolds(s, w, env, id);
    case Crash(w) => PlaceHolds(s, w, Idle, id);
    case PurgeSelect(ids) =>
      assert forall v :: At(Apply(s, e), v) == At(s, v);
    case PurgeDelete(ids) => PurgeHolds(s, ids, id);
  }

  /** A percept is lost only where its completed row was deleted before the clearing. */
  lemma {:induction false} LostOnlyLate(policy: RetryPolicy, es: seq<Event>, id: OpId)
    requires !DeletesLate(policy, es, id)
    ensures Holding(Run(Init(policy), es), id)
  {
    if es != [] {
      var before, e := es[..|es| - 1], es[|es| - 1];
      assert forall n | 0 <= n < |before| :: before[..n] == es[..n] && before[n] == es[n];
      LostOnlyLate(policy, before, id);
      RunKeeps(policy, before);
      NamesOf(Run(Init(policy), before).db);
      hide Apply, Inv, ValidRows, Holding;
      assert !LateDelete(Run(Init(policy), es[..|es| - 1]), es[|es| - 1], id);
      EventHolds(Run(Init(policy), before), e, id);
    }
  }

  /** An id some percept can be reserved under. */
  predicate Reservable(id: OpId) {
    id.kind == Percept && NonBlank(id.key) && IsSha256Hex(id.hash)
  }

  lemma OnlyReservable(policy: RetryPolicy, es: seq<Event>, id: OpId)
    requires IsPercept(Run(Init(policy), es).db.rows, id)
    ensures Reservable(id)
  {
    RunKeeps(policy, es);
    NamesOf(Run(Init(policy), es).db);
    hide Run, Inv, ValidRows, NamedRows, Reservable;
    ReservableRow(Run(Init(policy), es).db.rows, id);
  }

  lemma ReservableRow(rows: Rows, id: OpId)
    requires ValidRows(rows) && NamedRows(rows) && IsPercept(rows, id)
    ensures Reservable(id)
  {
    var op := rows[id];
    assert ValidOperation(op);
    assert NonBlank(op.key) && IsSha256Hex(op.requestHash);
    hide NonBlank, IsSha256Hex, ValidOperation;
    assert id == StableId(op.kind, op.key, op.requestHash);
  }

  /** The percept `id` is never lost, in runs with or without late deletions. */
  ghost predicate NeverLoses(policy: RetryPolicy, id: OpId, late: bool) {
    forall es | late || !DeletesLate(policy, es, id) :: !Lost(Run(Init(policy), es), id)
  }

  /** Late deletions are exactly what can lose a percept. */
  lemma NeverLosesIff(policy: RetryPolicy, id: OpId, late: bool)
    ensures NeverLoses(policy, id, late) <==> !late || !Reservable(id)
  {
    if !late || !Reservable(id) {
      forall es | late || !DeletesLate(policy, es, id) ensures !Lost(Run(Init(policy), es), id) {
        if !late {
          LostOnlyLate(policy, es, id);
        } else if Lost(Run(Init(policy), es), id) {
          OnlyReservable(policy, es, id);
        }
      }
    } else {
      LateClearLoses(policy, Envelope(id.key, 0.0, ""), id.hash);
      assert id == StableId(Percept, id.key, id.hash);
    }
  }
}
