/**
  The promises of percept delivery, each over every run of the protocol.
*/
module PerceptTheorems {
  import opened Basics
  import opened ReliabilityContract
  import opened OperationStore
  import opened Budget
  import opened PerceptProtocol
  import opened PerceptSafety

  // ------------------------------------------------- nothing lost or altered

  /**
    A percept whose row was never purged and is not completed still has its
    envelope in the outbox, and it is the first one reserved for it.
  */
  lemma NoPerceptIsLost(policy: RetryPolicy, es: seq<Event>, id: OpId)
    requires var db := Run(Init(policy), es).db;
             IsPercept(db.rows, id) && id !in db.purged && db.rows[id].state != Completed
    ensures var db := Run(Init(policy), es).db;
            id in db.outbox && id in db.first && db.outbox[id].event == db.first[id]
  {
    RunKeeps(policy, es);
  }

  /** Later steps never replace the first envelope. */
  lemma FirstEnvelopeStays(policy: RetryPolicy, es: seq<Event>, e: Event, id: OpId)
    requires id in Run(Init(policy), es).db.first
    ensures var s := Run(Init(policy), es);
            id in Apply(s, e).db.first && Apply(s, e).db.first[id] == s.db.first[id]
  {
    RunKeeps(policy, es);
    ApplyKeeps(Run(Init(policy), es), e);
    hide Inv;
  }

  /** What a worker is about to send is that first envelope. */
  lemma SendsTheFirstEnvelope(policy: RetryPolicy, es: seq<Event>, w: nat)
    requires At(Run(Init(policy), es), w).Send?
    ensures var s := Run(Init(policy), es);
            var id := At(s, w).id;
            && At(s, w).event.key == id.key
            && (id !in s.db.purged ==> id in s.db.first && At(s, w).event == s.db.first[id])
  {
    RunKeeps(policy, es);
    IdleKnows(Run(Init(policy), es), w);
  }

  /** COMPLETED means the Runtime answered ok for that key. */
  lemma CompletedIsAcknowledged(policy: RetryPolicy, es: seq<Event>, id: OpId)
    requires IsPercept(Run(Init(policy), es).db.rows, id)
    requires Run(Init(policy), es).db.rows[id].state == Completed
    ensures Run(Init(policy), es).db.rows[id].key in Run(Init(policy), es).db.acked
  {
    RunKeeps(policy, es);
  }

  /**
    reserve_percept can only find a missing payload on a row whose id
    maintenance has deleted before.
  */
  lemma PayloadMissingMeansPurged(policy: RetryPolicy, es: seq<Event>, op: Operation, event: Envelope)
    requires var db := Run(Init(policy), es).db;
             ReservedPercept(db.rows, db.outbox, op, event) == Err(Corruption)
    ensures var db := Run(Init(policy), es).db;
            HasKey(db.rows, Percept, op.key) && IdOf(db.rows, Percept, op.key) in db.purged
  {
    RunKeeps(policy, es);
    var db := Run(Init(policy), es).db;
    hide Run, ValidOperation;
    var id := IdOf(db.rows, Percept, op.key);
    assert IsPercept(db.rows, id) && RowOk(db, id);
  }

  /** A worker that finds no payload to send lost it to a completion or a purge. */
  lemma NothingToLoad(policy: RetryPolicy, es: seq<Event>, id: OpId)
    requires var db := Run(Init(policy), es).db;
             IsPercept(db.rows, id) && LoadNext(db, id).Fail?
    ensures var db := Run(Init(policy), es).db;
            db.rows[id].state == Completed || id in db.purged
  {
    RunKeeps(policy, es);
  }

  // ---------------------------------------------------------------- attempts

  /**
    EXHAUSTED means the attempts are used up, or the policy grants no retry, on
    every row never purged.
  */
  lemma ExhaustedIsSpent(policy: RetryPolicy, es: seq<Event>, id: OpId)
    requires var db := Run(Init(policy), es).db;
             IsPercept(db.rows, id) && id !in db.purged && db.rows[id].state == Exhausted
    ensures Run(Init(policy), es).db.rows[id].attempt >= policy.maxAttempts || !policy.retryAfterFailedSafe
  {
    RunKeeps(policy, es);
  }

  predicate Permit(pc: Pc, id: OpId) {
    pc.ScheduleCommit? && pc.id == id
  }

  /** The workers that have decided to schedule another attempt of `id`. */
  ghost function Holders(s: State, id: OpId): set<nat> {
    set w | w in s.pcs && Permit(s.pcs[w], id)
  }

  ghost predicate Crew(s: State, workers: nat) {
    forall w | w in s.pcs :: w < workers
  }

  ghost predicate RowInBudget(s: State, workers: nat, id: OpId) {
    Within(RowAt(s.db.rows, id), |Holders(s, id)|, workers, Allowance(s.db.policy))
  }

  ghost predicate InBudget(s: State, workers: nat) {
    Crew(s, workers) && forall id :: RowInBudget(s, workers, id)
  }

  lemma CommitMoves(db: Db, id: OpId, cmd: Command, now: real, next: Pc, row: OpId, held: bool)
    requires cmd.ScheduleRetry? && id == row ==> held
    requires !Permit(next, row)
    ensures var o := Commit(db, id, cmd, now, next);
            && Move(RowAt(db.rows, row), held, RowAt(o.db.rows, row), Permit(o.pc, row), Allowance(db.policy))
            && !Permit(o.pc, row)
  {
    if id == row && Transact(db.rows, id, cmd, now).Ok? {
      CommandPromises(db.rows[id], cmd, now);
    }
    hide Transact;
  }

  lemma ReserveMoves(db: Db, event: Envelope, hash: string, now: real, row: OpId)
    requires ValidRows(db.rows)
    ensures var o := ReserveStep(db, event, hash, now);
            Move(RowAt(db.rows, row), false, RowAt(o.db.rows, row), Permit(o.pc, row), Allowance(db.policy))
  {
    var op := InitialPercept(event, hash, now);
    ReserveKeepsRows(db.rows, op);
    if ReservedPercept(db.rows, db.outbox, op, event).Ok? {
      var r := Reserved(db.rows, op).value;
      assert r == op ==> r.attempt == 0;
    }
    hide ReservedPercept, OutboxAfterReserve, ValidRows, HasKey;
  }

  /** Every step of one worker is one of the moves the budget allows. */
  lemma PerformMoves(db: Db, pc: Pc, env: Env, row: OpId)
    requires DbOk(db) && Knows(db, pc)
    ensures var o := Perform(db, pc, env);
            Move(RowAt(db.rows, row), Permit(pc, row), RowAt(o.db.rows, row), Permit(o.pc, row), Allowance(db.policy))
  {
    NamesOf(db);
    hide DbOk, Knows, Commit, ValidRows, NamedRows, AttemptNext, FailNext, LoadNext, DueNext, BeginNext;
    var held := Permit(pc, row);
    match pc
    case Reserve(event, hash) => ReserveMoves(db, event, hash, env.now, row);
    case Release(id, thenBegin) =>
      CommitMoves(db, id, MakeRetryReady, env.now, if thenBegin then BeginRead(id) else Idle, row, held);
    case BeginCommit(id) => CommitMoves(db, id, StartAttempt, env.now, Load(id), row, held);
    case Complete(id) => CommitMoves(db, id, MarkCompleted, env.now, Clear(id), row, held);
    case FailCommit(id, code) => CommitMoves(db, id, MarkFailedSafe(Some(code)), env.now, Schedule(id), row, held);
    case ScheduleCommit(id, at) => CommitMoves(db, id, ScheduleRetry(at), env.now, Done(false), row, held);
    case ExhaustCommit(id) => CommitMoves(db, id, MarkExhausted, env.now, Done(false), row, held);
    case Schedule(id) =>
      if ScheduleNext(db, id, env.now, env.unit).ScheduleCommit? {
        WaitMeansAttemptsLeft(db.policy, db.rows[id], env.now, env.unit);
      }
    case _ => ReadsKeepRows(db, pc, env, row);
  }

  lemma ReadsKeepRows(db: Db, pc: Pc, env: Env, row: OpId)
    requires pc.Idle? || pc.Attempt? || pc.CheckDue? || pc.BeginRead? || pc.Load? || pc.Send? || pc.Clear?
             || pc.Fail? || pc.Done? || pc.Raised?
    ensures Perform(db, pc, env).db.rows == db.rows && !Permit(Perform(db, pc, env).pc, row)
  {
  }

  lemma RowBudgetStays(s: State, e: Event, workers: nat, id: OpId)
    requires Inv(s) && Crew(s, workers) && RowInBudget(s, workers, id)
    requires workers >= 1 && ValidPolicy(s.db.policy) && ByWorkers([e], workers)
    ensures Crew(Apply(s, e), workers) && RowInBudget(Apply(s, e), workers, id)
  {
    var t := Apply(s, e);
    ByWorkersMeans(s, e, workers);
    HoldersFit(Holders(t, id), workers);
    EventMoves(s, e, id);
    var w := Actor(e);
    hide Within, Inv, Apply, Move, Permit, RowAt;
    HoldersChange(Holders(s, id), Holders(t, id), w);
    MoveKeepsBudget(RowAt(s.db.rows, id), w in Holders(s, id), RowAt(t.db.rows, id), w in Holders(t, id),
                    |Holders(s, id)|, |Holders(t, id)|, workers, Allowance(s.db.policy));
  }

  lemma BudgetStays(s: State, e: Event, workers: nat)
    requires Inv(s) && InBudget(s, workers) && workers >= 1 && ValidPolicy(s.db.policy)
    requires ByWorkers([e], workers)
    ensures InBudget(Apply(s, e), workers)
  {
    hide Inv, Apply, Crew, RowInBudget, ByWorkers;
    forall id ensures Crew(Apply(s, e), workers) && RowInBudget(Apply(s, e), workers, id) {
      RowBudgetStays(s, e, workers, id);
    }
    RowBudgetStays(s, e, workers, StableId(Percept, "", ""));
  }

  /** The worker whose permits an event can change. */
  function Actor(e: Event): nat {
    match e
    case Take(w, _) => w
    case Step(w, _) => w
    case Crash(w) => w
    case PurgeSelect(_) => 0
    case PurgeDelete(_) => 0
  }

  lemma ByWorkersMeans(s: State, e: Event, workers: nat)
    requires (forall w | w in s.pcs :: w < workers) && ByWorkers([e], workers)
    ensures forall w | w in Apply(s, e).pcs :: w < workers
  {
    assert e in [e];
    hide Perform;
  }

  lemma EventMoves(s: State, e: Event, id: OpId)
    requires Inv(s)
    ensures var t := Apply(s, e);
            var w := Actor(e);
            && (forall v | v != w :: v in Holders(s, id) <==> v in Holders(t, id))
            && Move(RowAt(s.db.rows, id), w in Holders(s, id), RowAt(t.db.rows, id), w in Holders(t, id),
                    Allowance(s.db.policy))
            && t.db.policy == s.db.policy
  {
    ApplyKeeps(s, e);
    IdleKnows(s, Actor(e));
    if e.Step? {
      PerformMoves(s.db, At(s, e.w), e.env, id);
    }
    hide Perform, DbOk, Knows;
  }

  lemma {:induction false} RunInBudget(policy: RetryPolicy, workers: nat, es: seq<Event>)
    requires ValidPolicy(policy) && workers >= 1 && ByWorkers(es, workers)
    ensures InBudget(Run(Init(policy), es), workers)
  {
    if es == [] {
      forall id ensures RowInBudget(Init(policy), workers, id) {
        assert Holders(Init(policy), id) == {};
      }
    } else {
      var before := es[..|es| - 1];
      assert es[|es| - 1] in es && forall e | e in before :: e in es;
      RunInBudget(policy, workers, before);
      RunKeeps(policy, before);
      BudgetStays(Run(Init(policy), before), es[|es| - 1], workers);
    }
  }

  /**
    With `workers` workers no percept is attempted more than
    max_attempts + workers - 1 times, however their schedulers race.
  */
  lemma AttemptsAreBounded(policy: RetryPolicy, workers: nat, es: seq<Event>, id: OpId)
    requires ValidPolicy(policy) && workers >= 1 && ByWorkers(es, workers)
    requires id in Run(Init(policy), es).db.rows
    ensures Run(Init(policy), es).db.rows[id].attempt <= Cap(Allowance(policy), workers) <= policy.maxAttempts + workers - 1
  {
    RunInBudget(policy, workers, es);
    RunKeeps(policy, es);
    var s := Run(Init(policy), es);
    hide Run, Inv, Holders;
    assert RowInBudget(s, workers, id);
    BudgetBoundsAttempts(s.db.rows[id], |Holders(s, id)|, workers, Allowance(policy));
  }
}
