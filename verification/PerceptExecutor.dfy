/**
  Percept delivery in its own, imperative form. Every method leaves the tables
  as some run of the step system does, so the promises made about those runs
  hold of it; and working alone it never raises.
  (src/hermes_life_bridge/percept_delivery.py)
*/
module PerceptExecutor {
  import opened Basics
  import opened ReliabilityContract
  import opened SqlOrder
  import opened OperationStore
  import opened Backoff
  import opened Budget
  import opened RetryEngine
  import opened PerceptAnswers
  import P = PerceptProtocol

  // -------------------------------------------------------- solo execution

  /** One worker's program alone, from its place `pc`. */
  ghost function Solo(db: P.Db, pc: P.Pc, envs: seq<P.Env>): P.Outcome {
    if envs == [] then P.Outcome(db, pc)
    else
      var o := Solo(db, pc, envs[..|envs| - 1]);
      P.Perform(o.db, o.pc, envs[|envs| - 1])
  }

  lemma SoloStep(db: P.Db, pc: P.Pc, envs: seq<P.Env>, env: P.Env)
    ensures var o := Solo(db, pc, envs);
            Solo(db, pc, envs + [env]) == P.Perform(o.db, o.pc, env)
  {
    assert (envs + [env])[..|envs|] == envs;
  }

  /** Some run of one worker, with no purge, leads from the tables `a` to `b`. */
  ghost predicate Replays(a: P.Db, b: P.Db) {
    exists es :: Leads(a, es, b)
  }

  ghost predicate Leads(a: P.Db, es: seq<P.Event>, b: P.Db) {
    && (forall e | e in es :: e.Take? || e.Step?)
    && var s := P.Run(P.State(a, map[]), es);
       s.db == b && P.Free(P.At(s, 0))
  }

  lemma ReplaysSelf(a: P.Db)
    ensures Replays(a, a)
  {
    assert Leads(a, [], a);
  }

  lemma {:induction false} RunSplits(s: P.State, a: seq<P.Event>, b: seq<P.Event>)
    ensures P.Run(s, a + b) == P.Run(P.Run(s, a), b)
  {
    hide P.Apply;
    if b == [] {
      assert a + b == a;
    } else {
      RunSplits(s, a, b[..|b| - 1]);
      assert (a + b)[..|a + b| - 1] == a + b[..|b| - 1];
    }
  }

  /** The run of worker 0 that takes a job and then steps through `envs`. */
  function JobRun(job: P.Job, envs: seq<P.Env>): seq<P.Event> {
    [P.Take(0, job)] + seq(|envs|, i requires 0 <= i < |envs| => P.Step(0, envs[i]))
  }

  lemma {:induction false} JobRunIsSolo(s: P.State, job: P.Job, envs: seq<P.Env>)
    requires P.Free(P.At(s, 0)) && P.PerceptJob(job)
    ensures var t := P.Run(s, JobRun(job, envs));
            var o := Solo(s.db, P.Entry(job), envs);
            t.db == o.db && P.At(t, 0) == o.pc
  {
    var es := JobRun(job, envs);
    if envs == [] {
      assert es[..|es| - 1] == [];
    } else {
      assert es[..|es| - 1] == JobRun(job, envs[..|envs| - 1]);
      hide P.Perform;
      JobRunIsSolo(s, job, envs[..|envs| - 1]);
    }
  }

  /** A finished job extends a run. */
  lemma ReplaysJob(a: P.Db, b: P.Db, job: P.Job, envs: seq<P.Env>)
    requires Replays(a, b) && P.PerceptJob(job) && P.Free(Solo(b, P.Entry(job), envs).pc)
    ensures Replays(a, Solo(b, P.Entry(job), envs).db)
  {
    var es :| Leads(a, es, b);
    var s := P.Run(P.State(a, map[]), es);
    var more := JobRun(job, envs);
    hide P.Run, Solo, P.Entry, P.Free;
    JobRunIsSolo(s, job, envs);
    RunSplits(P.State(a, map[]), es, more);
    assert forall e: P.Event | e in es + more :: e.Take? || e.Step?;
    assert Leads(a, es + more, Solo(b, P.Entry(job), envs).db);
  }

  // -------------------------------------------------------------- the class

  datatype Counters = Counters(attempted: nat, completed: nat, deferred: nat, exhausted: nat, outboxRemaining: nat)

  ghost predicate OnlyPercepts(outbox: Outbox) {
    forall id | id in outbox :: id.kind == Percept
  }

  lemma OnlyRowThen(a: Rows, b: Rows, c: Rows, id: OpId)
    requires OnlyRow(a, b, id) && OnlyRow(b, c, id)
    ensures OnlyRow(a, c, id)
  {
  }

  lemma OnlyRowSelf(a: Rows, id: OpId)
    ensures OnlyRow(a, a, id)
  {
  }

  lemma OnlyRowSet(a: Rows, id: OpId, op: Operation)
    requires id in a
    ensures OnlyRow(a, a[id := op], id)
  {
  }

  /** The state in which a delivery that was tried leaves its row. */
  function Leaves(r: RuntimeReceipt): OperationState {
    if r.ok then Completed else if r.error == EXHAUSTED then Exhausted else RetryWait
  }

  class PerceptReliabilityExecutor {
    const store: Store
    const retry: RetryEngine
    /** Clock readings and Runtime answers, in order. */
    const world: nat -> Input
    var tick: nat
    /** History: the first envelope under each id, and the acknowledged keys. */
    ghost var first: map<OpId, Envelope>
    ghost var acked: set<string>
    /** Every call of the Runtime so far. */
    ghost var sends: seq<Sending>
    /** The job under way: where it began, the steps so far, and where it is. */
    ghost var start: P.Outcome
    ghost var trail: seq<P.Env>
    ghost var place: P.Pc

    ghost predicate Valid()
      reads this, store
    {
      && retry.store == store && retry.Valid() && NamedRows(store.rows) && OnlyPercepts(store.outbox)
      && !retry.policies(Percept).reconcileBeforeRetry
    }

    constructor (store: Store, retry: RetryEngine, world: nat -> Input)
      requires retry.store == store && retry.Valid() && NamedRows(store.rows) && OnlyPercepts(store.outbox)
      requires !retry.policies(Percept).reconcileBeforeRetry
      ensures Valid() && this.store == store && this.retry == retry && this.world == world
      ensures tick == 0 && sends == []
    {
      this.store, this.retry, this.world := store, retry, world;
      tick, first, acked, sends := 0, map[], {}, [];
    }

    ghost function Tables(): P.Db
      reads this, store, retry
    {
      P.Db(retry.policies(Percept), store.rows, store.outbox, {}, first, acked, {})
    }

    ghost function Setup(): Setting {
      Setting(store.rank, retry.policies(Percept), retry.unit, world)
    }

    ghost function Seen(): View
      reads this, store
    {
      View(store.rows, store.outbox, acked, sends)
    }

    ghost predicate OnTrack()
      reads this, store, retry
    {
      Valid() && Solo(start.db, start.pc, trail) == P.Outcome(Tables(), place)
    }

    ghost method Begin(pc: P.Pc)
      requires Valid()
      modifies this`start, this`trail, this`place
      ensures OnTrack() && place == pc && start == P.Outcome(Tables(), pc)
    {
      start, trail, place := P.Outcome(Tables(), pc), [], pc;
    }

    /** A step of the worker, from the tables `before` to the tables `after`. */
    ghost method Went(before: P.Db, env: P.Env, after: P.Db, next: P.Pc)
      requires Solo(start.db, start.pc, trail) == P.Outcome(before, place)
      requires P.Perform(before, place, env) == P.Outcome(after, next)
      modifies this`trail, this`place
      ensures Solo(start.db, start.pc, trail) == P.Outcome(after, next) && place == next
    {
      hide P.Perform;
      SoloStep(start.db, start.pc, trail, env);
      trail, place := trail + [env], next;
    }

    // ---------------------------------------------------------- one attempt

    /** A percept row the worker can move on. */
    ghost predicate Holds(id: OpId, state: OperationState)
      reads store
    {
      id in store.rows && store.rows[id].kind == Percept && store.rows[id].state == state
    }

    /** One command on the operation store, known to go through. */
    method Command(id: OpId, cmd: Command, now: real, ghost next: P.Pc) returns (op: Operation)
      requires OnTrack() && id in store.rows && Advance(store.rows[id], cmd, now).Ok?
      requires P.Perform(Tables(), place, EnvAt(now))
            == P.Outcome(Tables().(rows := store.rows[id := Advance(store.rows[id], cmd, now).value]), next)
      modifies this`trail, this`place, store`rows, store`journal
      ensures OnTrack() && place == next && op == Advance(old(store.rows)[id], cmd, now).value
      ensures store.rows == old(store.rows)[id := op]
    {
      hide P.Perform, Solo, GoodRegistry, Advance, ValidRows, InitialOperation, NamedRows;
      ghost var before := Tables();
      KeepsNames(store.rows, id, cmd, now);
      var r := store.Transition(id, cmd, now);
      op := r.value;
      Went(before, EnvAt(now), Tables(), next);
    }

    /** A read: nothing changes but the worker's place. */
    ghost method Read(env: P.Env, next: P.Pc)
      requires OnTrack() && P.Perform(Tables(), place, env) == P.Outcome(Tables(), next)
      modifies this`trail, this`place
      ensures OnTrack() && place == next
    {
      hide P.Perform;
      Went(Tables(), env, Tables(), next);
    }

    /** schedule_failed_safe on the worker's own failed row. */
    method Schedule(id: OpId, now: real) returns (r: RuntimeReceipt)
      requires OnTrack() && place == P.Schedule(id) && Holds(id, FailedSafe)
      modifies this`trail, this`place, store`rows, store`journal
      ensures OnTrack() && place == P.Done(false) && OnlyRow(old(store.rows), store.rows, id) && id in store.rows
      ensures Deferred(Setup(), old(store.rows)[id], now, store.rows[id], r)
    {
      hide P.Perform, Solo, Explains, GoodRegistry, ScheduleOn, ValidRows, InitialOperation, NamedRows, Deferred;
      ghost var before := Tables();
      ghost var env := P.Env(now, retry.unit(store.rows[id]), P.AckOk, true);
      retry.RowWasAttempted(id);
      PolicyIsValid();
      ScheduleSteps(before, id, env);
      ScheduleDefers(Setup(), before.rows, id, now);
      var result := retry.ScheduleFailedSafe(id, now, None);
      Went(before, env, before, P.ScheduleNext(before, id, env.now, env.unit));
      Went(before, env, Tables(), P.Done(false));
      r := RuntimeReceipt(false, if result.value.disposition == WasExhausted then EXHAUSTED else DEFERRED);
    }

    /** _schedule_failed: the failure and the schedule each take their own time. */
    method ScheduleFailed(id: OpId, code: string) returns (r: RuntimeReceipt)
      requires OnTrack() && place == P.Fail(id, code) && IsSafeToken(code) && id.kind == Percept
      modifies this`tick, this`trail, this`place, store`rows, store`journal
      ensures OnTrack() && place == P.Done(false) && !r.ok && OnlyRow(old(store.rows), store.rows, id)
      ensures old(Holds(id, InFlight)) ==>
                && id in store.rows && tick == old(tick) + 2
                && Failed(Setup(), old(store.rows)[id], code, world(old(tick)).now, world(old(tick) + 1).now, store.rows[id], r)
      ensures old(Holds(id, FailedSafe)) ==>
                && id in store.rows && tick == old(tick) + 1
                && Deferred(Setup(), old(store.rows)[id], world(old(tick)).now, store.rows[id], r)
      ensures !old(Holds(id, InFlight) || Holds(id, FailedSafe)) ==>
                store.rows == old(store.rows) && tick == old(tick) && r == RuntimeReceipt(false, LostCause(RowAt(store.rows, id)))
    {
      hide P.Perform, Solo, Explains, GoodRegistry, ValidRows, InitialOperation, IsSafeToken, Deferred, Failed,
           NamedRows, OnlyRow;
      FailReads(Tables(), id, code, world(tick).now);
      var op := store.Get(id);
      if id in store.rows {
        KindOf(id);
      }
      if op.Some? && op.value.state == InFlight {
        r := FailInFlight(id, code);
      } else if op.Some? && op.value.state == FailedSafe {
        Read(EnvAt(world(tick).now), P.Schedule(id));
        r := Schedule(id, world(tick).now);
        DeferredIsNotOk(Setup(), op.value, world(tick).now, store.rows[id], r);
        tick := tick + 1;
      } else {
        Read(EnvAt(world(tick).now), P.Done(false));
        r := RuntimeReceipt(false, LostCause(op));
        OnlyRowSelf(store.rows, id);
      }
    }

    method FailInFlight(id: OpId, code: string) returns (r: RuntimeReceipt)
      requires OnTrack() && place == P.Fail(id, code) && IsSafeToken(code) && Holds(id, InFlight)
      modifies this`tick, this`trail, this`place, store`rows, store`journal
      ensures OnTrack() && place == P.Done(false) && !r.ok && OnlyRow(old(store.rows), store.rows, id)
      ensures id in store.rows && tick == old(tick) + 2
      ensures Failed(Setup(), old(store.rows)[id], code, world(old(tick)).now, world(old(tick) + 1).now, store.rows[id], r)
    {
      hide P.Perform, Solo, Explains, GoodRegistry, ValidRows, InitialOperation, IsSafeToken, Deferred, NamedRows,
           OnlyRow, Stamped;
      ghost var was, op := store.rows, store.rows[id];
      MarkFailed(id, code, world(tick).now);
      tick := tick + 1;
      ghost var failed := store.rows;
      OnlyRowSet(was, id, failed[id]);
      r := Schedule(id, world(tick).now);
      DeferredIsNotOk(Setup(), failed[id], world(tick).now, store.rows[id], r);
      OnlyRowThen(was, failed, store.rows, id);
      tick := tick + 1;
    }

    method MarkFailed(id: OpId, code: string, now: real)
      requires OnTrack() && place == P.Fail(id, code) && IsSafeToken(code) && Holds(id, InFlight)
      modifies this`trail, this`place, store`rows, store`journal
      ensures OnTrack() && place == P.Schedule(id) && Holds(id, FailedSafe)
      ensures store.rows == old(store.rows)[id := Stamped(old(store.rows)[id], FailedSafe, now, Some(code))]
    {
      hide P.Perform, Solo, Explains, GoodRegistry, ValidRows, InitialOperation, NamedRows, IsSafeToken, Advance;
      FailReads(Tables(), id, code, now);
      Read(EnvAt(now), P.FailCommit(id, code));
      retry.RowWasAttempted(id);
      FailGoes(store.rows[id], code, now);
      StampsRow(store.rows[id], MarkFailedSafe(Some(code)), now);
      FailCommits(Tables(), id, code, now);
      var _ := Command(id, MarkFailedSafe(Some(code)), now, P.Schedule(id));
    }

    /** begin_attempt on a prepared percept. */
    method BeginAttempt(id: OpId, now: real)
      requires OnTrack() && place == P.BeginRead(id) && Holds(id, Prepared)
      modifies this`trail, this`place, store`rows, store`journal
      ensures OnTrack() && place == P.Load(id) && Holds(id, InFlight)
      ensures store.rows == old(store.rows)[id := StartedRow(old(store.rows)[id], now)]
    {
      hide P.Perform, Solo, Explains, GoodRegistry, BeginOn, OnlyRow, ValidRows, InitialOperation, NamedRows;
      ghost var before := Tables();
      retry.RowWasAttempted(id);
      BeginSteps(before, id, now);
      BeginStamps(before.rows, id, before.policy, now);
      var _ := retry.BeginAttempt(id, now, None);
      Went(before, EnvAt(now), before, P.BeginCommit(id));
      Went(before, EnvAt(now), Tables(), P.Load(id));
    }

    /** Load the envelope, send it, and record what the Runtime made of it. */
    method Deliver(id: OpId, ghost op: Operation, ghost t: nat) returns (r: RuntimeReceipt)
      requires OnTrack() && place == P.Load(id) && Holds(id, InFlight)
      requires tick == t + 1 && store.rows[id] == StartedRow(op, world(t).now)
      modifies this`tick, this`trail, this`place, this`acked, this`sends, store
      ensures OnTrack() && place == P.Done(r.ok) && tick > old(tick)
      ensures Tried(Setup(), old(Seen()), Seen(), id, op, t, r)
    {
      hide P.Perform, Solo, Explains, GoodRegistry, ValidRows, InitialOperation, NamedRows, IsSafeToken, Advance,
           OnlyRow, Failed, Stamped, StartedRow, Tried;
      ghost var a := Seen();
      SafeTokens();
      LoadReads(Tables(), id, EnvAt(0.0));
      KindOf(id);
      var event := store.GetPerceptEvent(id);
      if event.None? {
        Read(EnvAt(0.0), P.Fail(id, "percept_outbox_payload_missing"));
        r := ScheduleFailed(id, "percept_outbox_payload_missing");
        NothingSent(Setup(), a, Seen(), id, op, t, r);
        return;
      }
      Read(EnvAt(0.0), P.Send(id, event.value));
      r := Send(id, event.value, op, t);
    }

    /** Send the envelope; only an ok completes the percept. */
    method Send(id: OpId, event: Envelope, ghost op: Operation, ghost t: nat) returns (r: RuntimeReceipt)
      requires OnTrack() && place == P.Send(id, event) && Holds(id, InFlight)
      requires id in store.outbox && store.outbox[id].event == event && id.kind == Percept
      requires tick == t + 1 && store.rows[id] == StartedRow(op, world(t).now)
      modifies this`tick, this`trail, this`place, this`acked, this`sends, store
      ensures OnTrack() && place == P.Done(r.ok) && tick > old(tick)
      ensures Tried(Setup(), old(Seen()), Seen(), id, op, t, r)
    {
      hide P.Perform, Solo, Explains, GoodRegistry, ValidRows, InitialOperation, NamedRows, IsSafeToken, Advance,
           OnlyRow, Failed, Stamped, StartedRow, Tried;
      ghost var a := Seen();
      SafeTokens();
      var reply := CallRuntime(id, event);
      if reply == P.AckOk {
        Finish(id);
        r := RuntimeReceipt(true, "");
        Acked(Setup(), a, Seen(), id, op, t);
      } else {
        var code := if reply == P.AckNotOk then "runtime_ack_not_ok" else "runtime_transport_exception";
        r := ScheduleFailed(id, code);
        NotAcked(Setup(), a, Seen(), id, op, t, code, r);
      }
    }

    method CallRuntime(id: OpId, event: Envelope) returns (reply: P.Reply)
      requires OnTrack() && place == P.Send(id, event)
      modifies this`tick, this`trail, this`place, this`acked, this`sends
      ensures OnTrack()
      ensures place == match reply
                       case AckOk => P.Complete(id)
                       case AckNotOk => P.Fail(id, "runtime_ack_not_ok")
                       case TransportError => P.Fail(id, "runtime_transport_exception")
      ensures acked == old(acked) + (if reply == P.AckOk then {event.key} else {})
      ensures reply == world(old(tick)).reply && tick == old(tick) + 1
      ensures sends == old(sends) + [Sending(old(tick), id, event)]
    {
      hide P.Perform, Solo, Explains, GoodRegistry, ValidRows, InitialOperation, NamedRows;
      ghost var before, env := Tables(), P.Env(0.0, 0.0, world(tick).reply, true);
      SendSteps(before, id, event, env);
      reply := world(tick).reply;
      sends := sends + [Sending(tick, id, event)];
      tick := tick + 1;
      if reply == P.AckOk {
        acked := acked + {event.key};
      }
      Went(before, env, Tables(), P.SendStep(before, id, event, reply).pc);
    }

    /** Completion first, then the envelope leaves the outbox. */
    method Finish(id: OpId)
      requires OnTrack() && place == P.Complete(id) && Holds(id, InFlight)
      modifies this`tick, this`trail, this`place, store
      ensures OnTrack() && place == P.Done(true) && tick == old(tick) + 1
      ensures store.rows == old(store.rows)[id := Stamped(old(store.rows)[id], Completed, world(old(tick)).now, None)]
      ensures store.outbox == old(store.outbox) - {id}
    {
      hide P.Perform, Solo, Explains, GoodRegistry, ValidRows, InitialOperation, NamedRows, Advance, OnlyRow;
      var now := world(tick).now;
      tick := tick + 1;
      retry.RowWasAttempted(id);
      FinishSteps(Tables(), id, now);
      StampsRow(store.rows[id], MarkCompleted, now);
      var _ := Command(id, MarkCompleted, now, P.Clear(id));
      ClearEvent(id);
    }

    method ClearEvent(id: OpId)
      requires OnTrack() && place == P.Clear(id)
      modifies this`trail, this`place, store`outbox
      ensures OnTrack() && place == P.Done(true)
      ensures store.outbox == old(store.outbox) - {id}
    {
      hide P.Perform, Solo, Explains, GoodRegistry, ValidRows, InitialOperation, NamedRows, Replay;
      ghost var before := Tables();
      ClearSteps(before, id, 0.0);
      store.ClearPerceptEvent(id);
      Went(before, EnvAt(0.0), Tables(), P.Done(true));
    }

    /** attempt */
    method Attempt(id: OpId) returns (r: RuntimeReceipt)
      requires OnTrack() && place == P.Attempt(id)
      modifies this`tick, this`trail, this`place, this`acked, this`sends, store
      ensures OnTrack() && place == P.Done(r.ok) && tick >= old(tick)
      ensures AttemptAnswer(Setup(), old(Seen()), Seen(), id, old(tick), r)
      ensures old(Holds(id, Prepared)) ==> tick > old(tick) + 1
    {
      hide P.Perform, Solo, Explains, GoodRegistry, ValidRows, InitialOperation, NamedRows, Advance, OnlyRow, Tried,
           Deferred, FirstDue, Stamped, OnTrack, Valid;
      AttemptReads(Tables(), id);
      var op := store.Get(id);
      var settled := AlreadySettled(op);
      if settled.Some? {
        Read(EnvAt(0.0), P.Done(settled.value.ok));
        return settled.value;
      }
      r := AttemptOpen(id, op.value);
    }

    /** An attempt on a percept that is failed, waiting or prepared. */
    method AttemptOpen(id: OpId, op: Operation) returns (r: RuntimeReceipt)
      requires OnTrack() && place == P.Attempt(id) && id in store.rows && store.rows[id] == op
      requires op.kind == Percept && op.state in {FailedSafe, RetryWait, Prepared}
      modifies this`tick, this`trail, this`place, this`acked, this`sends, store
      ensures OnTrack() && place == P.Done(r.ok) && tick >= old(tick)
      ensures AttemptAnswer(Setup(), old(Seen()), Seen(), id, old(tick), r)
      ensures op.state == Prepared ==> tick > old(tick) + 1
    {
      hide P.Perform, Solo, Explains, GoodRegistry, ValidRows, InitialOperation, NamedRows, IsSafeToken, Advance,
           OnlyRow, Tried, Deferred, FirstDue, Stamped;
      AttemptReads(Tables(), id);
      KindsOf(id);
      SafeTokens();
      hide OnTrack, Valid;
      if op.state == FailedSafe {
        Read(EnvAt(0.0), P.Fail(id, "percept_failed_safe"));
        r := ScheduleFailed(id, "percept_failed_safe");
      } else if op.state == RetryWait {
        Read(EnvAt(0.0), P.CheckDue(id));
        r := AttemptWaiting(id);
      } else {
        Read(EnvAt(0.0), P.BeginRead(id));
        r := AttemptPrepared(id);
      }
    }

    method AttemptPrepared(id: OpId) returns (r: RuntimeReceipt)
      requires OnTrack() && place == P.BeginRead(id) && Holds(id, Prepared)
      modifies this`tick, this`trail, this`place, this`acked, this`sends, store
      ensures OnTrack() && place == P.Done(r.ok) && tick > old(tick) + 1
      ensures Tried(Setup(), old(Seen()), Seen(), id, old(store.rows)[id], old(tick), r)
    {
      hide P.Perform, Solo, Explains, GoodRegistry, ValidRows, InitialOperation, NamedRows, StartedRow, Tried;
      ghost var a := Seen();
      var now := world(tick).now;
      tick := tick + 1;
      BeginAttempt(id, now);
      ghost var m := Seen();
      r := Deliver(id, a.rows[id], tick - 1);
      TriedFrom(Setup(), a, m, Seen(), id, a.rows[id], old(tick), r);
    }

    /** A waiting percept is released only if it is among the due ones listed. */
    method AttemptWaiting(id: OpId) returns (r: RuntimeReceipt)
      requires OnTrack() && place == P.CheckDue(id) && Holds(id, RetryWait)
      modifies this`tick, this`trail, this`place, this`acked, this`sends, store
      ensures OnTrack() && place == P.Done(r.ok) && tick > old(tick)
      ensures var op := old(store.rows)[id];
              if old(FirstDue(store.rank, store.rows, Percept, world(tick).now, 100, id)) then
                Tried(Setup(), old(Seen()), Seen(), id, Stamped(op, Prepared, world(old(tick) + 1).now, None), old(tick) + 2, r)
              else Seen() == old(Seen()) && r == RuntimeReceipt(false, DEFERRED)
    {
      hide P.Perform, Solo, Explains, GoodRegistry, ValidRows, InitialOperation, NamedRows, Advance, OnlyRow, Tried,
           FirstDue;
      var listed := CheckDue(id, world(tick).now);
      tick := tick + 1;
      if !listed {
        return RuntimeReceipt(false, DEFERRED);
      }
      r := ReleaseAndTry(id);
    }

    method ReleaseAndTry(id: OpId) returns (r: RuntimeReceipt)
      requires OnTrack() && place == P.Release(id, true) && Holds(id, RetryWait)
      modifies this`tick, this`trail, this`place, this`acked, this`sends, store
      ensures OnTrack() && place == P.Done(r.ok) && tick > old(tick)
      ensures Tried(Setup(), old(Seen()), Seen(), id, Stamped(old(store.rows)[id], Prepared, world(old(tick)).now, None),
                    old(tick) + 1, r)
    {
      hide P.Perform, Solo, Explains, GoodRegistry, ValidRows, InitialOperation, NamedRows, Advance, OnlyRow, Tried,
           Stamped;
      ghost var a, t := Seen(), tick;
      var now := world(tick).now;
      tick := tick + 1;
      Release(id, now);
      ghost var m := Seen();
      r := AttemptPrepared(id);
      TriedFrom(Setup(), a, m, Seen(), id, m.rows[id], t + 1, r);
    }

    /** make_retry_ready */
    method Release(id: OpId, now: real)
      requires OnTrack() && place == P.Release(id, true) && Holds(id, RetryWait)
      modifies this`trail, this`place, store`rows, store`journal
      ensures OnTrack() && place == P.BeginRead(id) && Holds(id, Prepared)
      ensures store.rows == old(store.rows)[id := Stamped(old(store.rows)[id], Prepared, now, None)]
    {
      hide P.Perform, Solo, Explains, GoodRegistry, ValidRows, InitialOperation, NamedRows, Advance;
      retry.RowWasAttempted(id);
      ReleaseSteps(Tables(), id, now, true);
      StampsRow(store.rows[id], MakeRetryReady, now);
      var _ := Command(id, MakeRetryReady, now, P.BeginRead(id));
    }

    method CheckDue(id: OpId, now: real) returns (listed: bool)
      requires OnTrack() && place == P.CheckDue(id) && Holds(id, RetryWait)
      modifies this`trail, this`place
      ensures OnTrack() && place == if listed then P.Release(id, true) else P.Done(false)
      // listed among the first hundred due
      ensures listed <==> FirstDue(store.rank, store.rows, Percept, now, 100, id)
    {
      hide P.Perform, Solo, Explains, GoodRegistry, ValidRows, InitialOperation, NamedRows, Listing, DueAt, DueIds,
           FirstDue;
      var due := retry.DueOperations(now, Percept, 100);
      listed := id in due.value;
      ghost var env := P.Env(now, 0.0, P.AckOk, listed);
      ListedAreDue(store.rank, DueAt(store.rows), due.value, DueIds(store.rows, Percept, now), 100);
      DueReads(Tables(), id, env);
      Read(env, if listed then P.Release(id, true) else P.Done(false));
    }

    // --------------------------------------------------------- submit, pump

    /** submit */
    method Submit(event: Envelope, hash: string) returns (r: Result<RuntimeReceipt>)
      requires Valid()
      modifies this, store
      ensures OnTrack() && start == P.Outcome(old(Tables()), P.Reserve(event, hash))
      ensures place == match r case Ok(x) => P.Done(x.ok) case Err(e) => P.Raised(e)
      ensures SubmitAnswer(Setup(), old(Seen()), Seen(), event, hash, old(tick), r)
      // a new percept is sent at once, and answered ok exactly when the Runtime says so
      ensures var op := NewPercept(event, hash, world(old(tick)).now);
              IsNew(old(store.rows), op) ==>
                && r.Ok? && (r.value.ok <==> world(old(tick) + 2).reply == P.AckOk)
                && Tried(Setup(), old(Seen()).(rows := old(store.rows)[op.id := op],
                                               outbox := old(store.outbox)[op.id := OutboxEntry(event, event.observedAt)]),
                         Seen(), op.id, op, old(tick) + 1, r.value)
    {
      hide P.Perform, Solo, Explains, GoodRegistry, ValidRows, InitialOperation, NamedRows, IsNew, Tried,
           SubmitAnswer;
      ghost var before, t := Seen(), tick;
      r := ReserveAndAttempt(event, hash);
      NewSubmits(Setup(), before, Seen(), event, hash, t, r);
    }

    method ReserveAndAttempt(event: Envelope, hash: string) returns (r: Result<RuntimeReceipt>)
      requires Valid()
      modifies this, store
      ensures OnTrack() && start == P.Outcome(old(Tables()), P.Reserve(event, hash)) && ValidRows(old(store.rows))
      ensures place == match r case Ok(x) => P.Done(x.ok) case Err(e) => P.Raised(e)
      ensures SubmitAnswer(Setup(), old(Seen()), Seen(), event, hash, old(tick), r)
    {
      hide P.Perform, Solo, Explains, GoodRegistry, ValidRows, InitialOperation, NamedRows, ReservedPercept,
           OutboxAfterReserve, HasKey, AttemptAnswer, AfterReserve;
      Begin(P.Reserve(event, hash));
      var reserved := ReservePercept(event, hash);
      if reserved.Err? {
        return Err(reserved.error);
      }
      var receipt := Attempt(reserved.value.id);
      return Ok(receipt);
    }

    method ReservePercept(event: Envelope, hash: string) returns (r: Result<Operation>)
      requires OnTrack() && place == P.Reserve(event, hash)
      modifies this`tick, this`trail, this`place, this`first, store
      ensures OnTrack() && place == match r case Ok(op) => P.Attempt(op.id) case Err(e) => P.Raised(e)
      ensures tick == old(tick) + 1
      ensures var op := NewPercept(event, hash, world(old(tick)).now);
              && r == ReservedPercept(old(store.rows), old(store.outbox), op, event)
              && store.rows == (if r.Ok? then AfterReserve(old(store.rows), op) else old(store.rows))
              && store.outbox == (if r.Ok? then OutboxAfterReserve(old(store.rows), old(store.outbox), op, event) else old(store.outbox))
    {
      hide P.Perform, Solo, Explains, GoodRegistry, ValidRows, InitialOperation, NamedRows, ReservedPercept, HasKey,
           AfterReserve, OutboxAfterReserve, OnlyPercepts, Replay;
      ghost var before := Tables();
      var now := world(tick).now;
      tick := tick + 1;
      var op := P.InitialPercept(event, hash, now);
      ReserveSteps(before, event, hash, now);
      RefusalKeepsOutbox(before.rows, before.outbox, op, event);
      var created;
      r, created := store.ReservePercept(op, event);
      if created && op.id !in first {
        first := first[op.id := event];
      }
      Went(before, EnvAt(now), Tables(), match r case Ok(x) => P.Attempt(x.id) case Err(e) => P.Raised(e));
    }

    /**
      pump: recover, reschedule, release, then attempt the head of the outbox.
      `ph` is what the phases find and leave on the way.
    */
    method Pump(limit: int) returns (r: Result<Counters>, ghost ph: Phases)
      requires Valid()
      modifies this, store
      ensures Valid() && Replays(old(Tables()), Tables())
      ensures r == Err(InvalidValue) <==> !(1 <= limit <= 1000)
      ensures ph.recovered == Mapped(old(store.rows), InState(old(store.rows), Percept, InFlight),
                                     Resumed(retry.policies, None, world(old(tick)).now, retry.unit, PERCEPT_RESTART))
      // a bad limit is noticed only then
      ensures r.Err? ==> Seen() == old(Seen()).(rows := ph.recovered)
      ensures r.Ok? ==>
                && ReschedulesFailed(ph, store.rank, retry.policies, world(old(tick) + 1).now, retry.unit, limit)
                && ReleasesDue(ph, store.rank, retry.policies, world(old(tick) + 2).now, limit)
                && Delivers(ph, store.rank, old(store.outbox), store.rows, store.outbox, limit, r.value)
                && HeadSent(Setup(), ph.head, old(Seen()).(rows := ph.released), Seen(), old(tick) + 3, tick)
    {
      hide P.Perform, Solo, Explains, GoodRegistry, ValidRows, InitialOperation, NamedRows, Replays, FirstOf,
           HeadDelivered, Listing, Mapped, Resumed, Rescheduled, Released, InState, Created, DueAt, DueIds, HeadSent;
      ghost var before := Tables();
      ReplaysSelf(before);
      RecoverInterrupted(before);
      ph := Phases(store.rows, {}, store.rows, {}, store.rows, []);
      var rescheduled;
      ghost var chosen;
      rescheduled, chosen := Reschedule(before, limit);
      if !rescheduled {
        return Err(InvalidValue), ph;
      }
      ph := ph.(failed := chosen, rescheduled := store.rows);
      chosen := ReleaseDue(before, limit);
      ph := ph.(due := chosen, released := store.rows);
      var counters;
      ghost var head;
      counters, head := DeliverHead(before, limit);
      ph := ph.(head := head);
      return Ok(counters), ph;
    }

    /** The last phase: attempt what is prepared among the first `limit` of the outbox. */
    method DeliverHead(ghost first0: P.Db, limit: nat) returns (c: Counters, ghost ids: seq<OpId>)
      requires Valid() && Replays(first0, Tables())
      modifies this`tick, this`start, this`trail, this`place, this`acked, this`sends, store
      ensures Valid() && Replays(first0, Tables())
      ensures HeadSent(Setup(), ids, old(Seen()), Seen(), old(tick), tick)
      ensures Listing(store.rank, ReservedAt(old(store.outbox)), ids, old(store.outbox).Keys, limit)
      ensures HeadDelivered(ids, old(store.rows), store.rows, old(store.outbox), store.outbox, c)
    {
      hide P.Perform, Solo, Explains, GoodRegistry, ValidRows, InitialOperation, NamedRows, Replays, Listing, Tallied,
           Leaves, HeadDelivered, Tallying, OnlyPercepts, HeadSent;
      ghost var base, from := Seen(), tick;
      var head := ListHead(limit);
      ids := head;
      var completed, deferred, exhausted := 0, 0, 0;
      ghost var rows, outbox := store.rows, store.outbox;
      ghost var tally := Tally({}, {}, {});
      TallyNone(rows, outbox);
      HeadSentNone(Setup(), base, from, tick);
      assert head[..0] == [];
      for n := 0 to |head|
        invariant Valid() && Replays(first0, Tables())
        invariant Tallied(head[..n], rows, store.rows, outbox, store.outbox, tally)
        invariant HeadSent(Setup(), head[..n], base, Seen(), from, tick) && from <= tick
        invariant completed == |tally.completed| && deferred == |tally.deferred| && exhausted == |tally.exhausted|
      {
        NextTaken(head, n);
        var tried;
        ghost var was := tally;
        tried, tally := TryOne(first0, head[n], head[..n], base, from, was);
        if tried.Some? {
          TallyingCounts(was, head[n], tried.value);
          if tried.value.ok {
            completed := completed + 1;
          } else if tried.value.error == EXHAUSTED {
            exhausted := exhausted + 1;
          } else {
            deferred := deferred + 1;
          }
        }
      }
      assert head[..|head|] == head;
      var remaining := store.ListOutbox();
      c := Counters(completed + deferred + exhausted, completed, deferred, exhausted, |remaining|);
      TallyCounts(head, rows, store.rows, outbox, store.outbox, tally, c);
    }

    /** The first `limit` ids of the outbox. */
    method ListHead(limit: nat) returns (head: seq<OpId>)
      requires Valid()
      ensures Listing(store.rank, ReservedAt(store.outbox), head, store.outbox.Keys, limit)
      ensures forall i | 0 <= i < |head| :: head[i].kind == Percept && head[i] !in head[..i] && head[i] in store.outbox
    {
      hide Explains, GoodRegistry, ValidRows, InitialOperation, NamedRows, Listing, OnlyPercepts;
      var listed := store.ListOutbox();
      OutboxKinds(store.outbox);
      HeadIsListing(store.rank, ReservedAt(store.outbox), listed, store.outbox.Keys, limit);
      head := Take(listed, limit);
      assert forall i | 0 <= i < |head| :: head[i] in listed;
    }

    /** One turn of the loop: only a prepared operation is attempted. */
    method TryOne(ghost first0: P.Db, id: OpId, ghost seen: seq<OpId>, ghost base: View, ghost from: nat, ghost was: Tally)
      returns (r: Option<RuntimeReceipt>, ghost tally: Tally)
      requires Valid() && Replays(first0, Tables()) && id.kind == Percept && id !in seen && id in base.outbox && from <= tick
      requires Tallied(seen, base.rows, store.rows, base.outbox, store.outbox, was)
      requires HeadSent(Setup(), seen, base, Seen(), from, tick)
      modifies this`tick, this`start, this`trail, this`place, this`acked, this`sends, store
      ensures Valid() && Replays(first0, Tables()) && tick >= old(tick)
      ensures Tallied(seen + [id], base.rows, store.rows, base.outbox, store.outbox, tally)
      ensures HeadSent(Setup(), seen + [id], base, Seen(), from, tick)
      ensures tally == match r case None => was case Some(x) => Tallying(was, id, x)
      ensures r.Some? ==> id !in was.completed + was.deferred + was.exhausted
    {
      hide P.Perform, Solo, Explains, GoodRegistry, ValidRows, InitialOperation, NamedRows, Replays, Tallied,
           OnlyRow, Leaves, Tallying, HeadSent, Tried;
      var op := store.Get(id);
      ghost var m := Seen();
      Untouched(seen, id, base.rows, m.rows, base.outbox, m.outbox, was);
      if op.Some? && op.value.state == Prepared {
        var receipt := AttemptListed(first0, id);
        TriedMeans(Setup(), m, Seen(), id, op.value, old(tick), receipt);
        TallyGrows(seen, id, base.rows, m.rows, store.rows, base.outbox, m.outbox, store.outbox, was, receipt);
        HeadSentGrows(Setup(), seen, id, base, m, Seen(), from, old(tick), tick, receipt);
        return Some(receipt), Tallying(was, id, receipt);
      }
      TallyStays(seen, id, base.rows, m.rows, base.outbox, m.outbox, was);
      HeadSentStays(Setup(), seen, id, base, m, from, tick);
      return None, was;
    }

    /** recover_interrupted_percept */
    method RecoverInterrupted(ghost first0: P.Db)
      requires Valid() && Replays(first0, Tables()) && first0.policy == Tables().policy
      modifies this`tick, store`rows, store`journal
      ensures Valid() && Replays(first0, Tables()) && tick == old(tick) + 1
      ensures store.rows == Mapped(old(store.rows), InState(old(store.rows), Percept, InFlight),
                                   Resumed(retry.policies, None, world(old(tick)).now, retry.unit, PERCEPT_RESTART))
    {
      hide GoodRegistry, Explains, ValidRows, InitialOperation, Replays, Mapped, Resumed, Carries, Movable;
      ghost var before, now := Tables(), world(tick).now;
      ghost var ids := InState(store.rows, Percept, InFlight);
      ghost var f := Resumed(retry.policies, None, now, retry.unit, PERCEPT_RESTART);
      forall id | id in ids ensures id in before.rows && Carries(first0, id, before.rows[id], f) {
        MovableRow(id);
        ResumeCarries(first0, id, before.rows[id], retry.policies, now, retry.unit);
      }
      AllReplay(first0, before, ids, f);
      ResumedNames(before.rows, ids, retry.policies, now, retry.unit);
      var _ := retry.RecoverInterruptedPercept(world(tick).now);
      tick := tick + 1;
    }

    /** schedule_pending_failed_safe */
    method Reschedule(ghost first0: P.Db, limit: int) returns (ok: bool, ghost chosen: set<OpId>)
      requires Valid() && Replays(first0, Tables()) && first0.policy == Tables().policy
      modifies this`tick, store`rows, store`journal
      ensures Valid() && Replays(first0, Tables()) && ok == (1 <= limit <= 1000) && tick == old(tick) + 1
      ensures FirstOf(store.rank, Created(old(store.rows)), chosen, InState(old(store.rows), Percept, FailedSafe), Max(limit))
      ensures store.rows == if ok then Mapped(old(store.rows), chosen, Rescheduled(retry.policies, None, world(old(tick)).now, retry.unit))
                            else old(store.rows)
    {
      hide GoodRegistry, Explains, ValidRows, InitialOperation, Replays, Mapped, Rescheduled, Carries, Movable,
           FirstOf;
      ghost var before, now := Tables(), world(tick).now;
      ghost var f := Rescheduled(retry.policies, None, now, retry.unit);
      var results;
      ghost var rows := store.rows;
      forall id | id in InState(rows, Percept, FailedSafe) ensures id in before.rows && Carries(first0, id, before.rows[id], f) {
        MovableRow(id);
        ScheduleCarries(first0, id, before.rows[id], retry.policies, now, retry.unit);
      }
      results, chosen := retry.SchedulePendingFailedSafe(world(tick).now, Percept, limit, None);
      tick := tick + 1;
      ok := results.Ok?;
      ChosenAreEligible(store.rank, Created(rows), chosen, InState(rows, Percept, FailedSafe), Max(limit));
      if ok {
        AllReplay(first0, before, chosen, f);
        RescheduledNames(before.rows, chosen, retry.policies, now, retry.unit);
      }
    }

    /** release_due */
    method ReleaseDue(ghost first0: P.Db, limit: int) returns (ghost chosen: set<OpId>)
      requires Valid() && Replays(first0, Tables()) && first0.policy == Tables().policy && 1 <= limit <= 1000
      modifies this`tick, store`rows, store`journal
      ensures Valid() && Replays(first0, Tables()) && tick == old(tick) + 1
      ensures FirstOf(store.rank, DueAt(old(store.rows)), chosen, DueIds(old(store.rows), Percept, world(old(tick)).now), limit)
      ensures store.rows == Mapped(old(store.rows), chosen, Released(retry.policies, None, world(old(tick)).now))
    {
      hide GoodRegistry, Explains, ValidRows, InitialOperation, Replays, Mapped, Released, Carries, Movable, FirstOf;
      ghost var before, now := Tables(), world(tick).now;
      ghost var f := Released(retry.policies, None, now);
      ghost var rows := store.rows;
      forall id | id in DueIds(rows, Percept, now) ensures id in before.rows && Carries(first0, id, before.rows[id], f) {
        MovableRow(id);
        ReleaseCarries(first0, id, before.rows[id], retry.policies, now);
      }
      var results;
      results, chosen := retry.ReleaseDue(world(tick).now, Percept, limit, None);
      tick := tick + 1;
      ChosenAreEligible(store.rank, DueAt(rows), chosen, DueIds(rows, Percept, now), Max(limit));
      AllReplay(first0, before, chosen, f);
      ReleasedNames(before.rows, chosen, retry.policies, None, now);
    }

    lemma PolicyIsValid()
      requires Valid()
      ensures ValidPolicy(retry.policies(Percept)) && forall op :: 0.0 <= retry.unit(op) <= 1.0
    {
      hide Explains, ValidRows, InitialOperation, NamedRows, ValidPolicy;
    }

    lemma KindsOf(id: OpId)
      requires OnTrack()
      ensures id in store.rows ==> id.kind == store.rows[id].kind
    {
      hide GoodRegistry, Explains, ValidRows, InitialOperation, Solo;
    }

    lemma KindOf(id: OpId)
      requires Valid() && id in store.rows
      ensures id.kind == store.rows[id].kind
    {
      hide GoodRegistry, Explains, ValidRows, InitialOperation;
    }

    lemma MovableRow(id: OpId)
      requires Valid() && id in store.rows && store.rows[id].kind == Percept && store.rows[id].state != Prepared
      ensures Movable(store.rows[id], id, store.rows[id].state)
    {
      retry.RowWasAttempted(id);
      hide GoodRegistry, Explains, ValidRows, InitialOperation, ValidOperation;
    }

    method AttemptListed(ghost first0: P.Db, id: OpId) returns (r: RuntimeReceipt)
      requires Valid() && Replays(first0, Tables()) && id.kind == Percept
      requires id in store.rows && store.rows[id].state == Prepared
      modifies this`tick, this`start, this`trail, this`place, this`acked, this`sends, store
      ensures Valid() && Replays(first0, Tables()) && tick > old(tick) + 1
      ensures Tried(Setup(), old(Seen()), Seen(), id, old(store.rows)[id], old(tick), r)
    {
      hide P.Perform, Solo, Explains, GoodRegistry, ValidRows, InitialOperation, NamedRows, Replays, Tried;
      ghost var before := Tables();
      KindOf(id);
      Begin(P.Attempt(id));
      r := Attempt(id);
      ReplaysJob(first0, before, P.Deliver(id), trail);
    }
  }

  // ------------------------------------------------------------ pump phases

  /** What a pump finds and leaves, phase by phase. */
  datatype Phases = Phases(
    recovered: Rows,                          // after recover_interrupted_percept
    failed: set<OpId>, rescheduled: Rows,     // picked by schedule_pending_failed_safe, and after it
    due: set<OpId>, released: Rows,           // picked by release_due, and after it
    head: seq<OpId>)                          // the outbox ids looked at

  ghost predicate ReschedulesFailed(ph: Phases, rank: OpId -> real, policies: Registry, now: real, unit: Operation -> real, limit: nat) {
    && FirstOf(rank, Created(ph.recovered), ph.failed, InState(ph.recovered, Percept, FailedSafe), limit)
    && ph.rescheduled == Mapped(ph.recovered, ph.failed, Rescheduled(policies, None, now, unit))
  }

  ghost predicate ReleasesDue(ph: Phases, rank: OpId -> real, policies: Registry, now: real, limit: nat) {
    && FirstOf(rank, DueAt(ph.rescheduled), ph.due, DueIds(ph.rescheduled, Percept, now), limit)
    && ph.released == Mapped(ph.rescheduled, ph.due, Released(policies, None, now))
  }

  ghost predicate Delivers(ph: Phases, rank: OpId -> real, outbox: Outbox, rows: Rows, left: Outbox, limit: nat, c: Counters) {
    && Listing(rank, ReservedAt(outbox), ph.head, outbox.Keys, limit)
    && HeadDelivered(ph.head, ph.released, rows, outbox, left, c)
  }

  function ReservedAt(outbox: Outbox): map<OpId, real> {
    map id | id in outbox :: outbox[id].createdAt
  }

  /** Those of `ids` that are prepared. */
  function Ready(ids: seq<OpId>, rows: Rows): set<OpId> {
    set id | id in ids && id in rows && rows[id].state == Prepared
  }

  /** Those of `ids` that are in the given state. */
  function Among(ids: set<OpId>, rows: Rows, state: OperationState): set<OpId> {
    set id | id in ids && id in rows && rows[id].state == state
  }

  /**
    Every prepared operation of the head was tried once, and ended completed
    with its envelope gone, exhausted, or waiting; nothing else moved.
  */
  ghost predicate HeadDelivered(head: seq<OpId>, a: Rows, b: Rows, outbox: Outbox, left: Outbox, c: Counters) {
    var ready := Ready(head, a);
    && b.Keys == a.Keys && (forall id | id in a && id !in ready :: b[id] == a[id])
    && (forall id | id in ready :: b[id].state in {Completed, Exhausted, RetryWait})
    && left == outbox - Among(ready, b, Completed)
    && c == Counters(|ready|, |Among(ready, b, Completed)|, |Among(ready, b, RetryWait)|, |Among(ready, b, Exhausted)|, |left|)
  }

  /** What became of the deliveries tried so far. */
  datatype Tally = Tally(completed: set<OpId>, deferred: set<OpId>, exhausted: set<OpId>)

  function Tallying(t: Tally, id: OpId, r: RuntimeReceipt): Tally {
    match Leaves(r)
    case Completed => t.(completed := t.completed + {id})
    case Exhausted => t.(exhausted := t.exhausted + {id})
    case _ => t.(deferred := t.deferred + {id})
  }

  ghost predicate Tallied(seen: seq<OpId>, a: Rows, b: Rows, outbox: Outbox, left: Outbox, t: Tally) {
    && b.Keys == a.Keys && left == outbox - t.completed
    && t.completed + t.deferred + t.exhausted == Ready(seen, a)
    && (forall id | id in a && id !in t.completed + t.deferred + t.exhausted :: b[id] == a[id])
    && (forall id | id in t.completed :: id in b && b[id].state == Completed)
    && (forall id | id in t.deferred :: id in b && b[id].state == RetryWait)
    && (forall id | id in t.exhausted :: id in b && b[id].state == Exhausted)
  }

  lemma ReadyGrows(seen: seq<OpId>, id: OpId, rows: Rows)
    ensures Ready(seen + [id], rows) == Ready(seen, rows) + if id in rows && rows[id].state == Prepared then {id} else {}
  {
  }

  lemma NextTaken<T>(s: seq<T>, n: nat)
    requires n < |s|
    ensures s[..n + 1] == s[..n] + [s[n]]
  {
  }

  lemma OutboxKinds(outbox: Outbox)
    requires OnlyPercepts(outbox)
    ensures forall id | id in outbox :: id.kind == Percept
  {
  }

  lemma TallyNone(rows: Rows, outbox: Outbox)
    ensures Tallied([], rows, rows, outbox, outbox, Tally({}, {}, {}))
  {
    assert Ready([], rows) == {};
    assert outbox - {} == outbox;
  }

  lemma TallyingCounts(t: Tally, id: OpId, r: RuntimeReceipt)
    requires id !in t.completed + t.deferred + t.exhausted
    ensures var u := Tallying(t, id, r);
            && |u.completed| == |t.completed| + (if r.ok then 1 else 0)
            && |u.exhausted| == |t.exhausted| + (if !r.ok && r.error == EXHAUSTED then 1 else 0)
            && |u.deferred| == |t.deferred| + (if !r.ok && r.error != EXHAUSTED then 1 else 0)
  {
  }

  /** A percept not looked at yet is as the phase found it. */
  lemma Untouched(seen: seq<OpId>, id: OpId, a: Rows, b: Rows, outbox: Outbox, left: Outbox, t: Tally)
    requires Tallied(seen, a, b, outbox, left, t) && id !in seen
    ensures id in a <==> id in b
    ensures id in a ==> b[id] == a[id]
    ensures id in outbox ==> id in left && left[id] == outbox[id]
  {
    assert id !in Ready(seen, a);
  }

  /** What a delivery leaves, as the counters see it. */
  lemma TriedMeans(s: Setting, a: View, b: View, id: OpId, op: Operation, t: nat, r: RuntimeReceipt)
    requires Tried(s, a, b, id, op, t, r)
    ensures OnlyRow(a.rows, b.rows, id) && id in b.rows && b.rows[id].state == Leaves(r)
    ensures b.outbox == if r.ok then a.outbox - {id} else a.outbox
  {
    OkIsAcknowledged(s, a, b, id, op, t, r);
    hide TriedRow, OnlyRow;
  }

  lemma TallyStays(seen: seq<OpId>, id: OpId, a: Rows, b: Rows, outbox: Outbox, left: Outbox, t: Tally)
    requires Tallied(seen, a, b, outbox, left, t) && id !in seen && !(id in b && b[id].state == Prepared)
    ensures Tallied(seen + [id], a, b, outbox, left, t)
  {
    ReadyGrows(seen, id, a);
  }

  lemma TallyGrows(seen: seq<OpId>, id: OpId, a: Rows, b: Rows, c: Rows, outbox: Outbox, left: Outbox, rest: Outbox,
                   t: Tally, r: RuntimeReceipt)
    requires Tallied(seen, a, b, outbox, left, t) && id !in seen && id in b && b[id].state == Prepared
    requires OnlyRow(b, c, id) && c[id].state == Leaves(r) && rest == if r.ok then left - {id} else left
    ensures Tallied(seen + [id], a, c, outbox, rest, Tallying(t, id, r))
    ensures id !in t.completed + t.deferred + t.exhausted
  {
    ReadyGrows(seen, id, a);
    assert id !in Ready(seen, a);
    assert outbox - t.completed - {id} == outbox - (t.completed + {id});
  }

  lemma AmongAre(head: seq<OpId>, a: Rows, b: Rows, outbox: Outbox, left: Outbox, t: Tally)
    requires Tallied(head, a, b, outbox, left, t)
    ensures var ready := Ready(head, a);
            && Among(ready, b, Completed) == t.completed && Among(ready, b, RetryWait) == t.deferred
            && Among(ready, b, Exhausted) == t.exhausted
    ensures t.completed !! t.deferred !! t.exhausted
  {
    hide Ready;
  }

  lemma ThreeCounts(x: set<OpId>, y: set<OpId>, z: set<OpId>)
    requires x !! y !! z
    ensures |x + y + z| == |x| + |y| + |z|
  {
  }

  lemma TallyCounts(head: seq<OpId>, a: Rows, b: Rows, outbox: Outbox, left: Outbox, t: Tally, c: Counters)
    requires Tallied(head, a, b, outbox, left, t)
    requires c == Counters(|t.completed| + |t.deferred| + |t.exhausted|, |t.completed|, |t.deferred|, |t.exhausted|, |left|)
    ensures HeadDelivered(head, a, b, outbox, left, c)
  {
    AmongAre(head, a, b, outbox, left, t);
    ThreeCounts(t.completed, t.deferred, t.exhausted);
    hide Among, Ready;
  }

  /** The engine defers a failed percept as the backoff says. */
  lemma ScheduleDefers(s: Setting, rows: Rows, id: OpId, now: real)
    requires id in rows && ValidOperation(rows[id]) && rows[id].state == FailedSafe && rows[id].attempt >= 1
    requires rows[id].kind == Percept && !s.policy.reconcileBeforeRetry && ValidPolicy(s.policy) && 0.0 <= s.unit(rows[id]) <= 1.0
    ensures var x := ScheduleOn(rows, id, s.policy, None, now, s.unit(rows[id]));
            x.Ok? && Deferred(s, rows[id], now, x.value.op,
                              RuntimeReceipt(false, if x.value.disposition == WasExhausted then EXHAUSTED else DEFERRED))
  {
    hide Delay, ValidPolicy;
  }

  lemma DeferredIsNotOk(s: Setting, failed: Operation, at: real, row: Operation, r: RuntimeReceipt)
    requires Deferred(s, failed, at, row, r)
    ensures !r.ok
  {
  }

  lemma BeginStamps(rows: Rows, id: OpId, p: RetryPolicy, now: real)
    requires id in rows && ValidOperation(rows[id]) && rows[id].state == Prepared && rows[id].kind == Percept
    requires !p.reconcileBeforeRetry
    ensures BeginOn(rows, id, p, None, now).Ok? ==> BeginOn(rows, id, p, None, now).value.op == StartedRow(rows[id], now)
  {
    hide StartedRow;
    if Advance(rows[id], StartAttempt, now).Ok? {
      StampsRow(rows[id], StartAttempt, now);
    }
    hide Advance;
  }

  /** The three ends of a delivery. */
  lemma NothingSent(s: Setting, a: View, b: View, id: OpId, op: Operation, t: nat, r: RuntimeReceipt)
    requires id !in a.outbox && id in b.rows && OnlyRow(a.rows, b.rows, id) && b == a.(rows := b.rows)
    requires Failed(s, StartedRow(op, s.world(t).now), "percept_outbox_payload_missing", s.world(t + 1).now, s.world(t + 2).now,
                    b.rows[id], r)
    ensures Tried(s, a, b, id, op, t, r)
  {
    hide Failed, OnlyRow;
  }

  lemma NotAcked(s: Setting, a: View, b: View, id: OpId, op: Operation, t: nat, code: string, r: RuntimeReceipt)
    requires id in a.outbox && id in b.rows && OnlyRow(a.rows, b.rows, id) && s.world(t + 1).reply != P.AckOk
    requires b == a.(rows := b.rows, sends := a.sends + [Sending(t + 1, id, a.outbox[id].event)])
    requires code == if s.world(t + 1).reply == P.AckNotOk then "runtime_ack_not_ok" else "runtime_transport_exception"
    requires Failed(s, StartedRow(op, s.world(t).now), code, s.world(t + 2).now, s.world(t + 3).now, b.rows[id], r)
    ensures Tried(s, a, b, id, op, t, r)
  {
    hide Failed, OnlyRow;
  }

  lemma Acked(s: Setting, a: View, b: View, id: OpId, op: Operation, t: nat)
    requires id in a.outbox && id in a.rows && s.world(t + 1).reply == P.AckOk
    requires b == View(a.rows[id := Stamped(StartedRow(op, s.world(t).now), Completed, s.world(t + 2).now, None)],
                       a.outbox - {id}, a.acked + {a.outbox[id].event.key}, a.sends + [Sending(t + 1, id, a.outbox[id].event)])
    ensures Tried(s, a, b, id, op, t, RuntimeReceipt(true, ""))
  {
    hide StartedRow, Stamped;
  }

  /** What was tried after a first move of the same row was tried before it. */
  lemma TriedFrom(s: Setting, a: View, m: View, b: View, id: OpId, op: Operation, t: nat, r: RuntimeReceipt)
    requires Tried(s, m, b, id, op, t, r) && m == a.(rows := m.rows)
    requires id in a.rows && m.rows == a.rows[id := m.rows[id]]
    ensures Tried(s, a, b, id, op, t, r)
  {
    hide TriedRow;
  }

  /** The answers of attempt that touch nothing. */
  function AlreadySettled(op: Option<Operation>): Option<RuntimeReceipt> {
    if op.None? then Some(RuntimeReceipt(false, "percept_operation_missing"))
    else if op.value.kind != Percept then Some(RuntimeReceipt(false, "percept_operation_kind_mismatch"))
    else
      match op.value.state
      case Completed => Some(RuntimeReceipt(true, ""))
      case Exhausted => Some(RuntimeReceipt(false, EXHAUSTED))
      case InFlight => Some(RuntimeReceipt(false, "percept_in_flight"))
      case DeliveryUnknown => Some(RuntimeReceipt(false, "percept_not_ready"))
      case _ => None
  }

  /** What _schedule_failed answers for a row that is gone or was moved on. */
  function LostCause(row: Option<Operation>): string {
    match row
    case None => "percept_operation_missing"
    case Some(op) => if op.state == Exhausted then EXHAUSTED else "percept_delivery_failed"
  }

  /** The read of _schedule_failed. */
  lemma FailReads(db: P.Db, id: OpId, code: string, now: real)
    ensures P.Perform(db, P.Fail(id, code), EnvAt(now)) == P.Outcome(db, P.FailNext(db, id, code))
  {
  }

  lemma FailCommits(db: P.Db, id: OpId, code: string, now: real)
    requires id in db.rows && Advance(db.rows[id], MarkFailedSafe(Some(code)), now).Ok?
    ensures P.Perform(db, P.FailCommit(id, code), EnvAt(now))
         == P.Outcome(db.(rows := db.rows[id := Advance(db.rows[id], MarkFailedSafe(Some(code)), now).value]), P.Schedule(id))
  {
    hide Advance;
  }

  function EnvAt(now: real): P.Env {
    P.Env(now, 0.0, P.AckOk, true)
  }

  /** The engine's plan for a failed percept is the decision of the step system. */
  lemma PlanMatches(p: RetryPolicy, op: Operation, now: real, unit: real)
    requires op.kind == Percept && !p.reconcileBeforeRetry && op.attempt >= 1
    ensures SchedulePlan(p, op, None, now, unit) == match Decide(p, op, now, unit)
      case Exhaust => Ok(Do(MarkExhausted, WasExhausted))
      case Wait(at) => Ok(Do(ScheduleRetry(at), WasScheduled))
      case FreshDecision => Err(PolicyError)
      case Refuse => Err(PolicyError)
    ensures Decide(p, op, now, unit).Exhaust? || Decide(p, op, now, unit).Wait?
  {
    hide Delay;
  }

  /** The engine's scheduling call is the read and the commit of the step system, and goes through. */
  lemma ScheduleSteps(db: P.Db, id: OpId, env: P.Env)
    requires id in db.rows && ValidOperation(db.rows[id]) && db.rows[id].state == FailedSafe && db.rows[id].attempt >= 1
    requires db.rows[id].kind == Percept && !db.policy.reconcileBeforeRetry && NamedRows(db.rows)
    ensures var r := ScheduleOn(db.rows, id, db.policy, None, env.now, env.unit);
            var next := P.ScheduleNext(db, id, env.now, env.unit);
            && r.Ok? && NamedRows(db.rows[id := r.value.op]) && r.value.op.kind == Percept
            && r.value.op.state == (if r.value.disposition == WasExhausted then Exhausted else RetryWait)
            && P.Perform(db, P.Schedule(id), env) == P.Outcome(db, next)
            && P.Perform(db, next, env) == P.Outcome(db.(rows := db.rows[id := r.value.op]), P.Done(false))
  {
    var op := db.rows[id];
    PlanMatches(db.policy, op, env.now, env.unit);
    ScheduleGoes(op, db.policy, None, env.now, env.unit);
    var cmd := SchedulePlan(db.policy, op, None, env.now, env.unit).value.cmd;
    KeepsNames(db.rows, id, cmd, env.now);
    ScheduledState(op, cmd, env.now);
    hide Decide, Advance, SchedulePlan, NamedRows, ValidOperation, P.Perform;
    DecisionSteps(db, id, env, cmd);
  }

  lemma ScheduledState(op: Operation, cmd: Command, now: real)
    requires (cmd == MarkExhausted || cmd.ScheduleRetry?) && Advance(op, cmd, now).Ok?
    ensures var r := Advance(op, cmd, now).value;
            r.state == (if cmd == MarkExhausted then Exhausted else RetryWait) && r.kind == op.kind
  {
    hide ValidOperation;
  }

  lemma DecisionSteps(db: P.Db, id: OpId, env: P.Env, cmd: Command)
    requires id in db.rows && db.rows[id].state == FailedSafe && Advance(db.rows[id], cmd, env.now).Ok?
    requires match Decide(db.policy, db.rows[id], env.now, env.unit)
             case Exhaust => cmd == MarkExhausted
             case Wait(at) => cmd == ScheduleRetry(at)
             case FreshDecision => false
             case Refuse => false
    ensures var next := P.ScheduleNext(db, id, env.now, env.unit);
            && P.Perform(db, P.Schedule(id), env) == P.Outcome(db, next)
            && P.Perform(db, next, env)
                 == P.Outcome(db.(rows := db.rows[id := Advance(db.rows[id], cmd, env.now).value]), P.Done(false))
  {
    hide Decide, Advance;
  }

  lemma SafeTokens()
    ensures IsSafeToken("percept_outbox_payload_missing") && IsSafeToken("runtime_transport_exception")
    ensures IsSafeToken("runtime_ack_not_ok") && IsSafeToken("percept_failed_safe")
  {
    hide IsSafeToken;
    LongTokens();
    ShortTokens();
  }

  lemma LongTokens()
    ensures IsSafeToken("percept_outbox_payload_missing") && IsSafeToken("runtime_transport_exception")
  {
  }

  lemma ShortTokens()
    ensures IsSafeToken("runtime_ack_not_ok") && IsSafeToken("percept_failed_safe")
  {
  }

  lemma BeginSteps(db: P.Db, id: OpId, now: real)
    requires id in db.rows && ValidOperation(db.rows[id]) && db.rows[id].state == Prepared
    requires db.rows[id].kind == Percept && !db.policy.reconcileBeforeRetry && NamedRows(db.rows)
    ensures var r := BeginOn(db.rows, id, db.policy, None, now);
            && r.Ok? && NamedRows(db.rows[id := r.value.op])
            && r.value.op.state == InFlight && r.value.op.kind == Percept
            && P.Perform(db, P.BeginRead(id), EnvAt(now)) == P.Outcome(db, P.BeginCommit(id))
            && P.Perform(db, P.BeginCommit(id), EnvAt(now)) == P.Outcome(db.(rows := db.rows[id := r.value.op]), P.Load(id))
  {
    KeepsNames(db.rows, id, StartAttempt, now);
  }

  lemma LoadReads(db: P.Db, id: OpId, env: P.Env)
    ensures P.Perform(db, P.Load(id), env) == P.Outcome(db, P.LoadNext(db, id))
  {
  }

  lemma SendSteps(db: P.Db, id: OpId, event: Envelope, env: P.Env)
    ensures P.Perform(db, P.Send(id, event), env) == P.SendStep(db, id, event, env.reply)
  {
  }

  lemma FinishSteps(db: P.Db, id: OpId, now: real)
    requires id in db.rows && ValidOperation(db.rows[id]) && db.rows[id].state == InFlight && db.rows[id].kind == Percept
    ensures var r := Advance(db.rows[id], MarkCompleted, now);
            r.Ok? && r.value.state == Completed && r.value.kind == Percept
    ensures P.Perform(db, P.Complete(id), EnvAt(now))
         == P.Outcome(db.(rows := db.rows[id := Advance(db.rows[id], MarkCompleted, now).value]), P.Clear(id))
  {
  }

  lemma ClearSteps(db: P.Db, id: OpId, now: real)
    ensures P.Perform(db, P.Clear(id), EnvAt(now)) == P.Outcome(db.(outbox := db.outbox - {id}), P.Done(true))
  {
  }

  lemma AttemptReads(db: P.Db, id: OpId)
    ensures P.Perform(db, P.Attempt(id), EnvAt(0.0)) == P.Outcome(db, P.AttemptNext(db, id))
  {
  }

  lemma ListedAreDue(rank: OpId -> real, at: map<OpId, real>, ids: seq<OpId>, eligible: set<OpId>, limit: nat)
    requires Listing(rank, at, ids, eligible, limit)
    ensures forall id | id in ids :: id in eligible
  {
    forall id | id in ids ensures id in eligible {
      assert id in Elements(ids);
    }
  }

  lemma DueReads(db: P.Db, id: OpId, env: P.Env)
    requires env.listed ==> id in DueIds(db.rows, Percept, env.now)
    ensures P.Perform(db, P.CheckDue(id), env) == P.Outcome(db, if env.listed then P.Release(id, true) else P.Done(false))
  {
  }

  lemma ReleaseSteps(db: P.Db, id: OpId, now: real, thenBegin: bool)
    requires id in db.rows && ValidOperation(db.rows[id]) && db.rows[id].state == RetryWait && db.rows[id].kind == Percept
    ensures Advance(db.rows[id], MakeRetryReady, now).Ok?
    ensures Advance(db.rows[id], MakeRetryReady, now).value.state == Prepared
    ensures Advance(db.rows[id], MakeRetryReady, now).value.kind == Percept
    ensures P.Perform(db, P.Release(id, thenBegin), EnvAt(now))
         == P.Outcome(db.(rows := db.rows[id := Advance(db.rows[id], MakeRetryReady, now).value]),
                      if thenBegin then P.BeginRead(id) else P.Idle)
  {
  }

  lemma RefusalKeepsOutbox(rows: Rows, outbox: Outbox, op: Operation, event: Envelope)
    ensures ReservedPercept(rows, outbox, op, event).Err? ==> OutboxAfterReserve(rows, outbox, op, event) == outbox
  {
    hide ReservedPercept;
  }

  lemma ReserveSteps(db: P.Db, event: Envelope, hash: string, now: real)
    requires ValidRows(db.rows) && NamedRows(db.rows)
    ensures var op := P.InitialPercept(event, hash, now);
            var r := ReservedPercept(db.rows, db.outbox, op, event);
            P.Perform(db, P.Reserve(event, hash), EnvAt(now)) == P.Outcome(
              db.(rows := if r.Ok? then AfterReserve(db.rows, op) else db.rows,
                  outbox := OutboxAfterReserve(db.rows, db.outbox, op, event),
                  first := if r.Ok? && !HasKey(db.rows, op.kind, op.key) && op.id !in db.first
                           then db.first[op.id := event] else db.first),
              match r case Ok(x) => P.Attempt(x.id) case Err(e) => P.Raised(e))
    ensures NamedRows(AfterReserve(db.rows, P.InitialPercept(event, hash, now))) && NamedRows(db.rows)
    ensures OnlyPercepts(db.outbox) ==>
              OnlyPercepts(OutboxAfterReserve(db.rows, db.outbox, P.InitialPercept(event, hash, now), event))
  {
    ReserveKeepsRows(db.rows, P.InitialPercept(event, hash, now));
    hide ValidRows, HasKey;
  }

  // ------------------------------------------------- the first phases of a pump

  /** Taking the row of `id` to `f` of itself extends every run. */
  ghost predicate Carries(a: P.Db, id: OpId, op: Operation, f: Operation -> Operation) {
    forall db | Replays(a, db) && id in db.rows && db.rows[id] == op && db.policy == a.policy ::
      Replays(a, db.(rows := db.rows[id := f(op)]))
  }

  /** So does taking a set of rows there, one by one. */
  lemma {:induction false} AllReplay(a: P.Db, db: P.Db, ids: set<OpId>, f: Operation -> Operation)
    requires Replays(a, db) && db.policy == a.policy
    requires forall id | id in ids :: id in db.rows && Carries(a, id, db.rows[id], f)
    ensures Replays(a, db.(rows := Mapped(db.rows, ids, f)))
    decreases |ids|
  {
    hide Replays;
    if ids == {} {
      assert Mapped(db.rows, ids, f) == db.rows;
      assert db.(rows := db.rows) == db;
    } else {
      var id :| id in ids;
      AllReplay(a, db, ids - {id}, f);
      var before := db.(rows := Mapped(db.rows, ids - {id}, f));
      assert before.rows[id] == db.rows[id];
      assert Mapped(db.rows, ids, f) == before.rows[id := f(db.rows[id])];
      assert Replays(a, before.(rows := before.rows[id := f(db.rows[id])]));
    }
  }

  /** A durable percept row the phases may meet. */
  ghost predicate Movable(op: Operation, id: OpId, state: OperationState) {
    ValidOperation(op) && op.kind == Percept && op.id == id && id.kind == Percept && op.state == state && op.attempt >= 1
  }

  lemma ReleaseCarries(a: P.Db, id: OpId, op: Operation, policies: Registry, now: real)
    requires Movable(op, id, RetryWait) && !policies(Percept).reconcileBeforeRetry
    ensures Carries(a, id, op, Released(policies, None, now))
  {
    var f := Released(policies, None, now);
    forall db | Replays(a, db) && id in db.rows && db.rows[id] == op && db.policy == a.policy
      ensures Replays(a, db.(rows := db.rows[id := f(op)]))
    {
      ReleaseSteps(db, id, now, false);
      assert f(op) == Advance(op, MakeRetryReady, now).value;
      OneSolo(db, P.Release(id, false), EnvAt(now));
      hide Replays, P.Perform, Solo, Advance, ValidOperation;
      ReplaysJob(a, db, P.ReleaseDue(id), [EnvAt(now)]);
    }
  }

  lemma RescheduledNames(rows: Rows, ids: set<OpId>, policies: Registry, now: real, unit: Operation -> real)
    requires NamedRows(rows)
    ensures NamedRows(Mapped(rows, ids, Rescheduled(policies, None, now, unit)))
  {
    hide Carried, SchedulePlan, NamedRows;
    forall id | id in ids && id in rows ensures SameIdentity(rows[id], Rescheduled(policies, None, now, unit)(rows[id])) {
      CarriedIdentity(rows[id], SchedulePlan(policies(rows[id].kind), rows[id], None, now, unit(rows[id])), now);
    }
    MappedNames(rows, ids, Rescheduled(policies, None, now, unit));
  }

  lemma ResumedNames(rows: Rows, ids: set<OpId>, policies: Registry, now: real, unit: Operation -> real)
    requires NamedRows(rows)
    ensures NamedRows(Mapped(rows, ids, Resumed(policies, None, now, unit, PERCEPT_RESTART)))
  {
    hide Carried, SchedulePlan, NamedRows;
    forall id | id in ids && id in rows
      ensures SameIdentity(rows[id], Resumed(policies, None, now, unit, PERCEPT_RESTART)(rows[id]))
    {
      ResumedIdentity(rows[id], policies, now, unit);
    }
    MappedNames(rows, ids, Resumed(policies, None, now, unit, PERCEPT_RESTART));
  }

  lemma ResumedIdentity(op: Operation, policies: Registry, now: real, unit: Operation -> real)
    ensures SameIdentity(op, Resumed(policies, None, now, unit, PERCEPT_RESTART)(op))
  {
    if Advance(op, MarkFailedSafe(Some(PERCEPT_RESTART)), now).Ok? {
      var failed := Advance(op, MarkFailedSafe(Some(PERCEPT_RESTART)), now).value;
      assert SameIdentity(op, failed);
      ResumedIs(policies, None, now, unit, PERCEPT_RESTART, op);
      hide Advance, Carried, SchedulePlan, Resumed;
      CarriedIdentity(failed, SchedulePlan(policies(failed.kind), failed, None, now, unit(failed)), now);
    }
  }

  lemma OneSolo(db: P.Db, pc: P.Pc, env: P.Env)
    ensures Solo(db, pc, [env]) == P.Perform(db, pc, env)
  {
    SoloStep(db, pc, [], env);
    assert [] + [env] == [env];
    hide P.Perform;
  }

  lemma TwoSolo(db: P.Db, pc: P.Pc, env: P.Env)
    ensures var o := P.Perform(db, pc, env);
            Solo(db, pc, [env, env]) == P.Perform(o.db, o.pc, env)
  {
    OneSolo(db, pc, env);
    SoloStep(db, pc, [env], env);
    assert [env] + [env] == [env, env];
    hide P.Perform, Solo;
  }

  lemma ScheduleCarries(a: P.Db, id: OpId, op: Operation, policies: Registry, now: real, unit: Operation -> real)
    requires Movable(op, id, FailedSafe) && a.policy == policies(Percept) && !a.policy.reconcileBeforeRetry
    ensures Carries(a, id, op, Rescheduled(policies, None, now, unit))
  {
    var f := Rescheduled(policies, None, now, unit);
    var env := P.Env(now, unit(op), P.AckOk, true);
    forall db | Replays(a, db) && id in db.rows && db.rows[id] == op && db.policy == a.policy
      ensures Replays(a, db.(rows := db.rows[id := f(op)]))
    {
      FailedRowSteps(db, id, env);
      TwoSolo(db, P.Schedule(id), env);
      assert f(op) == TakenTo(ScheduleOn(db.rows, id, db.policy, None, now, unit(op)), op);
      hide Replays, P.Perform, Solo, ScheduleOn, ValidOperation;
      ReplaysJob(a, db, P.Reschedule(id), [env, env]);
    }
  }

  /** ScheduleSteps without the names. */
  lemma FailedRowSteps(db: P.Db, id: OpId, env: P.Env)
    requires id in db.rows && Movable(db.rows[id], id, FailedSafe) && !db.policy.reconcileBeforeRetry
    ensures var r := ScheduleOn(db.rows, id, db.policy, None, env.now, env.unit);
            var next := P.ScheduleNext(db, id, env.now, env.unit);
            && r.Ok?
            && P.Perform(db, P.Schedule(id), env) == P.Outcome(db, next)
            && P.Perform(db, next, env) == P.Outcome(db.(rows := db.rows[id := r.value.op]), P.Done(false))
  {
    var op := db.rows[id];
    PlanMatches(db.policy, op, env.now, env.unit);
    ScheduleGoes(op, db.policy, None, env.now, env.unit);
    var cmd := SchedulePlan(db.policy, op, None, env.now, env.unit).value.cmd;
    hide Decide, Advance, SchedulePlan, ValidOperation, P.Perform;
    DecisionSteps(db, id, env, cmd);
  }

  lemma ResumeCarries(a: P.Db, id: OpId, op: Operation, policies: Registry, now: real, unit: Operation -> real)
    requires Movable(op, id, InFlight) && a.policy == policies(Percept) && !a.policy.reconcileBeforeRetry
    ensures Carries(a, id, op, Resumed(policies, None, now, unit, PERCEPT_RESTART))
  {
    var f := Resumed(policies, None, now, unit, PERCEPT_RESTART);
    SafeCodes();
    FailGoes(op, PERCEPT_RESTART, now);
    ResumedIs(policies, None, now, unit, PERCEPT_RESTART, op);
    var failed := Advance(op, MarkFailedSafe(Some(PERCEPT_RESTART)), now).value;
    hide IsSafeToken, Advance, Resumed, ValidOperation;
    forall db | Replays(a, db) && id in db.rows && db.rows[id] == op && db.policy == a.policy
      ensures Replays(a, db.(rows := db.rows[id := f(op)]))
    {
      ResumeReplays(a, db, id, failed, policies, now, unit);
      assert f(op) == TakenTo(ScheduleOn(db.rows[id := failed], id, db.policy, None, now, unit(failed)), failed);
    }
  }

  lemma ResumeReplays(a: P.Db, db: P.Db, id: OpId, failed: Operation, policies: Registry, now: real, unit: Operation -> real)
    requires Replays(a, db) && id in db.rows && Movable(db.rows[id], id, InFlight)
    requires Advance(db.rows[id], MarkFailedSafe(Some(PERCEPT_RESTART)), now) == Ok(failed)
    requires Movable(failed, id, FailedSafe) && !db.policy.reconcileBeforeRetry
    ensures var r := ScheduleOn(db.rows[id := failed], id, db.policy, None, now, unit(failed));
            r.Ok? && Replays(a, db.(rows := db.rows[id := r.value.op]))
  {
    var env := P.Env(now, unit(failed), P.AckOk, true);
    var middle := db.(rows := db.rows[id := failed]);
    FailedRowSteps(middle, id, env);
    RestartFails(db, id, env, failed);
    OneSolo(db, P.FailCommit(id, P.RESTART), env);
    hide P.Perform, Advance, ScheduleOn, ValidOperation, Replays, Solo;
    SoloStep(db, P.FailCommit(id, P.RESTART), [env], env);
    SoloStep(db, P.FailCommit(id, P.RESTART), [env, env], env);
    assert [env] + [env] == [env, env] && [env, env] + [env] == [env, env, env];
    ReplaysJob(a, db, P.RecoverInFlight(id), [env, env, env]);
    var r := ScheduleOn(middle.rows, id, db.policy, None, now, unit(failed));
    assert middle.rows[id := r.value.op] == db.rows[id := r.value.op];
  }

  lemma RestartFails(db: P.Db, id: OpId, env: P.Env, failed: Operation)
    requires id in db.rows && Advance(db.rows[id], MarkFailedSafe(Some(P.RESTART)), env.now) == Ok(failed)
    ensures P.Perform(db, P.FailCommit(id, P.RESTART), env) == P.Outcome(db.(rows := db.rows[id := failed]), P.Schedule(id))
  {
    hide Advance;
  }
}
