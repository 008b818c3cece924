/**
  The retry engine over the operation store: what one scheduler working alone
  does to the table. Races between schedulers are the subject of the protocol
  modules. (src/hermes_life_bridge/retry_engine.py)
*/
module RetryEngine {
  import opened Basics
  import opened ReliabilityContract
  import opened SqlOrder
  import opened OperationStore
  import opened Backoff

  datatype Disposition = WasScheduled | IsReady | WasExhausted | WasCompleted | WasStarted | NeedsFreshDecision

  datatype RetryResult = RetryResult(disposition: Disposition, op: Operation)

  type Registry = RetryClass -> RetryPolicy

  /** cognition_receipt_accepted, if the caller gives one. */
  type Probe = Option<Operation -> bool>

  /** The checks of the engine's constructor. */
  ghost predicate GoodRegistry(policies: Registry) {
    forall kind ::
      && ValidPolicy(policies(kind)) && policies(kind).retryClass == kind && policies(kind).requiresDurableState
      && (kind == Cognition ==> policies(kind).reconcileBeforeRetry)
      && (kind == Contact ==> !policies(kind).retryAfterDeliveryUnknown && !policies(kind).reconcileBeforeRetry)
  }

  function DefaultPolicies(): Registry {
    (kind: RetryClass) => match kind
      case Percept => PERCEPT_RETRY_POLICY
      case Cognition => COGNITION_RETRY_POLICY
      case Contact => CONTACT_RETRY_POLICY
  }

  lemma DefaultsAreGood()
    ensures GoodRegistry(DefaultPolicies())
  {
  }

  // ------------------------------------------------------------------ decisions

  /** Has reconciliation accepted the operation? */
  function Reconciles(p: RetryPolicy, op: Operation, probe: Probe): Result<bool> {
    if !p.reconcileBeforeRetry then Ok(false)
    else if op.kind != Cognition || probe.None? then Err(PolicyError)
    else Ok(probe.value(op))
  }

  datatype Plan = Keep(disposition: Disposition) | Do(cmd: Command, disposition: Disposition)

  /** What the class policy makes of a failed-safe operation. */
  function SchedulePlan(p: RetryPolicy, op: Operation, probe: Probe, now: real, unit: real): Result<Plan> {
    if op.kind == Contact then Ok(Keep(NeedsFreshDecision))
    else match Reconciles(p, op, probe)
      case Err(e) => Err(e)
      case Ok(true) => Ok(Do(MarkCompleted, WasCompleted))
      case Ok(false) =>
        if !p.retryAfterFailedSafe || op.attempt >= p.maxAttempts then Ok(Do(MarkExhausted, WasExhausted))
        else if op.attempt < 1 then Err(PolicyError)
        else Ok(Do(ScheduleRetry(now + Delay(p, op.attempt, unit)), WasScheduled))
  }

  function BeginPlan(p: RetryPolicy, op: Operation, probe: Probe): Result<Plan> {
    if op.kind == Contact && op.attempt > 0 then Err(PolicyError)
    else if op.attempt == 0 then Ok(Do(StartAttempt, WasStarted))
    else match Reconciles(p, op, probe)
      case Err(e) => Err(e)
      case Ok(true) => Ok(Do(MarkCompleted, WasCompleted))
      case Ok(false) => Ok(Do(StartAttempt, WasStarted))
  }

  function Carried(op: Operation, plan: Result<Plan>, now: real): Result<RetryResult> {
    match plan
    case Err(e) => Err(e)
    case Ok(Keep(d)) => Ok(RetryResult(d, op))
    case Ok(Do(cmd, d)) =>
      match Advance(op, cmd, now) case Ok(next) => Ok(RetryResult(d, next)) case Err(e) => Err(e)
  }

  /** schedule_failed_safe, as a function of the table. */
  function ScheduleOn(rows: Rows, id: OpId, p: RetryPolicy, probe: Probe, now: real, unit: real): Result<RetryResult> {
    if id !in rows then Err(NotFound)
    else if rows[id].state != FailedSafe then Err(StateConflict)
    else Carried(rows[id], SchedulePlan(p, rows[id], probe, now, unit), now)
  }

  function BeginOn(rows: Rows, id: OpId, p: RetryPolicy, probe: Probe, now: real): Result<RetryResult> {
    if id !in rows then Err(NotFound)
    else if rows[id].state != Prepared then Err(StateConflict)
    else Carried(rows[id], BeginPlan(p, rows[id], probe), now)
  }

  function Written(rows: Rows, id: OpId, r: Result<RetryResult>): Rows {
    match r case Ok(x) => rows[id := x.op] case Err(_) => rows
  }

  /**
    A failed percept or cognition that was ever attempted ends completed exactly
    on an accepted receipt, exhausted exactly when its attempts are used up, and
    otherwise waits within the jittered backoff; a failed contact stays put.
  */
  lemma ScheduleMeans(op: Operation, p: RetryPolicy, probe: Probe, now: real, unit: real)
    requires ValidOperation(op) && op.state == FailedSafe && op.attempt >= 1 && 0.0 <= unit <= 1.0
    requires ValidPolicy(p) && (p.reconcileBeforeRetry ==> op.kind == Cognition && probe.Some?)
    ensures var r := Carried(op, SchedulePlan(p, op, probe, now, unit), now);
            var accepted := p.reconcileBeforeRetry && probe.value(op);
            var left := p.retryAfterFailedSafe && op.attempt < p.maxAttempts;
            && r.Ok? && ValidOperation(r.value.op) && SameIdentity(op, r.value.op) && r.value.op.attempt == op.attempt
            && (op.kind == Contact ==> r.value == RetryResult(NeedsFreshDecision, op))
            && (op.kind != Contact ==>
                  && (r.value.op.state == Completed <==> accepted) && (r.value.disposition == WasCompleted <==> accepted)
                  && (r.value.op.state == Exhausted <==> !accepted && !left)
                  && (r.value.disposition == WasExhausted <==> !accepted && !left)
                  && (r.value.op.state == RetryWait <==> !accepted && left)
                  && (r.value.disposition == WasScheduled <==> !accepted && left)
                  && r.value.op.updatedAt == now
                  && (r.value.op.state != Completed ==> r.value.op.errorCode == op.errorCode)
                  && (r.value.op.state == RetryWait ==>
                        && r.value.op.nextAttemptAt == Some(now + Delay(p, op.attempt, unit))
                        && now <= r.value.op.nextAttemptAt.value <= now + p.maxBackoff))
  {
    if op.kind != Contact {
      DelayIsBounded(p, op.attempt, unit);
    }
    hide Delay;
  }

  /**
    A waiting operation that is released gets ready, or is completed on an
    accepted receipt; a contact stays as it is.
  */
  lemma ReleaseMeans(op: Operation, p: RetryPolicy, probe: Probe, now: real)
    requires ValidOperation(op) && op.state == RetryWait && op.attempt >= 1
    requires p.reconcileBeforeRetry ==> op.kind == Cognition && probe.Some?
    ensures var r := Carried(op, ReleasePlan(p, op, probe), now);
            var accepted := p.reconcileBeforeRetry && probe.value(op);
            && r.Ok? && ValidOperation(r.value.op) && SameIdentity(op, r.value.op) && r.value.op.attempt == op.attempt
            && (op.kind == Contact ==> r.value == RetryResult(NeedsFreshDecision, op))
            && (op.kind != Contact ==>
                  && r.value.op.updatedAt == now && r.value.op.nextAttemptAt == None
                  && r.value.op.state == (if accepted then Completed else Prepared)
                  && r.value.disposition == (if accepted then WasCompleted else IsReady))
  {
  }

  /**
    begin_attempt refuses a missing row, one that is not prepared and a contact
    tried before; a receipt accepted after an earlier attempt completes the row,
    and every other row starts its next attempt.
  */
  lemma BeginMeans(rows: Rows, id: OpId, p: RetryPolicy, probe: Probe, now: real)
    requires ValidRows(rows) && (p.reconcileBeforeRetry ==> id.kind == Cognition && probe.Some?) && NamedRows(rows)
    ensures var r := BeginOn(rows, id, p, probe, now);
            && (r == Err(NotFound) <==> id !in rows)
            && (r == Err(StateConflict) <==> id in rows && rows[id].state != Prepared)
            && (r == Err(PolicyError) <==>
                  id in rows && rows[id].state == Prepared && rows[id].kind == Contact && rows[id].attempt > 0)
            && (r.Ok? ==>
                  var op := rows[id];
                  var accepted := op.attempt > 0 && p.reconcileBeforeRetry && probe.value(op);
                  && SameIdentity(op, r.value.op) && r.value.op.updatedAt == now
                  && r.value.op.state == (if accepted then Completed else InFlight)
                  && r.value.op.attempt == op.attempt + (if accepted then 0 else 1)
                  && r.value.disposition == (if accepted then WasCompleted else WasStarted))
            && (r.Err? ==> r.error in {NotFound, StateConflict, PolicyError})
  {
    if id in rows {
      assert ValidOperation(rows[id]) && rows[id].kind == id.kind;
    }
    hide ValidRows, NamedRows, IsSafeToken;
  }

  // ------------------------------------------------------------- whole listings

  /** Waiting for a retry whose time has come. */
  ghost predicate WaitsDue(rows: Rows, kind: RetryClass, now: real, id: OpId) {
    && id in rows && rows[id].kind == kind && rows[id].state == RetryWait
    && rows[id].nextAttemptAt.Some? && rows[id].nextAttemptAt.value <= now
  }

  /** One of the first `limit` of them, by due time and then by id. */
  ghost predicate FirstDue(rank: OpId -> real, rows: Rows, kind: RetryClass, now: real, limit: int, id: OpId) {
    && WaitsDue(rows, kind, now, id)
    && |set j | j in rows && WaitsDue(rows, kind, now, j)
                && (rows[j].nextAttemptAt.value < rows[id].nextAttemptAt.value
                    || (rows[j].nextAttemptAt == rows[id].nextAttemptAt && rank(j) < rank(id)))| < limit
  }

  lemma ChosenIsDue(rank: OpId -> real, rows: Rows, kind: RetryClass, now: real, limit: nat, chosen: set<OpId>, id: OpId)
    requires Ranked(rank) && FirstOf(rank, DueAt(rows), chosen, DueIds(rows, kind, now), limit)
    ensures id in chosen <==> FirstDue(rank, rows, kind, now, limit, id)
  {
    assert id in DueIds(rows, kind, now) <==> WaitsDue(rows, kind, now, id);
    if id in DueIds(rows, kind, now) {
      OldestIff(rank, DueAt(rows), chosen, DueIds(rows, kind, now), limit, id);
      assert AheadBy(rank, DueAt(rows), DueIds(rows, kind, now), id)
          == set j | j in rows && WaitsDue(rows, kind, now, j)
                     && (rows[j].nextAttemptAt.value < rows[id].nextAttemptAt.value
                         || (rows[j].nextAttemptAt == rows[id].nextAttemptAt && rank(j) < rank(id)));
    }
  }

  lemma ListingIsDue(rank: OpId -> real, rows: Rows, kind: RetryClass, now: real, limit: nat, ids: seq<OpId>)
    requires Ranked(rank) && Listing(rank, DueAt(rows), ids, DueIds(rows, kind, now), limit)
    ensures forall id :: id in ids <==> FirstDue(rank, rows, kind, now, limit, id)
  {
    hide FirstDue, DueAt, DueIds, FirstOf;
    forall id ensures id in ids <==> FirstDue(rank, rows, kind, now, limit, id) {
      ChosenIsDue(rank, rows, kind, now, limit, Elements(ids), id);
      assert id in ids <==> id in Elements(ids);
    }
  }

  lemma AllChosenFailed(rank: OpId -> real, rows: Rows, kind: RetryClass, limit: nat, chosen: set<OpId>)
    requires Ranked(rank) && FirstOf(rank, Created(rows), chosen, InState(rows, kind, FailedSafe), limit)
    ensures forall id :: id in chosen <==> FirstFailedSafe(rank, rows, kind, limit, id)
  {
    hide FirstFailedSafe, FirstOf, InState, Created;
    forall id ensures id in chosen <==> FirstFailedSafe(rank, rows, kind, limit, id) {
      ChosenIsFailed(rank, rows, kind, limit, chosen, id);
    }
  }

  /** One of the first `limit` failed operations of its class, by age and then by id. */
  ghost predicate FirstFailedSafe(rank: OpId -> real, rows: Rows, kind: RetryClass, limit: int, id: OpId) {
    && id in rows && rows[id].kind == kind && rows[id].state == FailedSafe
    && |set j | j in rows && rows[j].kind == kind && rows[j].state == FailedSafe
                && (rows[j].createdAt < rows[id].createdAt
                    || (rows[j].createdAt == rows[id].createdAt && rank(j) < rank(id)))| < limit
  }

  lemma ChosenIsFailed(rank: OpId -> real, rows: Rows, kind: RetryClass, limit: nat, chosen: set<OpId>, id: OpId)
    requires Ranked(rank) && FirstOf(rank, Created(rows), chosen, InState(rows, kind, FailedSafe), limit)
    ensures id in chosen <==> FirstFailedSafe(rank, rows, kind, limit, id)
  {
    if id in InState(rows, kind, FailedSafe) {
      OldestIff(rank, Created(rows), chosen, InState(rows, kind, FailedSafe), limit, id);
      assert AheadBy(rank, Created(rows), InState(rows, kind, FailedSafe), id)
          == set j | j in rows && rows[j].kind == kind && rows[j].state == FailedSafe
                     && (rows[j].createdAt < rows[id].createdAt
                         || (rows[j].createdAt == rows[id].createdAt && rank(j) < rank(id)));
    }
  }

  /** The rows of `chosen` each taken to `f` of themselves. */
  function Mapped(rows: Rows, chosen: set<OpId>, f: Operation -> Operation): Rows {
    map id | id in rows :: if id in chosen then f(rows[id]) else rows[id]
  }

  /** `chosen` is the first `limit` of `eligible` by (at, id). */
  ghost predicate FirstOf(rank: OpId -> real, at: map<OpId, real>, chosen: set<OpId>, eligible: set<OpId>, limit: nat) {
    OldestOf(rank, at, chosen, eligible) && |chosen| == Min(limit, |eligible|)
  }

  function InState(rows: Rows, kind: RetryClass, state: OperationState): set<OpId> {
    set id | id in rows && rows[id].kind == kind && rows[id].state == state
  }

  function DueAt(rows: Rows): map<OpId, real> {
    map id | id in rows && rows[id].nextAttemptAt.Some? :: rows[id].nextAttemptAt.value
  }

  /** The waiting operations whose time has come. */
  function DueIds(rows: Rows, kind: RetryClass, now: real): set<OpId> {
    set id | id in rows && rows[id].kind == kind && rows[id].state == RetryWait
             && rows[id].nextAttemptAt.Some? && rows[id].nextAttemptAt.value <= now
  }

  function TakenTo(r: Result<RetryResult>, op: Operation): Operation {
    match r case Ok(x) => x.op case Err(_) => op
  }

  /** What release_due makes of one due operation. */
  function ReleasePlan(p: RetryPolicy, op: Operation, probe: Probe): Result<Plan> {
    if op.kind == Contact then Ok(Keep(NeedsFreshDecision))
    else match Reconciles(p, op, probe)
      case Err(e) => Err(e)
      case Ok(true) => Ok(Do(MarkCompleted, WasCompleted))
      case Ok(false) => Ok(Do(MakeRetryReady, IsReady))
  }

  function Released(policies: Registry, probe: Probe, now: real): Operation -> Operation {
    (op: Operation) => TakenTo(Carried(op, ReleasePlan(policies(op.kind), op, probe), now), op)
  }

  function Rescheduled(policies: Registry, probe: Probe, now: real, unit: Operation -> real): Operation -> Operation {
    (op: Operation) => TakenTo(Carried(op, SchedulePlan(policies(op.kind), op, probe, now, unit(op)), now), op)
  }

  const PERCEPT_RESTART := "process_restart_idempotent_replay_safe"
  const COGNITION_RESTART := "process_restart_no_accepted_receipt"

  /** A sweep first fails the interrupted operation safe, then schedules it. */
  function Resumed(policies: Registry, probe: Probe, now: real, unit: Operation -> real, code: string): Operation -> Operation {
    (op: Operation) =>
      match Advance(op, MarkFailedSafe(Some(code)), now)
      case Err(_) => op
      case Ok(failed) => Rescheduled(policies, probe, now, unit)(failed)
  }

  function Recovered(policies: Registry, probe: Probe, now: real, unit: Operation -> real): Operation -> Operation {
    (op: Operation) =>
      if probe.Some? && probe.value(op) then TakenTo(Carried(op, Ok(Do(MarkCompleted, WasCompleted)), now), op)
      else Resumed(policies, probe, now, unit, COGNITION_RESTART)(op)
  }

  /** A row that has left PREPARED was attempted. */
  lemma {:induction false} AttemptedRow(first: Operation, steps: seq<Stamp>)
    requires InitialOperation(first) && Replay(first, steps).Ok?
    ensures var op := Replay(first, steps).value;
            ValidOperation(op) && (op.state != Prepared ==> op.attempt >= 1)
  {
    if steps != [] {
      AttemptedRow(first, steps[..|steps| - 1]);
    }
  }

  // ------------------------------------------------------------- one listing item

  lemma ElementsGrow(ids: seq<OpId>, n: nat)
    requires n < |ids|
    ensures Elements(ids[..n + 1]) == Elements(ids[..n]) + {ids[n]}
  {
    assert ids[..n + 1] == ids[..n] + [ids[n]];
  }

  lemma MapsOneMore(rows: Rows, ids: seq<OpId>, n: nat, f: Operation -> Operation)
    requires n < |ids| && ids[n] in rows && forall i, j | 0 <= i < j < |ids| :: ids[i] != ids[j]
    ensures var before := Mapped(rows, Elements(ids[..n]), f);
            && ids[n] in before && before[ids[n]] == rows[ids[n]]
            && before[ids[n] := f(rows[ids[n]])] == Mapped(rows, Elements(ids[..n + 1]), f)
            && (f(rows[ids[n]]) == rows[ids[n]] ==> before == Mapped(rows, Elements(ids[..n + 1]), f))
  {
    ElementsGrow(ids, n);
    assert ids[n] !in Elements(ids[..n]);
    hide Elements;
  }

  lemma MapsNone(rows: Rows, ids: seq<OpId>, f: Operation -> Operation)
    ensures Mapped(rows, Elements(ids[..0]), f) == rows
  {
  }

  /** Receipt reconciliation is set up for cognition only, and a probe is given where one is needed. */
  predicate Supported(p: RetryPolicy, kind: RetryClass, probe: Probe) {
    p.reconcileBeforeRetry ==> kind == Cognition && probe.Some?
  }

  /** On a durable row the scheduling call of a listing always goes through. */
  lemma ScheduleGoes(op: Operation, p: RetryPolicy, probe: Probe, now: real, unit: real)
    requires ValidOperation(op) && op.state == FailedSafe && op.attempt >= 1 && Supported(p, op.kind, probe)
    ensures Carried(op, SchedulePlan(p, op, probe, now, unit), now).Ok?
  {
    hide Delay;
  }

  lemma ReleaseGoes(op: Operation, p: RetryPolicy, probe: Probe, now: real)
    requires ValidOperation(op) && op.state == RetryWait && op.attempt >= 1 && Supported(p, op.kind, probe)
    ensures Carried(op, ReleasePlan(p, op, probe), now).Ok?
  {
  }

  lemma FailGoes(op: Operation, code: string, now: real)
    requires ValidOperation(op) && op.state == InFlight && IsSafeToken(code)
    ensures Advance(op, MarkFailedSafe(Some(code)), now).Ok?
    ensures var failed := Advance(op, MarkFailedSafe(Some(code)), now).value;
            ValidOperation(failed) && failed.state == FailedSafe && failed.attempt == op.attempt && SameIdentity(op, failed)
  {
    BuildIsSound(op, MarkFailedSafe(Some(code)), now);
  }

  class RetryEngine {
    const store: Store
    const policies: Registry
    /** The deterministic jitter of an operation's attempt. */
    const unit: Operation -> real

    ghost predicate Valid()
      reads store
    {
      store.Valid() && Ranked(store.rank) && GoodRegistry(policies) && forall op :: 0.0 <= unit(op) <= 1.0
    }

    constructor (store: Store, policies: Registry, unit: Operation -> real)
      requires store.Valid() && Ranked(store.rank) && GoodRegistry(policies) && forall op :: 0.0 <= unit(op) <= 1.0
      ensures Valid() && this.store == store && this.policies == policies && this.unit == unit
    {
      this.store, this.policies, this.unit := store, policies, unit;
    }

    /** Carry a plan out on the row just read. */
    method Carry(op: Operation, plan: Result<Plan>, now: real) returns (r: Result<RetryResult>)
      requires Valid() && op.id in store.rows && store.rows[op.id] == op
      modifies store`rows, store`journal
      ensures Valid() && r == Carried(op, plan, now) && store.rows == Written(old(store.rows), op.id, r)
    {
      hide GoodRegistry, Explains, Advance;
      if plan.Err? {
        return Err(plan.error);
      }
      match plan.value
      case Keep(d) =>
        return Ok(RetryResult(d, op));
      case Do(cmd, d) =>
        var next := store.Transition(op.id, cmd, now);
        r := match next case Ok(o) => Ok(RetryResult(d, o)) case Err(e) => Err(e);
    }

    method ScheduleFailedSafe(id: OpId, now: real, probe: Probe) returns (r: Result<RetryResult>)
      requires Valid()
      modifies store`rows, store`journal
      ensures Valid()
      ensures r == if id !in old(store.rows) then Err(NotFound)
                   else ScheduleOn(old(store.rows), id, policies(old(store.rows)[id].kind), probe, now, unit(old(store.rows)[id]))
      ensures store.rows == Written(old(store.rows), id, r)
    {
      var op := store.Get(id);
      if op.None? {
        return Err(NotFound);
      }
      if op.value.state != FailedSafe {
        return Err(StateConflict);
      }
      hide GoodRegistry, Explains, SchedulePlan, Carried;
      r := Carry(op.value, SchedulePlan(policies(op.value.kind), op.value, probe, now, unit(op.value)), now);
    }

    method BeginAttempt(id: OpId, now: real, probe: Probe) returns (r: Result<RetryResult>)
      requires Valid()
      modifies store`rows, store`journal
      ensures Valid()
      ensures r == if id !in old(store.rows) then Err(NotFound)
                   else BeginOn(old(store.rows), id, policies(old(store.rows)[id].kind), probe, now)
      ensures store.rows == Written(old(store.rows), id, r)
    {
      var op := store.Get(id);
      if op.None? {
        return Err(NotFound);
      }
      if op.value.state != Prepared {
        return Err(StateConflict);
      }
      hide GoodRegistry, Explains, BeginPlan, Carried;
      r := Carry(op.value, BeginPlan(policies(op.value.kind), op.value, probe), now);
    }

    /** Read due RETRY_WAIT operations without changing anything. */
    method DueOperations(now: real, kind: RetryClass, limit: int) returns (r: Result<seq<OpId>>)
      requires Valid()
      ensures r.Ok? <==> 1 <= limit <= 1000
      ensures r.Err? ==> r.error == InvalidValue
      ensures r.Ok? ==> Listing(store.rank, DueAt(store.rows), r.value, DueIds(store.rows, kind, now), limit)
      ensures r.Ok? ==> forall id :: id in r.value <==> FirstDue(store.rank, store.rows, kind, now, limit, id)
    {
      if limit < 1 || limit > 1000 {
        return Err(InvalidValue);
      }
      hide GoodRegistry, Explains, ValidOperation, Earlier, Listing, DueAt, InitialOperation, DueIds, Elements;
      var candidates := store.ListOperations(kind, RetryWait);
      var due := FilterDue(candidates, kind, now);
      DueHaveTimes(store.rows, kind, now);
      var q := Ordered(store.rank, due, DueAt(store.rows));
      HeadIsListing(store.rank, DueAt(store.rows), q, due, limit);
      ListingIsDue(store.rank, store.rows, kind, now, limit, Take(q, limit));
      hide FirstDue;
      return Ok(Take(q, limit));
    }

    method FilterDue(candidates: seq<OpId>, kind: RetryClass, now: real) returns (due: set<OpId>)
      requires Lists(candidates, InState(store.rows, kind, RetryWait))
      ensures due == DueIds(store.rows, kind, now)
    {
      due := {};
      for n := 0 to |candidates|
        invariant due == DueIds(store.rows, kind, now) * Elements(candidates[..n])
      {
        ElementsGrow(candidates, n);
        assert candidates[n] in candidates;
        var at := store.rows[candidates[n]].nextAttemptAt;
        if at.Some? && at.value <= now {
          due := due + {candidates[n]};
        }
      }
      assert candidates[..|candidates|] == candidates;
    }

    /** Each due operation moves on by one transition, the earliest `limit` of them. */
    method ReleaseDue(now: real, kind: RetryClass, limit: int, probe: Probe)
      returns (r: Result<seq<RetryResult>>, ghost chosen: set<OpId>)
      requires Valid()
      modifies store`rows, store`journal
      ensures Valid()
      ensures FirstOf(store.rank, DueAt(old(store.rows)), chosen, DueIds(old(store.rows), kind, now), Max(limit))
      ensures r.Ok? ==> forall id :: id in chosen <==> FirstDue(store.rank, old(store.rows), kind, now, limit, id)
      ensures r.Ok? <==> 1 <= limit <= 1000 && (chosen != {} ==> Supported(policies(kind), kind, probe))
      ensures store.rows == if r.Ok? then Mapped(old(store.rows), chosen, Released(policies, probe, now)) else old(store.rows)
      ensures r.Ok? ==> |r.value| == (if kind == Contact then 0 else |chosen|) && Reports(store.rows, chosen, r.value)
    {
      var due := DueOperations(now, kind, limit);
      if due.Err? {
        NothingChosen(store.rank, DueAt(store.rows), DueIds(store.rows, kind, now));
        return Err(InvalidValue), {};
      }
      var ids := due.value;
      chosen := Elements(ids);
      hide FirstDue;
      assert ids != [] ==> ids[0] in chosen;
      if ids != [] && !Supported(policies(kind), kind, probe) {
        return Err(PolicyError), chosen;
      }
      ListingMeans(store.rank, DueAt(store.rows), ids, DueIds(store.rows, kind, now), limit);
      hide GoodRegistry, Explains, Listing, FirstOf, Reports, Mapped, Released, DueAt, Supported, ValidRows,
           InitialOperation, DueIds, Elements;
      var results := ReleaseAll(ids, kind, now, probe);
      return Ok(results), chosen;
    }

    method ReleaseAll(ids: seq<OpId>, kind: RetryClass, now: real, probe: Probe) returns (results: seq<RetryResult>)
      requires Valid() && (ids != [] ==> Supported(policies(kind), kind, probe))
      requires forall i, j | 0 <= i < j < |ids| :: ids[i] != ids[j]
      requires forall i | 0 <= i < |ids| :: ids[i] in DueIds(store.rows, kind, now)
      modifies store`rows, store`journal
      ensures Valid() && store.rows == Mapped(old(store.rows), Elements(ids), Released(policies, probe, now))
      ensures |results| == (if kind == Contact then 0 else |ids|) && Reports(store.rows, Elements(ids), results)
    {
      hide GoodRegistry, Explains, Reports, Mapped, Released, Supported, ValidRows, InitialOperation, DueIds,
           Elements;
      ghost var was, f := store.rows, Released(policies, probe, now);
      results := [];
      MapsNone(was, ids, f);
      NoReports(was);
      for n := 0 to |ids|
        invariant Valid() && store.rows == Mapped(was, Elements(ids[..n]), f)
        invariant |results| == (if kind == Contact then 0 else n) && Reports(store.rows, Elements(ids[..n]), results)
      {
        var released := ReleaseOne(ids[n], kind, now, probe, was, ids, n);
        ReportsGrow(was, ids, n, f, results, released);
        if released.Some? {
          results := results + [released.value];
        }
      }
      assert ids[..|ids|] == ids;
    }

    /** One turn of the release loop. */
    method ReleaseOne(id: OpId, kind: RetryClass, now: real, probe: Probe, ghost was: Rows, ghost ids: seq<OpId>, ghost n: nat)
      returns (r: Option<RetryResult>)
      requires Valid() && Supported(policies(kind), kind, probe)
      requires n < |ids| && id == ids[n] && id in DueIds(was, kind, now)
      requires forall i, j | 0 <= i < j < |ids| :: ids[i] != ids[j]
      requires store.rows == Mapped(was, Elements(ids[..n]), Released(policies, probe, now))
      modifies store`rows, store`journal
      ensures Valid() && store.rows == Mapped(was, Elements(ids[..n + 1]), Released(policies, probe, now))
      ensures kind == Contact ==> r == None
      ensures id in was
      ensures kind != Contact ==> r.Some? && r.value.op.id == id && store.rows[id] == r.value.op
    {
      hide GoodRegistry, Explains, Mapped, ValidRows, InitialOperation, Elements, ReleasePlan, Carried;
      MapsOneMore(was, ids, n, Released(policies, probe, now));
      RowWasAttempted(id);
      var op := store.rows[id];
      if op.kind == Contact {
        KeptContact(policies, probe, now, op);
        return None;
      }
      ReleaseGoes(op, policies(op.kind), probe, now);
      var released := Carry(op, ReleasePlan(policies(op.kind), op, probe), now);
      CarriedKeepsId(op, ReleasePlan(policies(op.kind), op, probe), now);
      r := Some(released.value);
    }

    /** Resume durable FAILED_SAFE operations, the oldest `limit` of them. */
    method SchedulePendingFailedSafe(now: real, kind: RetryClass, limit: int, probe: Probe)
      returns (r: Result<seq<RetryResult>>, ghost chosen: set<OpId>)
      requires Valid()
      modifies store`rows, store`journal
      ensures Valid()
      ensures FirstOf(store.rank, Created(old(store.rows)), chosen, InState(old(store.rows), kind, FailedSafe), Max(limit))
      ensures r.Ok? ==> forall id :: id in chosen <==> FirstFailedSafe(store.rank, old(store.rows), kind, limit, id)
      ensures r.Ok? <==> 1 <= limit <= 1000 && (chosen != {} ==> Supported(policies(kind), kind, probe))
      ensures store.rows == if r.Ok? then Mapped(old(store.rows), chosen, Rescheduled(policies, probe, now, unit))
                            else old(store.rows)
      ensures r.Ok? ==> |r.value| == |chosen| && Reports(store.rows, chosen, r.value)
    {
      if limit < 1 || limit > 1000 {
        NothingChosen(store.rank, Created(store.rows), InState(store.rows, kind, FailedSafe));
        return Err(InvalidValue), {};
      }
      var q := store.ListOperations(kind, FailedSafe);
      HeadIsListing(store.rank, Created(store.rows), q, InState(store.rows, kind, FailedSafe), limit);
      var ids := Take(q, limit);
      chosen := Elements(ids);
      ListingMeans(store.rank, Created(store.rows), ids, InState(store.rows, kind, FailedSafe), limit);
      AllChosenFailed(store.rank, store.rows, kind, limit, chosen);
      hide FirstFailedSafe;
      assert ids != [] ==> ids[0] in chosen;
      if ids != [] && !Supported(policies(kind), kind, probe) {
        return Err(PolicyError), chosen;
      }
      hide GoodRegistry, Explains, Listing, FirstOf, Reports, Mapped, Rescheduled, Created, Supported, ValidRows,
           InitialOperation, InState, Elements;
      var results := ScheduleAll(ids, kind, now, probe);
      return Ok(results), chosen;
    }

    method ScheduleAll(ids: seq<OpId>, kind: RetryClass, now: real, probe: Probe) returns (results: seq<RetryResult>)
      requires Valid() && (ids != [] ==> Supported(policies(kind), kind, probe))
      requires forall i, j | 0 <= i < j < |ids| :: ids[i] != ids[j]
      requires forall i | 0 <= i < |ids| :: ids[i] in InState(store.rows, kind, FailedSafe)
      modifies store`rows, store`journal
      ensures Valid() && store.rows == Mapped(old(store.rows), Elements(ids), Rescheduled(policies, probe, now, unit))
      ensures |results| == |ids| && Reports(store.rows, Elements(ids), results)
    {
      hide GoodRegistry, Explains, Reports, Mapped, Rescheduled, Supported, ValidRows, InitialOperation, InState,
           Elements, ScheduleOn;
      ghost var was, f := store.rows, Rescheduled(policies, probe, now, unit);
      results := [];
      MapsNone(was, ids, f);
      NoReports(was);
      for n := 0 to |ids|
        invariant Valid() && store.rows == Mapped(was, Elements(ids[..n]), f)
        invariant |results| == n && Reports(store.rows, Elements(ids[..n]), results)
      {
        var result := ScheduleOne(ids[n], kind, now, probe, was, ids, n);
        ReportsGrow(was, ids, n, f, results, Some(result));
        results := results + [result];
      }
      assert ids[..|ids|] == ids;
    }

    method ScheduleOne(id: OpId, kind: RetryClass, now: real, probe: Probe, ghost was: Rows, ghost ids: seq<OpId>, ghost n: nat)
      returns (r: RetryResult)
      requires Valid() && Supported(policies(kind), kind, probe)
      requires n < |ids| && id == ids[n] && id in InState(was, kind, FailedSafe)
      requires forall i, j | 0 <= i < j < |ids| :: ids[i] != ids[j]
      requires store.rows == Mapped(was, Elements(ids[..n]), Rescheduled(policies, probe, now, unit))
      modifies store`rows, store`journal
      ensures Valid() && store.rows == Mapped(was, Elements(ids[..n + 1]), Rescheduled(policies, probe, now, unit))
      ensures id in was && r.op.id == id && store.rows[id] == r.op
    {
      hide GoodRegistry, Explains, Mapped, ValidRows, InitialOperation, Elements, SchedulePlan, Carried;
      MapsOneMore(was, ids, n, Rescheduled(policies, probe, now, unit));
      RowWasAttempted(id);
      var op := store.rows[id];
      ScheduleGoes(op, policies(op.kind), probe, now, unit(op));
      CarriedKeepsId(op, SchedulePlan(policies(op.kind), op, probe, now, unit(op)), now);
      var scheduled := ScheduleFailedSafe(id, now, probe);
      r := scheduled.value;
    }

    /**
      Every interrupted percept is failed safe and scheduled: its replay is
      idempotent. A policy that asks for receipts makes scheduling the first one
      raise, after it was failed safe.
    */
    method RecoverInterruptedPercept(now: real) returns (r: Result<seq<RetryResult>>)
      requires Valid()
      modifies store`rows, store`journal
      ensures Valid()
      ensures r.Ok? <==> !policies(Percept).reconcileBeforeRetry || InState(old(store.rows), Percept, InFlight) == {}
      ensures r.Ok? ==>
                && store.rows == Mapped(old(store.rows), InState(old(store.rows), Percept, InFlight),
                                        Resumed(policies, None, now, unit, PERCEPT_RESTART))
                && |r.value| == |InState(old(store.rows), Percept, InFlight)|
      ensures r.Err? ==> r.error == PolicyError && FirstFailed(store.rank, old(store.rows), store.rows, now)
    {
      var ids := store.ListOperations(Percept, InFlight);
      ListedAll(ids, InState(store.rows, Percept, InFlight));
      hide GoodRegistry, Explains, Mapped, Resumed, ValidRows, InitialOperation, InState, Elements, FirstFailed;
      assert ids == [] <==> InState(store.rows, Percept, InFlight) == {} by { ListsNothing(ids, InState(store.rows, Percept, InFlight)); }
      if ids != [] && policies(Percept).reconcileBeforeRetry {
        FailFirst(ids, now);
        return Err(PolicyError);
      }
      var results := ResumeAll(ids, now);
      return Ok(results);
    }

    method ResumeAll(ids: seq<OpId>, now: real) returns (results: seq<RetryResult>)
      requires Valid() && (ids != [] ==> !policies(Percept).reconcileBeforeRetry)
      requires forall i, j | 0 <= i < j < |ids| :: ids[i] != ids[j]
      requires forall i | 0 <= i < |ids| :: ids[i] in InState(store.rows, Percept, InFlight)
      modifies store`rows, store`journal
      ensures Valid() && |results| == |ids|
      ensures store.rows == Mapped(old(store.rows), Elements(ids), Resumed(policies, None, now, unit, PERCEPT_RESTART))
    {
      SafeCodes();
      hide GoodRegistry, Explains, Mapped, Resumed, ValidRows, InitialOperation, InState, Elements, IsSafeToken;
      ghost var was, f := store.rows, Resumed(policies, None, now, unit, PERCEPT_RESTART);
      results := [];
      MapsNone(was, ids, f);
      for n := 0 to |ids|
        invariant Valid() && store.rows == Mapped(was, Elements(ids[..n]), f) && |results| == n
      {
        var result := ResumeOne(ids[n], Percept, now, None, PERCEPT_RESTART, was, ids, n, f);
        results := results + [result];
      }
      assert ids[..|ids|] == ids;
    }

    method FailFirst(ids: seq<OpId>, now: real)
      requires Valid() && ids != [] && Lists(ids, InState(store.rows, Percept, InFlight))
      requires forall i, j | 0 <= i < j < |ids| :: Earlier(store.rank, Created(store.rows), ids[i], ids[j])
      modifies store`rows, store`journal
      ensures Valid() && FirstFailed(store.rank, old(store.rows), store.rows, now)
    {
      hide GoodRegistry, Explains, ValidRows, InitialOperation, Elements, IsSafeToken, Advance, FirstFailed, Earlier;
      ghost var was := store.rows;
      SafeCodes();
      assert ids[0] in ids;
      RowWasAttempted(ids[0]);
      FailGoes(store.rows[ids[0]], PERCEPT_RESTART, now);
      var _ := store.Transition(ids[0], MarkFailedSafe(Some(PERCEPT_RESTART)), now);
      assert store.rows[ids[0]].state == FailedSafe;
      FirstIs(store.rank, was, store.rows, ids, now);
    }

    /** mark_failed_safe, then schedule_failed_safe. */
    method ResumeOne(id: OpId, kind: RetryClass, now: real, probe: Probe, code: string,
                     ghost was: Rows, ghost ids: seq<OpId>, ghost n: nat, ghost f: Operation -> Operation)
      returns (r: RetryResult)
      requires Valid() && Supported(policies(kind), kind, probe) && IsSafeToken(code)
      requires n < |ids| && id == ids[n] && id in InState(was, kind, InFlight)
      requires f(was[id]) == Resumed(policies, probe, now, unit, code)(was[id])
      requires forall i, j | 0 <= i < j < |ids| :: ids[i] != ids[j]
      requires store.rows == Mapped(was, Elements(ids[..n]), f)
      modifies store`rows, store`journal
      ensures Valid() && store.rows == Mapped(was, Elements(ids[..n + 1]), f)
      ensures id in store.rows && store.rows[id] == r.op && (kind != Contact ==> Told(r))
    {
      hide GoodRegistry, Explains, Mapped, ValidRows, InitialOperation, Elements, SchedulePlan, Carried, Advance,
           IsSafeToken, Resumed, Told;
      MapsOneMore(was, ids, n, f);
      RowWasAttempted(id);
      FailGoes(store.rows[id], code, now);
      ResumedIs(policies, probe, now, unit, code, store.rows[id]);
      var failed := store.Transition(id, MarkFailedSafe(Some(code)), now);
      ScheduleGoes(failed.value, policies(kind), probe, now, unit(failed.value));
      CarriedKeepsId(failed.value, SchedulePlan(policies(kind), failed.value, probe, now, unit(failed.value)), now);
      ScheduleTells(failed.value, policies(kind), probe, now, unit(failed.value));
      var scheduled := ScheduleFailedSafe(id, now, probe);
      r := scheduled.value;
    }

    /**
      A receipt completes an interrupted cognition; without one it is failed safe
      and scheduled. Each result tells what became of one of `ids`.
    */
    method RecoverInterruptedCognition(now: real, accepted: Operation -> bool)
      returns (results: seq<RetryResult>, ghost ids: seq<OpId>)
      requires Valid()
      modifies store`rows, store`journal
      ensures Valid()
      ensures store.rows == Mapped(old(store.rows), InState(old(store.rows), Cognition, InFlight),
                                   Recovered(policies, Some(accepted), now, unit))
      ensures Lists(ids, InState(old(store.rows), Cognition, InFlight)) && Tells(store.rows, ids, results)
    {
      var q := store.ListOperations(Cognition, InFlight);
      ids := q;
      ListedAll(q, InState(store.rows, Cognition, InFlight));
      hide GoodRegistry, Explains, Mapped, Recovered, ValidRows, InitialOperation, InState, Elements, Tells;
      ghost var was, f := store.rows, Recovered(policies, Some(accepted), now, unit);
      results := [];
      MapsNone(was, q, f);
      TellsNothing(was, q);
      for n := 0 to |q|
        invariant Valid() && store.rows == Mapped(was, Elements(q[..n]), f) && |results| == n
        invariant Tells(store.rows, q[..n], results)
      {
        ghost var before := store.rows;
        var result := RecoverOne(q[n], now, accepted, was, q, n);
        TellsOneMore(was, q, n, f, results, result);
        results := results + [result];
      }
      assert q[..|q|] == q;
    }

    method RecoverOne(id: OpId, now: real, accepted: Operation -> bool, ghost was: Rows, ghost ids: seq<OpId>, ghost n: nat)
      returns (r: RetryResult)
      requires Valid() && n < |ids| && id == ids[n] && id in InState(was, Cognition, InFlight)
      requires forall i, j | 0 <= i < j < |ids| :: ids[i] != ids[j]
      requires store.rows == Mapped(was, Elements(ids[..n]), Recovered(policies, Some(accepted), now, unit))
      modifies store`rows, store`journal
      ensures Valid() && store.rows == Mapped(was, Elements(ids[..n + 1]), Recovered(policies, Some(accepted), now, unit))
      ensures id in store.rows && store.rows[id] == r.op && Told(r)
    {
      ghost var f := Recovered(policies, Some(accepted), now, unit);
      hide GoodRegistry, Explains, Mapped, ValidRows, InitialOperation, Elements;
      MapsOneMore(was, ids, n, f);
      var op := store.rows[id];
      if accepted(op) {
        RowWasAttempted(id);
        CompleteGoes(op, now);
        CompleteTells(op, now);
        var completed := Carry(op, Ok(Do(MarkCompleted, WasCompleted)), now);
        return completed.value;
      }
      SafeCodes();
      hide Recovered;
      RecoveredResumes(policies, accepted, now, unit, op);
      r := ResumeOne(id, Cognition, now, Some(accepted), COGNITION_RESTART, was, ids, n, f);
    }

    /** A live row that has left PREPARED was attempted. */
    lemma RowWasAttempted(id: OpId)
      requires Valid() && id in store.rows
      ensures ValidOperation(store.rows[id]) && store.rows[id].id == id
      ensures store.rows[id].state != Prepared ==> store.rows[id].attempt >= 1
    {
      AttemptedRow(store.journal[id].first, store.journal[id].steps);
    }
  }

  function Max(limit: int): nat {
    if 1 <= limit <= 1000 then limit else 0
  }

  /** The first `limit` of `eligible`, in order. */
  ghost predicate Listing(rank: OpId -> real, at: map<OpId, real>, ids: seq<OpId>, eligible: set<OpId>, limit: nat) {
    && FirstOf(rank, at, Elements(ids), eligible, limit) && |ids| == Min(limit, |eligible|)
    && (forall i, j | 0 <= i < j < |ids| :: Earlier(rank, at, ids[i], ids[j]) && ids[i] != ids[j])
  }

  lemma HeadIsListing(rank: OpId -> real, at: map<OpId, real>, q: seq<OpId>, eligible: set<OpId>, limit: nat)
    requires Lists(q, eligible) && forall i, j | 0 <= i < j < |q| :: Earlier(rank, at, q[i], q[j])
    ensures Listing(rank, at, Take(q, limit), eligible, limit)
  {
    var head := Take(q, limit);
    var chosen := Elements(head);
    assert head == q[..|head|];
    forall id | id in chosen ensures id in eligible {
      assert id in q;
    }
    PrefixIsOldest(rank, at, q, |head|, chosen, eligible);
    DistinctCount(head);
  }

  lemma DueHaveTimes(rows: Rows, kind: RetryClass, now: real)
    ensures DueIds(rows, kind, now) <= DueAt(rows).Keys
  {
  }

  lemma NothingChosen(rank: OpId -> real, at: map<OpId, real>, eligible: set<OpId>)
    ensures FirstOf(rank, at, {}, eligible, 0)
  {
  }

  /** Each result names a row of the listing, as it is now. */
  ghost predicate Reports(rows: Rows, ids: set<OpId>, results: seq<RetryResult>) {
    forall x | x in results :: x.op.id in ids && x.op.id in rows && rows[x.op.id] == x.op
  }

  /** The disposition says in which state the operation is. */
  predicate Told(r: RetryResult) {
    match r.op.state
    case Completed => r.disposition == WasCompleted
    case RetryWait => r.disposition == WasScheduled
    case Exhausted => r.disposition == WasExhausted
    case _ => false
  }

  /** The results tell of `ids`, one by one. */
  ghost predicate Tells(rows: Rows, ids: seq<OpId>, results: seq<RetryResult>) {
    |results| == |ids| && forall i | 0 <= i < |ids| :: ids[i] in rows && results[i].op == rows[ids[i]] && Told(results[i])
  }

  lemma TellsNothing(rows: Rows, ids: seq<OpId>)
    ensures Tells(rows, ids[..0], [])
  {
  }

  lemma TellsOneMore(was: Rows, ids: seq<OpId>, n: nat, f: Operation -> Operation, results: seq<RetryResult>, r: RetryResult)
    requires n < |ids| && ids[n] in was && forall i, j | 0 <= i < j < |ids| :: ids[i] != ids[j]
    requires Tells(Mapped(was, Elements(ids[..n]), f), ids[..n], results) && Told(r)
    requires var after := Mapped(was, Elements(ids[..n + 1]), f); ids[n] in after && after[ids[n]] == r.op
    ensures Tells(Mapped(was, Elements(ids[..n + 1]), f), ids[..n + 1], results + [r])
  {
    var before, after := Mapped(was, Elements(ids[..n]), f), Mapped(was, Elements(ids[..n + 1]), f);
    ElementsGrow(ids, n);
    forall i | 0 <= i < n ensures ids[i] in after && after[ids[i]] == before[ids[i]] {
      assert ids[..n][i] == ids[i] && ids[i] != ids[n];
    }
    hide Elements, Mapped, Told;
  }

  /** Scheduling a failed operation tells how it went. */
  lemma ScheduleTells(op: Operation, p: RetryPolicy, probe: Probe, now: real, unit: real)
    requires op.state == FailedSafe && Carried(op, SchedulePlan(p, op, probe, now, unit), now).Ok?
    ensures op.kind != Contact ==> Told(Carried(op, SchedulePlan(p, op, probe, now, unit), now).value)
  {
    hide Delay, ValidOperation;
  }

  lemma CompleteTells(op: Operation, now: real)
    requires Carried(op, Ok(Do(MarkCompleted, WasCompleted)), now).Ok?
    ensures Told(Carried(op, Ok(Do(MarkCompleted, WasCompleted)), now).value)
  {
    hide ValidOperation;
  }

  lemma ListsNothing(ids: seq<OpId>, all: set<OpId>)
    requires Lists(ids, all)
    ensures ids == [] <==> all == {}
  {
    if ids != [] {
      assert ids[0] in ids;
    }
  }

  /** Only the oldest interrupted percept was failed safe. */
  ghost predicate FirstFailed(rank: OpId -> real, a: Rows, b: Rows, now: real) {
    exists id ::
      && FirstOf(rank, Created(a), {id}, InState(a, Percept, InFlight), 1)
      && id in a && b == After(a, id, Transact(a, id, MarkFailedSafe(Some(PERCEPT_RESTART)), now)) && b != a
  }

  lemma FirstIs(rank: OpId -> real, a: Rows, b: Rows, ids: seq<OpId>, now: real)
    requires Lists(ids, InState(a, Percept, InFlight)) && forall i, j | 0 <= i < j < |ids| :: Earlier(rank, Created(a), ids[i], ids[j])
    requires ids != [] && b == After(a, ids[0], Transact(a, ids[0], MarkFailedSafe(Some(PERCEPT_RESTART)), now))
    requires ids[0] in a && b != a
    ensures FirstFailed(rank, a, b, now)
  {
    hide Earlier, InState, Created, FirstOf;
    HeadIsListing(rank, Created(a), ids, InState(a, Percept, InFlight), 1);
    assert Take(ids, 1) == [ids[0]];
    assert Elements([ids[0]]) == {ids[0]};
    assert |InState(a, Percept, InFlight)| >= 1;
    ListingMeans(rank, Created(a), [ids[0]], InState(a, Percept, InFlight), 1);
  }

  lemma NoReports(rows: Rows)
    ensures forall ids :: Reports(rows, ids, [])
  {
  }

  lemma ReportsGrow(was: Rows, ids: seq<OpId>, n: nat, f: Operation -> Operation, results: seq<RetryResult>, r: Option<RetryResult>)
    requires n < |ids| && ids[n] in was && forall i, j | 0 <= i < j < |ids| :: ids[i] != ids[j]
    requires Reports(Mapped(was, Elements(ids[..n]), f), Elements(ids[..n]), results)
    requires r.Some? ==> r.value.op.id == ids[n] && Mapped(was, Elements(ids[..n + 1]), f)[ids[n]] == r.value.op
    ensures Reports(Mapped(was, Elements(ids[..n + 1]), f), Elements(ids[..n + 1]),
                    if r.Some? then results + [r.value] else results)
  {
    ElementsGrow(ids, n);
    assert ids[n] !in Elements(ids[..n]);
    hide Elements;
  }

  lemma ListingMeans(rank: OpId -> real, at: map<OpId, real>, ids: seq<OpId>, eligible: set<OpId>, limit: nat)
    requires Listing(rank, at, ids, eligible, limit)
    ensures FirstOf(rank, at, Elements(ids), eligible, limit) && |Elements(ids)| == |ids|
    ensures forall i, j | 0 <= i < j < |ids| :: ids[i] != ids[j]
    ensures forall i | 0 <= i < |ids| :: ids[i] in eligible
  {
    DistinctCount(ids);
    assert forall i | 0 <= i < |ids| :: ids[i] in Elements(ids);
  }

  lemma ListedAll(ids: seq<OpId>, all: set<OpId>)
    requires Lists(ids, all)
    ensures Elements(ids) == all && |ids| == |all|
    ensures forall i | 0 <= i < |ids| :: ids[i] in all
    ensures forall i, j | 0 <= i < j < |ids| :: ids[i] != ids[j]
  {
    assert forall i | 0 <= i < |ids| :: ids[i] in ids;
  }

  lemma SafeCodes()
    ensures IsSafeToken(PERCEPT_RESTART) && IsSafeToken(COGNITION_RESTART)
  {
  }

  lemma CompleteGoes(op: Operation, now: real)
    requires ValidOperation(op) && op.state == InFlight
    ensures Carried(op, Ok(Do(MarkCompleted, WasCompleted)), now).Ok?
  {
  }

  lemma RecoveredResumes(policies: Registry, accepted: Operation -> bool, now: real, unit: Operation -> real, op: Operation)
    requires !accepted(op)
    ensures Recovered(policies, Some(accepted), now, unit)(op) == Resumed(policies, Some(accepted), now, unit, COGNITION_RESTART)(op)
  {
  }

  /**
    A sweep leaves no operation of its class in flight: an interrupted one ends
    completed exactly on a receipt, exhausted exactly when its attempts are used
    up, and otherwise waits.
  */
  lemma ResumedMeans(policies: Registry, probe: Probe, now: real, unit: Operation -> real, code: string, op: Operation)
    requires GoodRegistry(policies) && Supported(policies(op.kind), op.kind, probe) && IsSafeToken(code)
    requires ValidOperation(op) && op.state == InFlight && op.attempt >= 1 && op.kind != Contact
    requires forall o :: 0.0 <= unit(o) <= 1.0
    ensures Advance(op, MarkFailedSafe(Some(code)), now).Ok?
    ensures var after := Resumed(policies, probe, now, unit, code)(op);
            var failed := Advance(op, MarkFailedSafe(Some(code)), now).value;
            var accepted := policies(op.kind).reconcileBeforeRetry && probe.value(failed);
            var left := policies(op.kind).retryAfterFailedSafe && op.attempt < policies(op.kind).maxAttempts;
            && ValidOperation(after) && SameIdentity(op, after) && after.attempt == op.attempt
            && after.state == if accepted then Completed else if left then RetryWait else Exhausted
  {
    hide Advance, Delay, IsSafeToken, SchedulePlan, Carried, Resumed;
    FailGoes(op, code, now);
    ResumedIs(policies, probe, now, unit, code, op);
    var failed := Advance(op, MarkFailedSafe(Some(code)), now).value;
    ScheduleMeans(failed, policies(op.kind), probe, now, unit(failed));
  }

  lemma ResumedIs(policies: Registry, probe: Probe, now: real, unit: Operation -> real, code: string, op: Operation)
    requires Advance(op, MarkFailedSafe(Some(code)), now).Ok?
    ensures var failed := Advance(op, MarkFailedSafe(Some(code)), now).value;
            Resumed(policies, probe, now, unit, code)(op)
              == TakenTo(Carried(failed, SchedulePlan(policies(failed.kind), failed, probe, now, unit(failed)), now), failed)
  {
    var failed := Advance(op, MarkFailedSafe(Some(code)), now).value;
    hide Advance, SchedulePlan, Carried, TakenTo;
    assert Resumed(policies, probe, now, unit, code)(op) == Rescheduled(policies, probe, now, unit)(failed);
  }

  lemma KeptContact(policies: Registry, probe: Probe, now: real, op: Operation)
    requires op.kind == Contact
    ensures Released(policies, probe, now)(op) == op
  {
    assert Carried(op, ReleasePlan(policies(op.kind), op, probe), now) == Ok(RetryResult(NeedsFreshDecision, op));
    hide Carried, ReleasePlan;
  }

  lemma CarriedKeepsId(op: Operation, plan: Result<Plan>, now: real)
    requires Carried(op, plan, now).Ok?
    ensures Carried(op, plan, now).value.op.id == op.id
  {
  }

  // -------------------------------------------------- what engine calls keep

  lemma KeepsNames(rows: Rows, id: OpId, cmd: Command, now: real)
    requires NamedRows(rows) && id in rows && Advance(rows[id], cmd, now).Ok?
    ensures NamedRows(rows[id := Advance(rows[id], cmd, now).value])
  {
  }

  lemma ChosenAreEligible(rank: OpId -> real, at: map<OpId, real>, chosen: set<OpId>, eligible: set<OpId>, limit: nat)
    requires FirstOf(rank, at, chosen, eligible, limit)
    ensures chosen <= eligible
  {
  }

  lemma MappedNames(rows: Rows, ids: set<OpId>, f: Operation -> Operation)
    requires NamedRows(rows) && forall id | id in ids && id in rows :: SameIdentity(rows[id], f(rows[id]))
    ensures NamedRows(Mapped(rows, ids, f))
  {
  }

  lemma CarriedIdentity(op: Operation, plan: Result<Plan>, now: real)
    ensures SameIdentity(op, TakenTo(Carried(op, plan, now), op))
  {
  }

  lemma ReleasedNames(rows: Rows, ids: set<OpId>, policies: Registry, probe: Probe, now: real)
    requires NamedRows(rows)
    ensures NamedRows(Mapped(rows, ids, Released(policies, probe, now)))
  {
    hide Carried, ReleasePlan, NamedRows;
    forall id | id in ids && id in rows ensures SameIdentity(rows[id], Released(policies, probe, now)(rows[id])) {
      CarriedIdentity(rows[id], ReleasePlan(policies(rows[id].kind), rows[id], probe), now);
    }
    MappedNames(rows, ids, Released(policies, probe, now));
  }
}
