/**
  The retry budget of one operation when schedulers race. A scheduler reads
  the row, decides, and commits later; between the two it holds a permit to
  schedule one more attempt. (src/hermes_life_bridge/retry_engine.py)
*/
module Budget {
  import opened Basics
  import opened ReliabilityContract
  import opened OperationStore
  import opened Backoff

  datatype Decision = Exhaust | Wait(at: real) | FreshDecision | Refuse

  /** schedule_failed_safe after its read, with no accepted receipt. */
  function Decide(p: RetryPolicy, op: Operation, now: real, unit: real): Decision {
    if op.kind == Contact then FreshDecision
    else if !p.retryAfterFailedSafe || op.attempt >= p.maxAttempts then Exhaust
    else if op.attempt < 1 then Refuse
    else Wait(now + Delay(p, op.attempt, unit))
  }

  /** Attempts made, plus the one already promised. */
  function Promised(op: Operation): int {
    op.attempt + if op.state == RetryWait || op.state == Prepared then 1 else 0
  }

  /** How many attempts the policy grants one scheduler working alone. */
  function Allowance(p: RetryPolicy): int {
    if p.retryAfterFailedSafe then p.maxAttempts else 1
  }

  /** The most attempts `workers` racing schedulers can make. */
  function Cap(allowance: int, workers: nat): int {
    if allowance >= 2 then allowance + workers - 1 else 1
  }

  /** `permits` schedulers out of `workers` have decided to schedule this row. */
  predicate Within(row: Option<Operation>, permits: nat, workers: nat, allowance: int) {
    && permits <= workers
    && (permits > 0 ==> allowance >= 2)
    && (row.Some? ==>
          || Promised(row.value) <= allowance - 1
          || Promised(row.value) + permits <= Cap(allowance, workers))
  }

  function RowAt(rows: Rows, id: OpId): Option<Operation> {
    if id in rows then Some(rows[id]) else None
  }

  /**
    Everything one step can do to a row and to one worker's permit:
    `held` and `holds` say whether that worker has a permit before and after.
  */
  predicate Move(row: Option<Operation>, held: bool, next: Option<Operation>, holds: bool, allowance: int) {
    // the row stays, advances without a new promise, is removed, or appears
    || ((holds ==> held) && match (row, next) {
          case (Some(a), Some(b)) => Promised(b) <= Promised(a)
          case (None, Some(b)) => Promised(b) <= 1
          case (_, None) => true
        })
    // a permit is spent on one more promise
    || (held && !holds && row.Some? && next.Some? && Promised(next.value) == Promised(row.value) + 1)
    // a permit is taken on a row that still has attempts left
    || (!held && holds && next == row && row.Some? && 1 <= Promised(row.value) <= allowance - 1)
  }

  /** Every such step keeps the budget. */
  lemma MoveKeepsBudget(row: Option<Operation>, held: bool, next: Option<Operation>, holds: bool,
                        permits: nat, after: nat, workers: nat, allowance: int)
    requires Within(row, permits, workers, allowance) && Move(row, held, next, holds, allowance)
    requires after == permits - (if held then 1 else 0) + (if holds then 1 else 0)
    requires after <= workers && allowance >= 1 && workers >= 1
    ensures Within(next, after, workers, allowance)
  {
  }

  /** The budget bounds the attempts. */
  lemma BudgetBoundsAttempts(op: Operation, permits: nat, workers: nat, allowance: int)
    requires Within(Some(op), permits, workers, allowance) && workers >= 1
    ensures op.attempt <= Cap(allowance, workers)
  {
  }

  /** Which commands promise an attempt: only a schedule. */
  lemma CommandPromises(op: Operation, cmd: Command, now: real)
    requires Advance(op, cmd, now).Ok?
    ensures var r := Advance(op, cmd, now).value;
            if cmd.ScheduleRetry? then Promised(r) == Promised(op) + 1 else Promised(r) <= Promised(op)
  {
  }

  /** A failed row that still has attempts left, as the scheduler reads it. */
  lemma WaitMeansAttemptsLeft(p: RetryPolicy, op: Operation, now: real, unit: real)
    requires op.state == FailedSafe && Decide(p, op, now, unit).Wait?
    ensures 1 <= Promised(op) <= Allowance(p) - 1
  {
  }

  // ------------------------------------------------------------- waiting alone

  /** The retry at place `k` was decided on the row it was committed on. */
  ghost predicate DecidedAt(p: RetryPolicy, first: Operation, steps: seq<Stamp>, k: nat)
    requires k < |steps| && steps[k].cmd.ScheduleRetry?
  {
    Replay(first, steps[..k]).Ok? &&
    exists unit: real | 0.0 <= unit <= 1.0 ::
      Decide(p, Replay(first, steps[..k]).value, steps[k].now, unit) == Wait(steps[k].cmd.at)
  }

  /** No retry of this history was decided on an older row: nobody raced. */
  ghost predicate DecidedAlone(p: RetryPolicy, first: Operation, steps: seq<Stamp>) {
    forall k: nat | k < |steps| && steps[k].cmd.ScheduleRetry? :: DecidedAt(p, first, steps, k)
  }

  /** The waits a history schedules, in all. */
  function Waited(steps: seq<Stamp>): real {
    if steps == [] then 0.0
    else
      var last := steps[|steps| - 1];
      Waited(steps[..|steps| - 1]) + if last.cmd.ScheduleRetry? then last.cmd.at - last.now else 0.0
  }

  /**
    Scheduled by one worker, an operation waits at most max_attempts - 1 times
    in its whole life, each time at most max_backoff.
  */
  lemma {:induction false} WaitingIsBounded(p: RetryPolicy, first: Operation, steps: seq<Stamp>)
    requires ValidPolicy(p) && InitialOperation(first) && Replay(first, steps).Ok? && DecidedAlone(p, first, steps)
    ensures Schedules(steps) <= p.maxAttempts - 1
    ensures 0.0 <= Waited(steps) <= Caps(Schedules(steps), p.maxBackoff) <= Caps(p.maxAttempts - 1, p.maxBackoff)
  {
    hide Advance, Decide, InitialOperation;
    if steps != [] {
      var k := |steps| - 1;
      EarlierDecided(p, first, steps);
      WaitingIsBounded(p, first, steps[..k]);
      if steps[k].cmd.ScheduleRetry? {
        LastWait(p, first, steps);
      }
    }
    CapsGrow(Schedules(steps), p.maxAttempts - 1, p.maxBackoff);
  }

  lemma EarlierDecided(p: RetryPolicy, first: Operation, steps: seq<Stamp>)
    requires DecidedAlone(p, first, steps) && steps != []
    ensures DecidedAlone(p, first, steps[..|steps| - 1])
  {
    var before := steps[..|steps| - 1];
    forall k: nat | k < |before| && before[k].cmd.ScheduleRetry? ensures DecidedAt(p, first, before, k) {
      assert DecidedAt(p, first, steps, k) && before[..k] == steps[..k];
    }
  }

  /** A retry is scheduled with attempts left, and for no longer than the cap. */
  lemma LastWait(p: RetryPolicy, first: Operation, steps: seq<Stamp>)
    requires ValidPolicy(p) && InitialOperation(first) && Replay(first, steps).Ok? && DecidedAlone(p, first, steps)
    requires steps != [] && steps[|steps| - 1].cmd.ScheduleRetry?
    ensures Schedules(steps) <= p.maxAttempts - 1
    ensures 0.0 <= steps[|steps| - 1].cmd.at - steps[|steps| - 1].now <= p.maxBackoff
  {
    var k := |steps| - 1;
    assert DecidedAt(p, first, steps, k);
    var op := Replay(first, steps[..k]).value;
    var unit: real :| 0.0 <= unit <= 1.0 && Decide(p, op, steps[k].now, unit) == Wait(steps[k].cmd.at);
    DelayIsBounded(p, op.attempt, unit);
    HistoryCounts(first, steps);
    hide Delay, Nominal;
  }

  // ------------------------------------------------------- counting permits

  lemma {:induction false} HoldersFit(holders: set<nat>, workers: nat)
    requires forall w | w in holders :: w < workers
    ensures |holders| <= workers
  {
    if workers == 0 {
      assert holders == {};
    } else {
      HoldersFit(holders - {workers - 1}, workers - 1);
    }
  }

  /** One worker's permit changes, the others keep theirs. */
  lemma HoldersChange(a: set<nat>, b: set<nat>, w: nat)
    requires forall v | v != w :: v in a <==> v in b
    ensures |b| == |a| - (if w in a then 1 else 0) + (if w in b then 1 else 0)
  {
    assert a - {w} == b - {w};
    assert |a - {w}| == |a| - (if w in a then 1 else 0) by { if w !in a { assert a - {w} == a; } }
    assert |b - {w}| == |b| - (if w in b then 1 else 0) by { if w !in b { assert b - {w} == b; } }
  }
}
