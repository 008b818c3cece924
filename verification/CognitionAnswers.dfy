/**
  What a call of `CognitionService.process` must do once no receipt is stored for
  its key, said from the API replies and the clock readings it takes.
  (src/hermes_life_bridge/cognition_service.py)
*/
module CognitionAnswers {
  import opened Basics
  import opened ReliabilityContract
  import opened OperationStore
  import opened Backoff
  import opened RetryEngine
  import C = CognitionProtocol

  /** What `process` returns or raises. */
  datatype Answer = Answered(receipt: C.Receipt) | Failed(failure: C.Failure)

  /** The clock and the API, in order. */
  datatype Input = Input(now: real, reply: C.Reply)

  /** One call of the API, and which of the inputs answered it. */
  datatype Asking = Asking(at: nat, id: OpId)

  datatype Setting = Setting(rank: OpId -> real, policy: RetryPolicy, unit: Operation -> real, world: nat -> Input)

  /** What a call can change past its registration. */
  datatype View = View(rows: Rows, receipts: C.Receipts, asked: seq<Asking>)

  // ------------------------------------------------------------ the retry loop

  /** The calls a prepared row may still cost: at least the one it is ready for. */
  function CallsAllowed(p: RetryPolicy, attempt: int): nat {
    var granted := if p.retryAfterFailedSafe then p.maxAttempts else 1;
    if granted - attempt > 1 then granted - attempt else 1
  }

  /** Where the reply to call `k` comes from: begin, call, fail, schedule, get ready. */
  function CallAt(t: nat, k: nat): nat {
    t + 1 + 5 * k
  }

  function Askings(id: OpId, t: nat, m: nat): seq<Asking> {
    seq(m, k requires 0 <= k < m => Asking(CallAt(t, k), id))
  }

  /** Every one of the first `n` replies is an error. */
  ghost predicate AllErrors(s: Setting, t: nat, n: nat) {
    forall k: nat | k < n :: s.world(CallAt(t, k)).reply == C.ApiError
  }

  /** The `m`-th call, answered by input `last`, ends the loop: on an answer, or because no call is left. */
  ghost predicate Ends(s: Setting, task: C.Task, op: Operation, a: View, b: View, last: nat, m: nat, ans: Answer) {
    match s.world(last).reply
    case Answer(output) =>
      var receipt := C.Receipt(task.key, output);
      && ans == Answered(receipt) && b.receipts == a.receipts[task.taskId := receipt]
      && b.rows == a.rows[op.id := Stamped(op, Completed, s.world(last + 1).now, None).(attempt := op.attempt + m)]
    case ApiError =>
      && m == CallsAllowed(s.policy, op.attempt) && ans == Failed(C.RetryExhausted) && b.receipts == a.receipts
      && b.rows == a.rows[op.id := Stamped(op, Exhausted, s.world(last + 2).now, Some("hermes_api_failed_safe"))
                                     .(attempt := op.attempt + m)]
  }

  /** The loop from the prepared row `op` on makes `m` calls: the first answer ends it, or the last call allowed. */
  ghost predicate Computes(s: Setting, task: C.Task, op: Operation, a: View, b: View, t: nat, m: nat, ans: Answer) {
    && 1 <= m <= CallsAllowed(s.policy, op.attempt) && AllErrors(s, t, m - 1) && b.asked == a.asked + Askings(op.id, t, m)
    && Ends(s, task, op, a, b, CallAt(t, m - 1), m, ans)
  }

  ghost predicate Computed(s: Setting, task: C.Task, op: Operation, a: View, b: View, t: nat, ans: Answer) {
    exists m: nat :: Computes(s, task, op, a, b, t, m, ans)
  }

  /** A receipt comes back exactly when one of the calls allowed is answered. */
  lemma AnsweredIff(s: Setting, task: C.Task, op: Operation, a: View, b: View, t: nat, ans: Answer)
    requires Computed(s, task, op, a, b, t, ans)
    ensures ans.Answered? <==> !AllErrors(s, t, CallsAllowed(s.policy, op.attempt))
    ensures ans.Answered? ==> ans.receipt.key == task.key && task.taskId in b.receipts && b.receipts[task.taskId] == ans.receipt
    ensures !ans.Answered? ==> ans == Failed(C.RetryExhausted)
  {
    var m: nat :| Computes(s, task, op, a, b, t, m, ans);
    if ans.Answered? {
      assert s.world(CallAt(t, m - 1)).reply != C.ApiError;
    } else {
      forall k: nat | k < m ensures s.world(CallAt(t, k)).reply == C.ApiError {
        assert k < m - 1 || k == m - 1;
      }
    }
  }

  /** After a failed call the row is ready again. */
  function NextTry(op: Operation, at: real): Operation {
    Stamped(op, Prepared, at, None).(attempt := op.attempt + 1)
  }

  lemma FirstCallAt(t: nat, k: nat)
    ensures CallAt(t, 0) == t + 1 && CallAt(t + 5, k) == CallAt(t, k + 1)
  {
  }

  lemma AskingsGrow(id: OpId, t: nat, m: nat)
    ensures Askings(id, t, m + 1) == [Asking(t + 1, id)] + Askings(id, t + 5, m)
    ensures Askings(id, t, 1) == [Asking(t + 1, id)]
  {
    var all := [Asking(t + 1, id)] + Askings(id, t + 5, m);
    forall k | 0 <= k < |all| ensures all[k] == Asking(CallAt(t, k), id) {
      if k > 0 {
        FirstCallAt(t, k - 1);
      }
    }
  }

  lemma ErrorsGrow(s: Setting, t: nat, n: nat)
    requires AllErrors(s, t + 5, n) && s.world(t + 1).reply == C.ApiError
    ensures AllErrors(s, t, n + 1)
  {
    forall k: nat | k < n + 1 ensures s.world(CallAt(t, k)).reply == C.ApiError {
      if k > 0 {
        FirstCallAt(t, k - 1);
        assert s.world(CallAt(t + 5, k - 1)).reply == C.ApiError;
      }
    }
  }

  /** One failed call before the others. */
  lemma {:induction false} ComputesMore(s: Setting, task: C.Task, op: Operation, a: View, m: View, b: View, t: nat, at: real, ans: Answer)
    requires s.world(t + 1).reply == C.ApiError && op.attempt + 1 < (if s.policy.retryAfterFailedSafe then s.policy.maxAttempts else 1)
    requires op.id in a.rows
    requires m == View(a.rows[op.id := NextTry(op, at)], a.receipts, a.asked + [Asking(t + 1, op.id)])
    requires Computed(s, task, NextTry(op, at), m, b, t + 5, ans)
    ensures Computed(s, task, op, a, b, t, ans)
  {
    var n: nat :| Computes(s, task, NextTry(op, at), m, b, t + 5, n, ans);
    ErrorsGrow(s, t, n - 1);
    AskingsGrow(op.id, t, n);
    FirstCallAt(t, n - 1);
    hide AllErrors, Askings, CallAt, Ends, Stamped;
    EndsMore(s, task, op, a, m, b, CallAt(t, n), n, at, ans);
    assert Computes(s, task, op, a, b, t, n + 1, ans);
  }

  lemma EndsMore(s: Setting, task: C.Task, op: Operation, a: View, m: View, b: View, last: nat, n: nat, at: real, ans: Answer)
    requires m.rows == a.rows[op.id := NextTry(op, at)] && m.receipts == a.receipts
    requires op.attempt + 1 < (if s.policy.retryAfterFailedSafe then s.policy.maxAttempts else 1)
    requires Ends(s, task, NextTry(op, at), m, b, last, n, ans)
    ensures Ends(s, task, op, a, b, last, n + 1, ans)
  {
    SameEnd(a.rows, op, at, n, Completed, s.world(last + 1).now, None);
    SameEnd(a.rows, op, at, n, Exhausted, s.world(last + 2).now, Some("hermes_api_failed_safe"));
    hide Stamped, NextTry;
  }

  lemma SameEnd(rows: Rows, op: Operation, at: real, n: nat, state: OperationState, now: real, code: Option<string>)
    ensures var next := NextTry(op, at);
            && next.id == op.id && next.attempt == op.attempt + 1
            && rows[op.id := next][op.id := Stamped(next, state, now, code).(attempt := next.attempt + n)]
                 == rows[op.id := Stamped(op, state, now, code).(attempt := op.attempt + n + 1)]
  {
  }

  /** The first call is answered, or it is the last one allowed. */
  lemma {:induction false} ComputesOnce(s: Setting, task: C.Task, op: Operation, a: View, b: View, t: nat, ans: Answer)
    requires b.asked == a.asked + [Asking(t + 1, op.id)]
    requires match s.world(t + 1).reply
             case Answer(output) =>
               && ans == Answered(C.Receipt(task.key, output)) && b.receipts == a.receipts[task.taskId := ans.receipt]
               && b.rows == a.rows[op.id := Stamped(op, Completed, s.world(t + 2).now, None).(attempt := op.attempt + 1)]
             case ApiError =>
               && op.attempt + 1 >= (if s.policy.retryAfterFailedSafe then s.policy.maxAttempts else 1)
               && ans == Failed(C.RetryExhausted) && b.receipts == a.receipts
               && b.rows == a.rows[op.id := Stamped(op, Exhausted, s.world(t + 3).now, Some("hermes_api_failed_safe"))
                                              .(attempt := op.attempt + 1)]
    ensures Computed(s, task, op, a, b, t, ans)
  {
    AskingsGrow(op.id, t, 0);
    FirstCallAt(t, 0);
    hide Askings, CallAt, Stamped;
    assert Computes(s, task, op, a, b, t, 1, ans);
  }

  // ------------------------------------------------------------- other states

  /** release_due over the first hundred due cognitions: each is ready, or completed on its receipt. */
  ghost function ReleasedRows(s: Setting, rows: Rows, receipts: C.Receipts, now: real): Rows {
    map id | id in rows ::
      if FirstDue(s.rank, rows, Cognition, now, 100, id)
      then Stamped(rows[id], if C.HasReceipt(receipts, id.key) then Completed else Prepared, now, None)
      else rows[id]
  }

  /** A waiting row is computed if it is among those released, and refused otherwise. */
  ghost predicate WaitingAnswer(s: Setting, task: C.Task, op: Operation, a: View, b: View, t: nat, ans: Answer) {
    var now := s.world(t).now;
    var m := a.(rows := ReleasedRows(s, a.rows, a.receipts, now));
    if FirstDue(s.rank, a.rows, Cognition, now, 100, op.id) then
      Computed(s, task, Stamped(op, Prepared, now, None), m, b, t + 1, ans)
    else b == m && ans == Failed(C.RetryNotReady)
  }

  function WaitingRow(s: Setting, op: Operation, now: real): Operation
    requires op.attempt >= 1
  {
    op.(state := RetryWait, updatedAt := now, nextAttemptAt := Some(now + Delay(s.policy, op.attempt, s.unit(op))))
  }

  /** The answer to a task without receipt, by the state of its row. */
  ghost predicate RowAnswer(s: Setting, task: C.Task, op: Operation, a: View, b: View, t: nat, ans: Answer) {
    match op.state
    case Completed => b == a && ans == Failed(C.ReceiptMissing)
    case InFlight => b == a && ans == Failed(C.OperationInFlight)
    case Exhausted => b == a && ans == Failed(C.RetryExhausted)
    case DeliveryUnknown => b == a && ans == Failed(C.StoreRefused(StateConflict))
    case Prepared => Computed(s, task, op, a, b, t, ans)
    case RetryWait => WaitingAnswer(s, task, op, a, b, t, ans)
    case FailedSafe =>
      var now := s.world(t).now;
      if op.attempt >= 1 && s.policy.retryAfterFailedSafe && op.attempt < s.policy.maxAttempts then
        var waiting := WaitingRow(s, op, now);
        WaitingAnswer(s, task, waiting, a.(rows := a.rows[op.id := waiting]), b, t + 1, ans)
      else b == a.(rows := a.rows[op.id := op.(state := Exhausted, updatedAt := now)]) && ans == Failed(C.RetryExhausted)
  }

  /** Past the receipt cache and the task table: reserve the row and go by its state. */
  ghost predicate ReservedAnswer(s: Setting, task: C.Task, a: View, b: View, t: nat, ans: Answer) {
    var op := NewCognition(task, s.world(t).now);
    match Reserved(a.rows, op)
    case Err(e) => b == a && ans == Failed(C.StoreRefused(e))
    case Ok(r) => RowAnswer(s, task, r, a.(rows := AfterReserve(a.rows, op)), b, t + 1, ans)
  }

  function NewCognition(task: C.Task, now: real): Operation {
    Operation(StableId(Cognition, task.key, task.hash), Cognition, task.key, task.hash, Prepared, 0, now, now, None, None, None)
  }

  /** A task nobody has seen is computed at once, and answered exactly if one of the calls allowed is. */
  lemma NewIsComputed(s: Setting, task: C.Task, a: View, b: View, t: nat, ans: Answer)
    requires ReservedAnswer(s, task, a, b, t, ans) && ValidRows(a.rows) && IsNew(a.rows, NewCognition(task, s.world(t).now))
    ensures var op := NewCognition(task, s.world(t).now);
            Computed(s, task, op, a.(rows := a.rows[op.id := op]), b, t + 1, ans)
    ensures ans.Answered? <==> !AllErrors(s, t + 1, CallsAllowed(s.policy, 0))
  {
    var op := NewCognition(task, s.world(t).now);
    ReserveMeans(a.rows, op);
    assert forall id :: !KeyTaken(a.rows, op, id);
    hide Reserved, AfterReserve, ValidRows, InitialOperation, Computed;
    AnsweredIff(s, task, op, a.(rows := a.rows[op.id := op]), b, t + 1, ans);
  }

  lemma NewAnswers(s: Setting, task: C.Task, a: View, b: View, t: nat, ans: Answer)
    ensures var op := NewCognition(task, s.world(t).now);
            ReservedAnswer(s, task, a, b, t, ans) && ValidRows(a.rows) && IsNew(a.rows, op) ==>
              && Computed(s, task, op, a.(rows := a.rows[op.id := op]), b, t + 1, ans)
              && (ans.Answered? <==> !AllErrors(s, t + 1, CallsAllowed(s.policy, 0)))
  {
    hide ReservedAnswer, ValidRows, IsNew, Computed, AllErrors;
    if ReservedAnswer(s, task, a, b, t, ans) && ValidRows(a.rows) && IsNew(a.rows, NewCognition(task, s.world(t).now)) {
      NewIsComputed(s, task, a, b, t, ans);
    }
  }
}
