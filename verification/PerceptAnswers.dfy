/**
  What one delivery of a percept must do, said from the Runtime's answer and the
  clock readings it takes. (src/hermes_life_bridge/percept_delivery.py)
*/
module PerceptAnswers {
  import opened Basics
  import opened ReliabilityContract
  import opened OperationStore
  import opened Backoff
  import opened RetryEngine
  import P = PerceptProtocol

  /** What the Runtime client returns; `error` is "" on success. */
  datatype RuntimeReceipt = RuntimeReceipt(ok: bool, error: string)

  const EXHAUSTED := "percept_retry_exhausted"
  const DEFERRED := "percept_retry_deferred"

  datatype Input = Input(now: real, reply: P.Reply)

  /** One call of the Runtime, and which of the inputs answered it. */
  datatype Sending = Sending(at: nat, id: OpId, event: Envelope)

  /** What a delivery works under. */
  datatype Setting = Setting(rank: OpId -> real, policy: RetryPolicy, unit: Operation -> real, world: nat -> Input)

  /** What a delivery can change. */
  datatype View = View(rows: Rows, outbox: Outbox, acked: set<string>, sends: seq<Sending>)

  // ------------------------------------------------------------------- rows

  /** A started row has failed at `failedAt` and has been scheduled at `at`. */
  ghost predicate Failed(s: Setting, op: Operation, code: string, failedAt: real, at: real, row: Operation, r: RuntimeReceipt) {
    Deferred(s, Stamped(op, FailedSafe, failedAt, Some(code)), at, row, r)
  }

  /** A failed row waits for its backoff, or is exhausted when its attempts are used up. */
  ghost predicate Deferred(s: Setting, failed: Operation, at: real, row: Operation, r: RuntimeReceipt) {
    if s.policy.retryAfterFailedSafe && failed.attempt < s.policy.maxAttempts then
      && failed.attempt >= 1 && r == RuntimeReceipt(false, DEFERRED)
      && row == failed.(state := RetryWait, updatedAt := at,
                        nextAttemptAt := Some(at + Delay(s.policy, failed.attempt, s.unit(failed))))
    else
      r == RuntimeReceipt(false, EXHAUSTED) && row == failed.(state := Exhausted, updatedAt := at)
  }

  /** What a delivery makes of the prepared row `op`; it begins at step `t` and asks the Runtime at the next. */
  ghost predicate TriedRow(s: Setting, op: Operation, payload: Option<Envelope>, t: nat, row: Operation, r: RuntimeReceipt) {
    var started := StartedRow(op, s.world(t).now);
    match payload
    case None => Failed(s, started, "percept_outbox_payload_missing", s.world(t + 1).now, s.world(t + 2).now, row, r)
    case Some(_) =>
      match s.world(t + 1).reply
      case AckOk => r == RuntimeReceipt(true, "") && row == Stamped(started, Completed, s.world(t + 2).now, None)
      case AckNotOk => Failed(s, started, "runtime_ack_not_ok", s.world(t + 2).now, s.world(t + 3).now, row, r)
      case TransportError => Failed(s, started, "runtime_transport_exception", s.world(t + 2).now, s.world(t + 3).now, row, r)
  }

  // ------------------------------------------------------------- whole tables

  /** One row at most has moved. */
  ghost predicate OnlyRow(a: Rows, b: Rows, id: OpId) {
    a.Keys == b.Keys && forall i | i in a && i != id :: b[i] == a[i]
  }

  function Payload(outbox: Outbox, id: OpId): Option<Envelope> {
    if id in outbox then Some(outbox[id].event) else None
  }

  /** Is the envelope there, and does the Runtime say ok to it at step `at`? */
  predicate Acknowledged(s: Setting, outbox: Outbox, id: OpId, at: nat) {
    id in outbox && s.world(at).reply == P.AckOk
  }

  /** The delivery of `op`: the stored envelope is sent once, and only an ok of the Runtime completes it. */
  ghost predicate Tried(s: Setting, a: View, b: View, id: OpId, op: Operation, t: nat, r: RuntimeReceipt) {
    && id in b.rows && OnlyRow(a.rows, b.rows, id) && TriedRow(s, op, Payload(a.outbox, id), t, b.rows[id], r)
    && b.sends == a.sends + (if id in a.outbox then [Sending(t + 1, id, a.outbox[id].event)] else [])
    && b.acked == a.acked + (if Acknowledged(s, a.outbox, id, t + 1) then {a.outbox[id].event.key} else {})
    && b.outbox == if Acknowledged(s, a.outbox, id, t + 1) then a.outbox - {id} else a.outbox
  }

  /** An attempt from step `t` on, by the state it finds. */
  ghost predicate AttemptAnswer(s: Setting, a: View, b: View, id: OpId, t: nat, r: RuntimeReceipt) {
    if id !in a.rows then b == a && r == RuntimeReceipt(false, "percept_operation_missing")
    else if a.rows[id].kind != Percept then b == a && r == RuntimeReceipt(false, "percept_operation_kind_mismatch")
    else
      var op := a.rows[id];
      match op.state
      case Completed => b == a && r == RuntimeReceipt(true, "")
      case Exhausted => b == a && r == RuntimeReceipt(false, EXHAUSTED)
      case InFlight => b == a && r == RuntimeReceipt(false, "percept_in_flight")
      case DeliveryUnknown => b == a && r == RuntimeReceipt(false, "percept_not_ready")
      case FailedSafe =>
        && b == a.(rows := b.rows) && id in b.rows && OnlyRow(a.rows, b.rows, id)
        && Deferred(s, op, s.world(t).now, b.rows[id], r)
      case RetryWait =>
        if FirstDue(s.rank, a.rows, Percept, s.world(t).now, 100, id) then
          Tried(s, a, b, id, Stamped(op, Prepared, s.world(t + 1).now, None), t + 2, r)
        else b == a && r == RuntimeReceipt(false, DEFERRED)
      case Prepared => Tried(s, a, b, id, op, t, r)
  }

  /** A delivery is answered ok exactly when the Runtime acknowledged the stored envelope. */
  lemma OkIsAcknowledged(s: Setting, a: View, b: View, id: OpId, op: Operation, t: nat, r: RuntimeReceipt)
    requires Tried(s, a, b, id, op, t, r)
    ensures r.ok <==> Acknowledged(s, a.outbox, id, t + 1)
    ensures r.ok <==> b.rows[id].state == Completed
    ensures !r.ok ==> b.rows[id].state in {RetryWait, Exhausted} && (r.error == EXHAUSTED <==> b.rows[id].state == Exhausted)
    ensures b.rows[id].attempt == op.attempt + 1 && (b.rows[id].state == RetryWait ==> b.rows[id].nextAttemptAt.Some?)
  {
    hide Delay;
  }

  // ----------------------------------------------------------------- submit

  /** submit: reserve the row and its envelope, then attempt. */
  ghost predicate SubmitAnswer(s: Setting, a: View, b: View, event: Envelope, hash: string, t: nat, r: Result<RuntimeReceipt>) {
    var op := NewPercept(event, hash, s.world(t).now);
    match ReservedPercept(a.rows, a.outbox, op, event)
    case Err(e) => r == Err(e) && b == a
    case Ok(x) =>
      && r.Ok?
      && AttemptAnswer(s, a.(rows := AfterReserve(a.rows, op), outbox := OutboxAfterReserve(a.rows, a.outbox, op, event)), b,
                       x.id, t + 1, r.value)
  }

  function NewPercept(event: Envelope, hash: string, now: real): Operation {
    Operation(StableId(Percept, event.key, hash), Percept, event.key, hash, Prepared, 0, event.observedAt, now, None, None, None)
  }

  /** A percept nobody has seen is reserved with its envelope and delivered at once. */
  lemma NewIsTried(s: Setting, a: View, b: View, event: Envelope, hash: string, t: nat, r: Result<RuntimeReceipt>)
    requires SubmitAnswer(s, a, b, event, hash, t, r) && ValidRows(a.rows)
    requires IsNew(a.rows, NewPercept(event, hash, s.world(t).now))
    ensures var op := NewPercept(event, hash, s.world(t).now);
            var m := a.(rows := a.rows[op.id := op], outbox := a.outbox[op.id := OutboxEntry(event, event.observedAt)]);
            r.Ok? && Tried(s, m, b, op.id, op, t + 1, r.value) && (r.value.ok <==> s.world(t + 2).reply == P.AckOk)
  {
    var op := NewPercept(event, hash, s.world(t).now);
    ReserveMeans(a.rows, op);
    ReservePerceptMeans(a.rows, a.outbox, op, event);
    assert forall id :: !KeyTaken(a.rows, op, id);
    hide ReservedPercept, OutboxAfterReserve, Reserved, AfterReserve, ValidRows, InitialOperation, Tried;
    var m := a.(rows := a.rows[op.id := op], outbox := a.outbox[op.id := OutboxEntry(event, event.observedAt)]);
    OkIsAcknowledged(s, m, b, op.id, op, t + 1, r.value);
  }

  lemma NewSubmits(s: Setting, a: View, b: View, event: Envelope, hash: string, t: nat, r: Result<RuntimeReceipt>)
    ensures var op := NewPercept(event, hash, s.world(t).now);
            var m := a.(rows := a.rows[op.id := op], outbox := a.outbox[op.id := OutboxEntry(event, event.observedAt)]);
            SubmitAnswer(s, a, b, event, hash, t, r) && ValidRows(a.rows) && IsNew(a.rows, op) ==>
              r.Ok? && Tried(s, m, b, op.id, op, t + 1, r.value) && (r.value.ok <==> s.world(t + 2).reply == P.AckOk)
  {
    hide SubmitAnswer, ValidRows, IsNew, Tried;
    if SubmitAnswer(s, a, b, event, hash, t, r) && ValidRows(a.rows) && IsNew(a.rows, NewPercept(event, hash, s.world(t).now)) {
      NewIsTried(s, a, b, event, hash, t, r);
    }
  }

  // ------------------------------------------------------- the head of the outbox

  /** Those of `head` that are prepared, in order. */
  ghost function ReadyList(head: seq<OpId>, rows: Rows): seq<OpId> {
    if head == [] then []
    else
      var id := head[|head| - 1];
      ReadyList(head[..|head| - 1], rows) + if id in rows && rows[id].state == Prepared then [id] else []
  }

  lemma ReadyListGrows(head: seq<OpId>, id: OpId, rows: Rows)
    ensures ReadyList(head + [id], rows) == ReadyList(head, rows) + if id in rows && rows[id].state == Prepared then [id] else []
  {
    assert (head + [id])[..|head|] == head;
  }

  lemma {:induction false} ReadyListed(head: seq<OpId>, rows: Rows)
    ensures forall id | id in ReadyList(head, rows) :: id in head
  {
    if head != [] {
      ReadyListed(head[..|head| - 1], rows);
    }
  }

  ghost predicate SentAs(s: Setting, op: Operation, x: Sending, row: Operation, r: RuntimeReceipt) {
    x.at >= 1 && TriedRow(s, op, Some(x.event), x.at - 1, row, r)
  }

  /** The one sending of a ready percept, and what it made of the row. */
  ghost predicate SentOnce(s: Setting, id: OpId, base: View, rows: Rows, x: Sending, from: nat, to: nat) {
    && id in base.outbox && id in base.rows && id in rows
    && x.id == id && x.event == base.outbox[id].event && from < x.at < to
    && (rows[id].state == Completed <==> s.world(x.at).reply == P.AckOk)
    && exists r :: SentAs(s, base.rows[id], x, rows[id], r)
  }

  function NewSends(base: View, now: View): seq<Sending> {
    if |base.sends| <= |now.sends| then now.sends[|base.sends|..] else []
  }

  ghost function AckedOf(s: Setting, sent: seq<Sending>): set<string> {
    set x | x in sent && s.world(x.at).reply == P.AckOk :: x.event.key
  }

  /** One sending for each of `ready`, in order. */
  ghost predicate EachSent(s: Setting, ready: seq<OpId>, sent: seq<Sending>, base: View, rows: Rows, from: nat, to: nat) {
    && |sent| == |ready|
    && (forall k | 0 <= k < |ready| :: SentOnce(s, ready[k], base, rows, sent[k], from, to))
    && (forall j, k | 0 <= j < k < |sent| :: sent[j].at < sent[k].at)
  }

  /** Every ready percept of `head` was sent once, in order, and nothing else was. */
  ghost predicate HeadSent(s: Setting, head: seq<OpId>, base: View, now: View, from: nat, to: nat) {
    var ready, sent := ReadyList(head, base.rows), NewSends(base, now);
    && now.sends == base.sends + sent && EachSent(s, ready, sent, base, now.rows, from, to)
    && now.acked == base.acked + AckedOf(s, sent)
  }

  lemma HeadSentNone(s: Setting, base: View, from: nat, to: nat)
    ensures HeadSent(s, [], base, base, from, to)
  {
    assert NewSends(base, base) == [];
  }

  lemma HeadSentStays(s: Setting, head: seq<OpId>, id: OpId, base: View, now: View, from: nat, to: nat)
    requires HeadSent(s, head, base, now, from, to) && !(id in base.rows && base.rows[id].state == Prepared)
    ensures HeadSent(s, head + [id], base, now, from, to)
  {
    ReadyListGrows(head, id, base.rows);
    assert ReadyList(head, base.rows) + [] == ReadyList(head, base.rows);
    hide ReadyList, EachSent;
  }

  /** One more delivery of a ready percept. */
  lemma HeadSentGrows(s: Setting, head: seq<OpId>, id: OpId, base: View, m: View, b: View, from: nat, t: nat, to: nat,
                      r: RuntimeReceipt)
    requires HeadSent(s, head, base, m, from, t) && id !in head && from <= t && t + 1 < to
    requires id in base.rows && base.rows[id].state == Prepared && id in base.outbox
    requires id in m.outbox && m.outbox[id] == base.outbox[id]
    requires Tried(s, m, b, id, base.rows[id], t, r)
    ensures HeadSent(s, head + [id], base, b, from, to)
  {
    var x := Sending(t + 1, id, base.outbox[id].event);
    var ready, sent := ReadyList(head, base.rows), NewSends(base, m);
    hide ReadyList, Tried, AckedOf, SentOnce, OnlyRow, EachSent;
    ReadyListGrows(head, id, base.rows);
    ReadyListed(head, base.rows);
    AckedGrows(s, sent, x);
    TriedSends(s, id, base, m, b, from, t, to, r);
    SendsGrow(base.sends, sent, x);
    assert NewSends(base, b) == sent + [x];
    hide NewSends;
    EachSentGrows(s, ready, sent, id, x, base, m.rows, b.rows, from, t, to);
  }

  lemma SendsGrow(base: seq<Sending>, sent: seq<Sending>, x: Sending)
    ensures base + sent + [x] == base + (sent + [x]) && (base + sent + [x])[|base|..] == sent + [x]
  {
  }

  lemma EachSentGrows(s: Setting, ready: seq<OpId>, sent: seq<Sending>, id: OpId, x: Sending, base: View, a: Rows, b: Rows,
                      from: nat, t: nat, to: nat)
    requires EachSent(s, ready, sent, base, a, from, t) && id !in ready && OnlyRow(a, b, id)
    requires SentOnce(s, id, base, b, x, from, to) && x.at >= t && t <= to
    ensures EachSent(s, ready + [id], sent + [x], base, b, from, to)
  {
    hide SentOnce, OnlyRow;
    forall k | 0 <= k < |ready| ensures SentOnce(s, ready[k], base, b, sent[k], from, to) && sent[k].at < x.at {
      assert ready[k] in ready && SentOnce(s, ready[k], base, a, sent[k], from, t);
      SentOnceStays(s, ready[k], id, base, a, b, sent[k], from, t, to);
    }
  }

  lemma TriedSends(s: Setting, id: OpId, base: View, m: View, b: View, from: nat, t: nat, to: nat, r: RuntimeReceipt)
    requires id in base.rows && id in base.outbox && id in m.outbox && m.outbox[id] == base.outbox[id]
    requires Tried(s, m, b, id, base.rows[id], t, r) && from <= t && t + 1 < to
    ensures var x := Sending(t + 1, id, base.outbox[id].event);
            && SentOnce(s, id, base, b.rows, x, from, to) && b.sends == m.sends + [x] && OnlyRow(m.rows, b.rows, id)
            && b.acked == m.acked + if s.world(x.at).reply == P.AckOk then {x.event.key} else {}
  {
    OkIsAcknowledged(s, m, b, id, base.rows[id], t, r);
    hide TriedRow, OnlyRow;
    assert SentAs(s, base.rows[id], Sending(t + 1, id, base.outbox[id].event), b.rows[id], r);
  }

  lemma AckedGrows(s: Setting, sent: seq<Sending>, x: Sending)
    ensures AckedOf(s, sent + [x]) == AckedOf(s, sent) + if s.world(x.at).reply == P.AckOk then {x.event.key} else {}
  {
    forall key ensures key in AckedOf(s, sent + [x]) <==>
        key in AckedOf(s, sent) || (s.world(x.at).reply == P.AckOk && key == x.event.key)
    {
      if y :| y in sent && s.world(y.at).reply == P.AckOk && y.event.key == key {
        assert y in sent + [x];
      }
      assert x in sent + [x];
    }
  }

  lemma SentOnceStays(s: Setting, id: OpId, moved: OpId, base: View, a: Rows, b: Rows, x: Sending, from: nat, t: nat, to: nat)
    requires SentOnce(s, id, base, a, x, from, t) && t <= to && OnlyRow(a, b, moved) && id != moved
    ensures SentOnce(s, id, base, b, x, from, to) && x.at < t
  {
    hide SentAs;
  }
}
