/**
  The durable table of operations. Each method of the class is one
  `BEGIN IMMEDIATE ... COMMIT` block; the functions above it are the candidate
  rows those blocks build, and what they promise is proved about the functions.
  (src/hermes_life_bridge/operation_store.py)
*/
module OperationStore {
  import opened Basics
  import opened ReliabilityContract
  import opened SqlOrder

  // ------------------------------------------------------ candidate rows

  datatype Command =
    | StartAttempt
    | MarkCompleted
    | MarkFailedSafe(code: Option<string>)
    | MarkDeliveryUnknown(code: Option<string>)
    | ScheduleRetry(at: real)
    | MakeRetryReady
    | MarkExhausted

  function ContactOnly(kind: RetryClass, outcome: DeliveryOutcome): Option<DeliveryOutcome> {
    if kind == Contact then Some(outcome) else None
  }

  /** The nested `build` function of each transition method. */
  function Build(cur: Operation, cmd: Command, now: real): Result<Operation> {
    var next := cur.(updatedAt := now, nextAttemptAt := None, errorCode := None);
    match cmd
    case StartAttempt =>
      if cur.state != Prepared then Err(StateConflict)
      else Ok(next.(state := InFlight, attempt := cur.attempt + 1,
                    outcome := ContactOnly(cur.kind, NotAttempted)))
    case MarkCompleted =>
      if cur.state in {Prepared, FailedSafe, RetryWait} then
        if cur.kind != Cognition || cur.attempt < 1 then Err(StateConflict)
        else Ok(next.(state := Completed, outcome := None))
      else if cur.state !in {InFlight, DeliveryUnknown} then Err(StateConflict)
      else Ok(next.(state := Completed, outcome := ContactOnly(cur.kind, Delivered)))
    case MarkFailedSafe(code) =>
      if cur.state !in {InFlight, DeliveryUnknown} then Err(StateConflict)
      else Ok(next.(state := FailedSafe, errorCode := code,
                    outcome := ContactOnly(cur.kind, NotDelivered)))
    case MarkDeliveryUnknown(code) =>
      if cur.kind != Contact || cur.state != InFlight then Err(StateConflict)
      else Ok(next.(state := DeliveryUnknown, errorCode := code, outcome := Some(Unknown)))
    case ScheduleRetry(at) =>
      if cur.state != FailedSafe then Err(StateConflict)
      else Ok(next.(state := RetryWait, nextAttemptAt := Some(at), errorCode := cur.errorCode))
    case MakeRetryReady =>
      if cur.state != RetryWait then Err(StateConflict)
      else Ok(next.(state := Prepared, outcome := ContactOnly(cur.kind, NotAttempted)))
    case MarkExhausted =>
      if cur.state != FailedSafe then Err(StateConflict)
      else Ok(next.(state := Exhausted, errorCode := cur.errorCode))
  }

  /** Build, then the row check, then the transition guard. */
  function Advance(cur: Operation, cmd: Command, now: real): Result<Operation> {
    match Build(cur, cmd, now)
    case Err(e) => Err(e)
    case Ok(candidate) =>
      if !ValidOperation(candidate) then Err(InvalidValue)
      else if !TransitionAllowed(cur, candidate) then Err(StateConflict)
      else Ok(candidate)
  }

  /** One transition transaction on the whole table. */
  function Transact(rows: Rows, id: OpId, cmd: Command, now: real): Result<Operation> {
    if id !in rows then Err(NotFound) else Advance(rows[id], cmd, now)
  }

  function After(rows: Rows, id: OpId, r: Result<Operation>): Rows {
    match r case Ok(op) => rows[id := op] case Err(_) => rows
  }

  /** Do the command's own arguments pass the row check? */
  predicate SafeArguments(cmd: Command) {
    match cmd
    case MarkFailedSafe(code) => code.Some? ==> IsSafeToken(code.value)
    case MarkDeliveryUnknown(code) => code.Some? ==> IsSafeToken(code.value)
    case _ => true
  }

  /**
    Every built candidate of a valid row passes the full row check and the
    guard: the two later checks of a transaction can only fire on an unsafe
    error code.
  */
  lemma BuildIsSound(cur: Operation, cmd: Command, now: real)
    requires ValidOperation(cur)
    ensures Build(cur, cmd, now).Ok? && SafeArguments(cmd) ==>
              && ValidOperation(Build(cur, cmd, now).value)
              && TransitionAllowed(cur, Build(cur, cmd, now).value)
              && Advance(cur, cmd, now) == Build(cur, cmd, now)
    ensures Build(cur, cmd, now).Ok? && !SafeArguments(cmd) ==>
              Advance(cur, cmd, now) == Err(InvalidValue)
  {
  }

  /** The states a command may start from. */
  predicate MayStart(cur: Operation, cmd: Command) {
    match cmd
    case StartAttempt => cur.state == Prepared
    case MarkCompleted =>
      || cur.state == InFlight || cur.state == DeliveryUnknown
      || (cur.kind == Cognition && cur.attempt >= 1 && cur.state in {Prepared, FailedSafe, RetryWait})
    case MarkFailedSafe(_) => cur.state == InFlight || cur.state == DeliveryUnknown
    case MarkDeliveryUnknown(_) => cur.kind == Contact && cur.state == InFlight
    case ScheduleRetry(_) => cur.state == FailedSafe
    case MakeRetryReady => cur.state == RetryWait
    case MarkExhausted => cur.state == FailedSafe
  }

  /**
    When a command goes through on a valid row, when it is refused and why, and
    what each field of the row is afterwards.
  */
  lemma CommandMeans(cur: Operation, cmd: Command, now: real)
    requires ValidOperation(cur)
    ensures var r := Advance(cur, cmd, now);
            && (r.Ok? <==> MayStart(cur, cmd) && SafeArguments(cmd))
            && (r == Err(InvalidValue) <==> MayStart(cur, cmd) && !SafeArguments(cmd))
            && (r == Err(StateConflict) <==> !MayStart(cur, cmd))
    ensures Advance(cur, cmd, now).Ok? ==>
              var n := Advance(cur, cmd, now).value;
              && SameIdentity(cur, n) && n.id == cur.id && n.createdAt == cur.createdAt
              && n.updatedAt == now
              && n.attempt == cur.attempt + (if cmd.StartAttempt? then 1 else 0)
              && n.nextAttemptAt == (if cmd.ScheduleRetry? then Some(cmd.at) else None)
              && (cmd.MarkFailedSafe? || cmd.MarkDeliveryUnknown? ==> n.errorCode == cmd.code)
              && (cmd.ScheduleRetry? || cmd.MarkExhausted? ==> n.errorCode == cur.errorCode)
              && (cmd.StartAttempt? || cmd.MarkCompleted? || cmd.MakeRetryReady? ==> n.errorCode == None)
              && (cmd.StartAttempt? <==> n.state == InFlight) && (cmd.MarkCompleted? <==> n.state == Completed)
              && (cmd.MarkFailedSafe? <==> n.state == FailedSafe)
              && (cmd.MarkDeliveryUnknown? <==> n.state == DeliveryUnknown)
              && (cmd.ScheduleRetry? <==> n.state == RetryWait) && (cmd.MakeRetryReady? <==> n.state == Prepared)
              && (cmd.MarkExhausted? <==> n.state == Exhausted)
              && (cur.kind != Contact ==> n.outcome == None)
              && (cur.kind == Contact ==>
                    && (n.state == Completed ==> n.outcome == Some(Delivered))
                    && (n.state == FailedSafe ==> n.outcome == Some(NotDelivered))
                    && (n.state == DeliveryUnknown ==> n.outcome == Some(Unknown))
                    && (n.state == InFlight || n.state == Prepared ==> n.outcome == Some(NotAttempted)))
  {
    BuildIsSound(cur, cmd, now);
    hide TransitionAllowed, IsSafeToken;
  }

  /** A row without delivery outcome, as the transitions that clear the rest leave it. */
  function Stamped(op: Operation, state: OperationState, at: real, code: Option<string>): Operation {
    op.(state := state, updatedAt := at, nextAttemptAt := None, errorCode := code, outcome := None)
  }

  function StartedRow(op: Operation, at: real): Operation {
    Stamped(op, InFlight, at, None).(attempt := op.attempt + 1)
  }

  /** What the commands make of a percept or a cognition, field by field. */
  lemma StampsRow(op: Operation, cmd: Command, now: real)
    requires ValidOperation(op) && op.kind != Contact && Advance(op, cmd, now).Ok?
    ensures cmd.MarkFailedSafe? ==> Advance(op, cmd, now).value == Stamped(op, FailedSafe, now, cmd.code)
    ensures cmd == MarkCompleted ==> Advance(op, cmd, now).value == Stamped(op, Completed, now, None)
    ensures cmd == MakeRetryReady ==> Advance(op, cmd, now).value == Stamped(op, Prepared, now, None)
    ensures cmd == StartAttempt ==> Advance(op, cmd, now).value == StartedRow(op, now)
    ensures cmd == MarkExhausted ==> Advance(op, cmd, now).value == op.(state := Exhausted, updatedAt := now)
    ensures cmd.ScheduleRetry? ==>
              Advance(op, cmd, now).value == op.(state := RetryWait, updatedAt := now, nextAttemptAt := Some(cmd.at))
  {
    CommandMeans(op, cmd, now);
    hide TransitionAllowed, IsSafeToken;
  }

  /**
    The guard and the seven builders describe the same moves: an edge
    (state, attempt) is taken by some command exactly when some valid candidate
    with that state and attempt passes the guard.
  */
  lemma BuildersMatchGuard(cur: Operation, state: OperationState, attempt: int, now: real)
    requires ValidOperation(cur)
    ensures (exists cmd :: Advance(cur, cmd, now).Ok?
                           && Advance(cur, cmd, now).value.state == state
                           && Advance(cur, cmd, now).value.attempt == attempt)
       <==> (exists c: Operation :: ValidOperation(c) && TransitionAllowed(cur, c)
                                    && c.state == state && c.attempt == attempt)
  {
    if exists c: Operation :: ValidOperation(c) && TransitionAllowed(cur, c)
                              && c.state == state && c.attempt == attempt {
      var cmd := match state
        case InFlight => StartAttempt
        case Completed => MarkCompleted
        case FailedSafe => MarkFailedSafe(None)
        case DeliveryUnknown => MarkDeliveryUnknown(None)
        case RetryWait => ScheduleRetry(now)
        case Prepared => MakeRetryReady
        case Exhausted => MarkExhausted;
      BuildIsSound(cur, cmd, now);
      assert Advance(cur, cmd, now).Ok?;
    }
  }

  // ------------------------------------------------------ one row's history

  datatype Stamp = Stamp(cmd: Command, now: real)

  /** The row after a list of transactions, all of which succeed. */
  function Replay(first: Operation, steps: seq<Stamp>): Result<Operation> {
    if steps == [] then Ok(first)
    else
      match Replay(first, steps[..|steps| - 1])
      case Err(e) => Err(e)
      case Ok(op) => Advance(op, steps[|steps| - 1].cmd, steps[|steps| - 1].now)
  }

  function Count(steps: seq<Stamp>, p: Command -> bool): nat {
    if steps == [] then 0
    else Count(steps[..|steps| - 1], p) + (if p(steps[|steps| - 1].cmd) then 1 else 0)
  }

  function Starts(steps: seq<Stamp>): nat { Count(steps, (c: Command) => c.StartAttempt?) }
  function Releases(steps: seq<Stamp>): nat { Count(steps, (c: Command) => c.MakeRetryReady?) }
  function Schedules(steps: seq<Stamp>): nat { Count(steps, (c: Command) => c.ScheduleRetry?) }

  /** A row `_validate_initial` accepts. */
  predicate InitialOperation(op: Operation) {
    && ValidOperation(op)
    && op.state == Prepared && op.attempt == 0
    && op.errorCode == None && op.nextAttemptAt == None
  }

  /**
    Attempts are starts; each schedule is released at most once and each
    release started at most once; and the number of transitions a row ever
    makes is bounded by its attempts.
  */
  lemma {:induction false} HistoryCounts(first: Operation, steps: seq<Stamp>)
    requires InitialOperation(first) && Replay(first, steps).Ok?
    ensures var op := Replay(first, steps).value;
            && ValidOperation(op) && SameIdentity(first, op)
            && op.attempt == Starts(steps)
            && Releases(steps) <= Starts(steps) <= Releases(steps) + 1
            && Releases(steps) <= Schedules(steps) <= Releases(steps) + 1
            && (op.state == Prepared ==> Starts(steps) == Releases(steps))
            && (op.state in {InFlight, DeliveryUnknown, FailedSafe, RetryWait, Exhausted} ==>
                  Starts(steps) == Releases(steps) + 1)
            && (op.state == RetryWait ==> Schedules(steps) == Releases(steps) + 1)
            && (op.state in {Prepared, InFlight, DeliveryUnknown, FailedSafe, Exhausted} ==>
                  Schedules(steps) == Releases(steps))
            && |steps| <= Progress(op) - 4
            && |steps| <= 5 * op.attempt + 1
  {
    if steps != [] {
      HistoryCounts(first, steps[..|steps| - 1]);
      var op := Replay(first, steps[..|steps| - 1]).value;
      var last := steps[|steps| - 1];
      TransitionsMoveForward(op, Advance(op, last.cmd, last.now).value);
    }
  }

  // ----------------------------------------------------------- whole tables

  /** What the primary key and UNIQUE(kind, idempotency_key) say, with valid rows. */
  ghost predicate ValidRows(rows: Rows) {
    && (forall id | id in rows :: rows[id].id == id && ValidOperation(rows[id]))
    && (forall i, j | i in rows && j in rows && i != j ::
          rows[i].kind != rows[j].kind || rows[i].key != rows[j].key)
  }

  predicate HasKey(rows: Rows, kind: RetryClass, key: string) {
    exists id | id in rows :: rows[id].kind == kind && rows[id].key == key
  }

  ghost function IdOf(rows: Rows, kind: RetryClass, key: string): OpId
    requires HasKey(rows, kind, key)
  {
    var id :| id in rows && rows[id].kind == kind && rows[id].key == key;
    id
  }

  lemma KeyIsUnique(rows: Rows, id: OpId)
    requires ValidRows(rows) && id in rows
    ensures HasKey(rows, rows[id].kind, rows[id].key)
    ensures IdOf(rows, rows[id].kind, rows[id].key) == id
  {
  }

  /** The row `reserve` answers with: the durable one, the new one, or a refusal. */
  ghost function Reserved(rows: Rows, op: Operation): Result<Operation> {
    if !InitialOperation(op) then Err(InvalidValue)
    else if HasKey(rows, op.kind, op.key) then
      var existing := rows[IdOf(rows, op.kind, op.key)];
      if existing.requestHash != op.requestHash then Err(IdempotencyConflict) else Ok(existing)
    else if op.id in rows then Err(IdReused)
    else Ok(op)
  }

  ghost function AfterReserve(rows: Rows, op: Operation): Rows {
    match Reserved(rows, op)
    case Ok(r) => rows[r.id := r]
    case Err(_) => rows
  }

  /** Transactions keep the table valid and touch one row of one class. */
  lemma TransactKeepsRows(rows: Rows, id: OpId, cmd: Command, now: real)
    requires ValidRows(rows)
    ensures ValidRows(After(rows, id, Transact(rows, id, cmd, now)))
    ensures Transact(rows, id, cmd, now).Ok? ==>
              && id in rows && SameIdentity(rows[id], Transact(rows, id, cmd, now).value)
              && !Terminal(rows[id].state)
  {
  }

  /** Reservation never changes a durable row. */
  lemma ReserveKeepsRows(rows: Rows, op: Operation)
    requires ValidRows(rows)
    ensures ValidRows(AfterReserve(rows, op))
    ensures rows.Keys <= AfterReserve(rows, op).Keys <= rows.Keys + {op.id}
    ensures forall id | id in rows :: AfterReserve(rows, op)[id] == rows[id]
    ensures Reserved(rows, op).Ok? ==>
              var r := Reserved(rows, op).value;
              && r.kind == op.kind && r.key == op.key && r.requestHash == op.requestHash
              && r.id in AfterReserve(rows, op) && AfterReserve(rows, op)[r.id] == r
              && (r == op || r.id in rows)
  {
    hide ValidOperation;
    if HasKey(rows, op.kind, op.key) {
      assert AfterReserve(rows, op) == rows;
    }
  }

  /** A row nobody has reserved, nor any other under its key. */
  ghost predicate IsNew(rows: Rows, op: Operation) {
    && InitialOperation(op) && op.id !in rows
    && forall id | id in rows :: rows[id].kind != op.kind || rows[id].key != op.key
  }

  /** A row of the same class and key, with this request hash or another. */
  ghost predicate KeyTaken(rows: Rows, op: Operation, id: OpId) {
    id in rows && rows[id].kind == op.kind && rows[id].key == op.key
  }

  /** What a reservation answers, case by case, and that only a new row is added. */
  lemma ReserveMeans(rows: Rows, op: Operation)
    requires ValidRows(rows)
    ensures var r := Reserved(rows, op);
            && (r == Err(InvalidValue) <==> !InitialOperation(op))
            && (InitialOperation(op) ==>
                  && (r == Err(IdempotencyConflict) <==>
                        exists id :: KeyTaken(rows, op, id) && rows[id].requestHash != op.requestHash)
                  && (forall id | KeyTaken(rows, op, id) && rows[id].requestHash == op.requestHash :: r == Ok(rows[id]))
                  && (r == Err(IdReused) <==> op.id in rows && !exists id :: KeyTaken(rows, op, id))
                  && (op.id !in rows && (!exists id :: KeyTaken(rows, op, id)) ==> r == Ok(op)))
            && (r.Err? ==> r.error in {InvalidValue, IdempotencyConflict, IdReused})
    ensures AfterReserve(rows, op)
         == if Reserved(rows, op) == Ok(op) && op.id !in rows then rows[op.id := op] else rows
  {
    ReserveKeepsRows(rows, op);
    if HasKey(rows, op.kind, op.key) {
      var id :| id in rows && rows[id].kind == op.kind && rows[id].key == op.key;
      KeyIsUnique(rows, id);
      assert KeyTaken(rows, op, id);
      assert forall j | KeyTaken(rows, op, j) :: j == id;
    } else {
      assert forall id :: !KeyTaken(rows, op, id);
    }
    hide ValidOperation;
  }

  /** Every row sits under the id its service derives for it. */
  ghost predicate NamedRows(rows: Rows) {
    forall id | id in rows ::
      id.kind == rows[id].kind && id.key == rows[id].key && id.hash == rows[id].requestHash
  }

  /** The rows of one class are the same in both tables. */
  ghost predicate SameRowsOf(kind: RetryClass, a: Rows, b: Rows) {
    && (forall id | id in a && a[id].kind == kind :: id in b && b[id] == a[id])
    && (forall id | id in b && b[id].kind == kind :: id in a && a[id] == b[id])
  }

  // --------------------------------------------------------- percept outbox

  /** A content-free Runtime envelope; `body` stands for its seven other fields. */
  datatype Envelope = Envelope(key: string, observedAt: real, body: string)

  datatype OutboxEntry = OutboxEntry(event: Envelope, createdAt: real)

  type Outbox = map<OpId, OutboxEntry>

  ghost function ReservedPercept(rows: Rows, outbox: Outbox, op: Operation, event: Envelope)
    : Result<Operation>
  {
    if !InitialOperation(op) || op.kind != Percept || event.key != op.key then Err(InvalidValue)
    else match Reserved(rows, op)
      case Err(e) => Err(e)
      case Ok(r) =>
        if HasKey(rows, op.kind, op.key) && r.state != Completed && r.id !in outbox
        then Err(Corruption) else Ok(r)
  }

  ghost function OutboxAfterReserve(rows: Rows, outbox: Outbox, op: Operation, event: Envelope): Outbox {
    if ReservedPercept(rows, outbox, op, event).Ok? && !HasKey(rows, op.kind, op.key)
    then outbox[op.id := OutboxEntry(event, op.createdAt)] else outbox
  }

  /** The same for a percept, whose envelope must be there and is stored with a new row. */
  lemma ReservePerceptMeans(rows: Rows, outbox: Outbox, op: Operation, event: Envelope)
    requires ValidRows(rows)
    ensures var r := ReservedPercept(rows, outbox, op, event);
            var fits := InitialOperation(op) && op.kind == Percept && event.key == op.key;
            && (!fits ==> r == Err(InvalidValue))
            && (fits ==> (r == Err(Corruption) <==>
                  exists id :: KeyTaken(rows, op, id) && rows[id].requestHash == op.requestHash
                               && rows[id].state != Completed && id !in outbox))
            && (fits && r != Err(Corruption) ==> r == Reserved(rows, op))
    ensures OutboxAfterReserve(rows, outbox, op, event)
         == if ReservedPercept(rows, outbox, op, event).Ok? && !(exists id :: KeyTaken(rows, op, id))
            then outbox[op.id := OutboxEntry(event, op.createdAt)] else outbox
  {
    ReserveMeans(rows, op);
    if HasKey(rows, op.kind, op.key) {
      var id :| id in rows && rows[id].kind == op.kind && rows[id].key == op.key;
      KeyIsUnique(rows, id);
      assert KeyTaken(rows, op, id);
      assert forall j | KeyTaken(rows, op, j) :: j == id;
    } else {
      assert forall id :: !KeyTaken(rows, op, id);
    }
    hide ValidOperation, InitialOperation;
  }

  // ------------------------------------------------------------ sweep, purge

  const RESTART_CODE := "process_restart_in_flight"

  function SweptRow(op: Operation, at: real): Operation {
    if op.kind == Contact && op.state == InFlight
    then op.(state := DeliveryUnknown, updatedAt := at, outcome := Some(Unknown),
             nextAttemptAt := None, errorCode := Some(RESTART_CODE))
    else op
  }

  /** The rows after recover_interrupted_contact_operations. */
  function Swept(rows: Rows, at: real): Rows {
    map id | id in rows :: SweptRow(rows[id], at)
  }

  /** The sweep as far as the rows in `done`. */
  function SweptSome(rows: Rows, done: set<OpId>, at: real): Rows {
    map id | id in rows :: if id in done then SweptRow(rows[id], at) else rows[id]
  }

  lemma SweptOneMore(rows: Rows, done: set<OpId>, id: OpId, at: real)
    requires id in rows && id !in done
    ensures SweptSome(rows, done, at)[id := SweptRow(rows[id], at)] == SweptSome(rows, done + {id}, at)
    ensures SweptSome(rows, done, at)[id] == rows[id]
  {
  }

  lemma SweptWhole(rows: Rows, recovered: seq<OpId>, done: set<OpId>, at: real)
    requires Lists(recovered, set id | id in rows && rows[id].kind == Contact && rows[id].state == InFlight)
    requires forall k | 0 <= k < |recovered| :: recovered[k] in done
    ensures SweptSome(rows, done, at) == Swept(rows, at)
  {
    forall id | id in rows && rows[id].kind == Contact && rows[id].state == InFlight ensures id in done {
      assert id in recovered;
    }
  }

  /** The sweep is nothing but mark_delivery_unknown on every interrupted contact. */
  lemma SweepIsTransition(op: Operation, at: real)
    requires ValidOperation(op)
    ensures op.kind == Contact && op.state == InFlight ==>
              Advance(op, MarkDeliveryUnknown(Some(RESTART_CODE)), at) == Ok(SweptRow(op, at))
    ensures ValidOperation(SweptRow(op, at)) && SameIdentity(op, SweptRow(op, at))
  {
    assert IsSafeToken(RESTART_CODE);
    BuildIsSound(op, MarkDeliveryUnknown(Some(RESTART_CODE)), at);
  }

  lemma SweepKeepsRows(rows: Rows, at: real)
    requires ValidRows(rows)
    ensures ValidRows(Swept(rows, at))
  {
    forall id | id in rows
      ensures ValidOperation(SweptRow(rows[id], at)) && SameIdentity(rows[id], SweptRow(rows[id], at))
    {
      SweepIsTransition(rows[id], at);
    }
  }

  // ---------------------------------------------------------------- queries

  ghost predicate Ranked(rank: OpId -> real) {
    forall a, b | rank(a) == rank(b) :: a == b
  }

  predicate Earlier(rank: OpId -> real, at: map<OpId, real>, a: OpId, b: OpId) {
    a in at && b in at && Before(SortKey(at[a], rank(a)), SortKey(at[b], rank(b)))
  }

  /** ORDER BY (at, operation_id), where `rank` is the text order of ids. */
  function Ordered(rank: OpId -> real, ids: set<OpId>, at: map<OpId, real>): (q: seq<OpId>)
    requires Ranked(rank) && ids <= at.Keys
    ensures Lists(q, ids)
    ensures forall i, j | 0 <= i < j < |q| :: Earlier(rank, at, q[i], q[j])
  {
    var key := (id: OpId) => SortKey(if id in at then at[id] else 0.0, rank(id));
    OrderByLists(ids, key);
    var q := OrderBy(ids, key);
    assert forall i, j | 0 <= i < j < |q| :: Before(key(q[i]), key(q[j]));
    q
  }

  function Updated(rows: Rows): map<OpId, real> {
    map id | id in rows :: rows[id].updatedAt
  }

  function Created(rows: Rows): map<OpId, real> {
    map id | id in rows :: rows[id].createdAt
  }

  predicate Purgeable(op: Operation, before: real) {
    op.kind != Contact && Terminal(op.state) && op.updatedAt < before
  }

  function Eligible(rows: Rows, before: real): set<OpId> {
    set id | id in rows && Purgeable(rows[id], before)
  }

  /** `gone` is the oldest part of `eligible`. */
  ghost predicate OldestOf(rank: OpId -> real, at: map<OpId, real>, gone: set<OpId>, eligible: set<OpId>) {
    gone <= eligible && forall a, b | a in gone && b in eligible - gone :: Earlier(rank, at, a, b)
  }

  lemma PrefixIsOldest(rank: OpId -> real, at: map<OpId, real>, all: seq<OpId>, n: nat,
                       gone: set<OpId>, eligible: set<OpId>)
    requires n <= |all| && gone <= eligible
    requires forall i, j | 0 <= i < j < |all| :: Earlier(rank, at, all[i], all[j])
    requires forall id | id in eligible :: id in all
    requires forall id | id in all[..n] && id in eligible :: id in gone
    requires forall id | id in gone :: id in all[..n]
    ensures OldestOf(rank, at, gone, eligible)
  {
    forall k | 0 <= k < n ensures all[k] !in eligible - gone {
      assert all[..n][k] == all[k];
    }
    hide Earlier;
    forall a, b | a in gone && b in eligible - gone ensures Earlier(rank, at, a, b) {
      var i :| 0 <= i < n && all[i] == a;
      var j :| 0 <= j < |all| && all[j] == b;
    }
  }

  /** purge_terminal's scan over the terminal rows, oldest first. */
  lemma OneMoreSeen(wanted: set<OpId>, all: seq<OpId>, n: nat)
    requires n < |all|
    ensures wanted * Elements(all[..n + 1])
         == wanted * Elements(all[..n]) + if all[n] in wanted then {all[n]} else {}
  {
    assert all[..n + 1] == all[..n] + [all[n]];
  }

  /** Those of `eligible` that come before `id`, by time and then by id. */
  ghost function AheadBy(rank: OpId -> real, at: map<OpId, real>, eligible: set<OpId>, id: OpId): set<OpId>
    requires eligible <= at.Keys && id in at
  {
    set j | j in eligible && (at[j] < at[id] || (at[j] == at[id] && rank(j) < rank(id)))
  }

  /** Among the oldest `n` are exactly those with fewer than `n` before them. */
  lemma OldestIff(rank: OpId -> real, at: map<OpId, real>, chosen: set<OpId>, eligible: set<OpId>, n: nat, id: OpId)
    requires Ranked(rank) && eligible <= at.Keys && id in eligible
    requires OldestOf(rank, at, chosen, eligible) && |chosen| == Min(n, |eligible|)
    ensures id in chosen <==> |AheadBy(rank, at, eligible, id)| < n
  {
    var ahead := AheadBy(rank, at, eligible, id);
    if id in chosen {
      forall j | j in ahead ensures j in chosen - {id} {
        assert j !in chosen ==> Earlier(rank, at, id, j);
      }
      Fewer(ahead, chosen - {id});
    } else {
      forall j | j in chosen ensures j in ahead {
        assert Earlier(rank, at, j, id);
      }
      Fewer(chosen, ahead);
      Fewer(chosen + {id}, eligible);
    }
  }

  lemma Fewer<T>(a: set<T>, b: set<T>)
    requires a <= b
    ensures |a| <= |b|
  {
    assert b == a + (b - a);
  }

  /** A finished percept or cognition last touched before the cutoff. */
  ghost predicate Outdated(rows: Rows, before: real, id: OpId) {
    && id in rows && (rows[id].kind == Percept || rows[id].kind == Cognition)
    && (rows[id].state == Completed || rows[id].state == Exhausted) && rows[id].updatedAt < before
  }

  /** The outdated rows older than that of `id`. */
  ghost function OutdatedAhead(rank: OpId -> real, rows: Rows, before: real, id: OpId): set<OpId>
    requires id in rows
  {
    set j | j in rows && Outdated(rows, before, j)
            && (rows[j].updatedAt < rows[id].updatedAt
                || (rows[j].updatedAt == rows[id].updatedAt && rank(j) < rank(id)))
  }

  lemma PurgedIff(rank: OpId -> real, rows: Rows, before: real, limit: nat, gone: set<OpId>, id: OpId)
    requires Ranked(rank) && OldestOf(rank, Updated(rows), gone, Eligible(rows, before))
    requires |gone| == Min(limit, |Eligible(rows, before)|)
    ensures id in gone <==> Outdated(rows, before, id) && |OutdatedAhead(rank, rows, before, id)| < limit
  {
    EligibleMeans(rows, before, id);
    if id in Eligible(rows, before) {
      OldestIff(rank, Updated(rows), gone, Eligible(rows, before), limit, id);
      assert AheadBy(rank, Updated(rows), Eligible(rows, before), id) == OutdatedAhead(rank, rows, before, id);
    }
  }

  method SelectPurgeable(rank: OpId -> real, rows: Rows, before: real, limit: nat)
    returns (gone: set<OpId>)
    requires Ranked(rank) && 1 <= limit
    ensures OldestOf(rank, Updated(rows), gone, Eligible(rows, before))
    ensures |gone| == Min(limit, |Eligible(rows, before)|)
  {
    hide Earlier, OldestOf, Eligible;
    var all := Ordered(
      rank, (set id | id in rows && rows[id].kind != Contact && Terminal(rows[id].state)), Updated(rows));
    ghost var eligible := Eligible(rows, before);
    var n := 0;
    gone := {};
    while n < |all| && |gone| < limit
      invariant n <= |all| && |gone| <= limit && gone == eligible * Elements(all[..n])
    {
      assert all[n] in all;
      assert all[n] in eligible <==> rows[all[n]].updatedAt < before by { EligibleMeans(rows, before, all[n]); }
      OneMoreSeen(eligible, all, n);
      if rows[all[n]].updatedAt < before {
        gone := gone + {all[n]};
      }
      n := n + 1;
    }
    forall id | id in eligible ensures id in all {
      EligibleMeans(rows, before, id);
    }
    ScanSelects(rank, Updated(rows), all, n, gone, eligible, limit);
  }

  lemma EligibleMeans(rows: Rows, before: real, id: OpId)
    ensures id in Eligible(rows, before) <==> id in rows && Purgeable(rows[id], before)
  {
  }

  /** Scanning until the limit or the end selects the oldest, as many as can be. */
  lemma ScanSelects(rank: OpId -> real, at: map<OpId, real>, all: seq<OpId>, n: nat,
                    gone: set<OpId>, eligible: set<OpId>, limit: nat)
    requires n <= |all| && gone == eligible * Elements(all[..n])
    requires |gone| <= limit && (n < |all| ==> |gone| == limit)
    requires forall i, j | 0 <= i < j < |all| :: Earlier(rank, at, all[i], all[j])
    requires forall id | id in eligible :: id in all
    ensures OldestOf(rank, at, gone, eligible) && |gone| == Min(limit, |eligible|)
  {
    hide Earlier, OldestOf;
    PrefixIsOldest(rank, at, all, n, gone, eligible);
    SubsetSize(gone, eligible);
    if n == |all| {
      assert all[..n] == all;
      assert gone == eligible;
    }
  }

  // ---------------------------------------------------------------- the class

  datatype Journal = Journal(first: Operation, steps: seq<Stamp>)

  /** A built candidate differs from the row in the six columns an update writes. */
  lemma BuildKeepsIdentity(current: Operation, cmd: Command, now: real)
    requires Build(current, cmd, now).Ok?
    ensures var c := Build(current, cmd, now).value;
            c == current.(state := c.state, attempt := c.attempt, nextAttemptAt := c.nextAttemptAt, outcome := c.outcome,
                          errorCode := c.errorCode, updatedAt := c.updatedAt)
  {
  }

  /** Every live row is the replay of its history. */
  ghost predicate Explains(journal: map<OpId, Journal>, rows: Rows) {
    && journal.Keys == rows.Keys
    && forall id | id in rows ::
         InitialOperation(journal[id].first) && Replay(journal[id].first, journal[id].steps) == Ok(rows[id])
  }

  function Recorded(journal: map<OpId, Journal>, id: OpId, cmd: Command, now: real): map<OpId, Journal>
    requires id in journal
  {
    journal[id := Journal(journal[id].first, journal[id].steps + [Stamp(cmd, now)])]
  }

  lemma JournalGrows(journal: map<OpId, Journal>, rows: Rows, id: OpId, cmd: Command, now: real)
    requires Explains(journal, rows) && id in rows && Advance(rows[id], cmd, now).Ok?
    ensures Explains(Recorded(journal, id, cmd, now), rows[id := Advance(rows[id], cmd, now).value])
  {
    var steps := journal[id].steps;
    assert (steps + [Stamp(cmd, now)])[..|steps|] == steps;
    hide Advance, InitialOperation;
  }

  class Store {
    var rows: Rows
    var outbox: Outbox
    /** The place of an operation id in the text order of the database. */
    const rank: OpId -> real
    /** How each live row came to be. */
    ghost var journal: map<OpId, Journal>

    ghost predicate Valid()
      reads this
    {
      ValidRows(rows) && outbox.Keys <= rows.Keys && Explains(journal, rows)
    }

    constructor (rank: OpId -> real)
      ensures Valid() && rows == map[] && outbox == map[] && this.rank == rank
    {
      rows, outbox, journal := map[], map[], map[];
      this.rank := rank;
    }

    method Reserve(op: Operation) returns (r: Result<Operation>, created: bool)
      requires Valid()
      modifies this`rows, this`journal
      ensures Valid()
      ensures r == Reserved(old(rows), op) && rows == AfterReserve(old(rows), op)
      ensures created == (r.Ok? && !HasKey(old(rows), op.kind, op.key))
    {
      if !InitialOperation(op) {
        return Err(InvalidValue), false;
      }
      if id :| id in rows && rows[id].kind == op.kind && rows[id].key == op.key {
        KeyIsUnique(rows, id);
        if rows[id].requestHash != op.requestHash {
          return Err(IdempotencyConflict), false;
        }
        return Ok(rows[id]), false;
      }
      if op.id in rows {
        return Err(IdReused), false;
      }
      Insert(op);
      return Ok(op), true;
    }

    method Insert(op: Operation)
      requires Valid() && InitialOperation(op)
      requires op.id !in rows && !HasKey(rows, op.kind, op.key)
      modifies this`rows, this`journal
      ensures Valid() && rows == old(rows)[op.id := op]
    {
      rows, journal := rows[op.id := op], journal[op.id := Journal(op, [])];
    }

    method ReservePercept(op: Operation, event: Envelope) returns (r: Result<Operation>, created: bool)
      requires Valid()
      modifies this
      ensures Valid()
      ensures r == ReservedPercept(old(rows), old(outbox), op, event)
      ensures rows == if r.Ok? then AfterReserve(old(rows), op) else old(rows)
      ensures outbox == OutboxAfterReserve(old(rows), old(outbox), op, event)
      ensures created == (r.Ok? && !HasKey(old(rows), op.kind, op.key))
    {
      if !InitialOperation(op) || op.kind != Percept || event.key != op.key {
        return Err(InvalidValue), false;
      }
      if id :| id in rows && rows[id].kind == op.kind && rows[id].key == op.key {
        KeyIsUnique(rows, id);
        if rows[id].requestHash != op.requestHash {
          return Err(IdempotencyConflict), false;
        }
        if rows[id].state != Completed && id !in outbox {
          return Err(Corruption), false;
        }
        return Ok(rows[id]), false;
      }
      if op.id in rows {
        return Err(IdReused), false;
      }
      Insert(op);
      outbox := outbox[op.id := OutboxEntry(event, op.createdAt)];
      return Ok(op), true;
    }

    method Get(id: OpId) returns (r: Option<Operation>)
      ensures r == if id in rows then Some(rows[id]) else None
    {
      r := if id in rows then Some(rows[id]) else None;
    }

    method GetPerceptEvent(id: OpId) returns (r: Option<Envelope>)
      ensures r == if id in outbox then Some(outbox[id].event) else None
    {
      r := if id in outbox then Some(outbox[id].event) else None;
    }

    method ClearPerceptEvent(id: OpId)
      requires Valid()
      modifies this`outbox
      ensures Valid() && outbox == old(outbox) - {id}
    {
      outbox := outbox - {id};
    }

    /** _transition_transaction, given the builder of one of the seven methods. */
    method Transition(id: OpId, cmd: Command, now: real) returns (r: Result<Operation>)
      requires Valid()
      modifies this`rows, this`journal
      ensures Valid()
      ensures r == Transact(old(rows), id, cmd, now)
      ensures rows == After(old(rows), id, r)
    {
      if id !in rows {
        return Err(NotFound);
      }
      var current := rows[id];
      r := Build(current, cmd, now);
      if r.Err? {
        return;
      }
      var candidate := r.value;
      if !ValidOperation(candidate) {
        return Err(InvalidValue);
      }
      r := PersistTransition(current, candidate, cmd, now);
    }

    /** The compare-and-swap on (state, attempt). */
    method PersistTransition(current: Operation, candidate: Operation, ghost cmd: Command, ghost now: real)
      returns (r: Result<Operation>)
      requires Valid() && current.id in rows && rows[current.id] == current
      requires ValidOperation(candidate) && Build(current, cmd, now) == Ok(candidate)
      modifies this`rows, this`journal
      ensures Valid()
      ensures r == Advance(current, cmd, now) && rows == After(old(rows), current.id, r)
    {
      if !TransitionAllowed(current, candidate) {
        return Err(StateConflict);
      }
      hide ValidOperation, TransitionAllowed, Explains, ValidRows;
      BuildKeepsIdentity(current, cmd, now);
      TransactKeepsRows(rows, current.id, cmd, now);
      JournalGrows(journal, rows, current.id, cmd, now);
      var row := rows[current.id];
      if row.state != current.state || row.attempt != current.attempt {
        assert false;
      }
      rows := rows[current.id := row.(
        state := candidate.state, attempt := candidate.attempt,
        nextAttemptAt := candidate.nextAttemptAt, outcome := candidate.outcome,
        errorCode := candidate.errorCode, updatedAt := candidate.updatedAt)];
      journal := Recorded(journal, current.id, cmd, now);
      r := Ok(candidate);
    }

    /** list_operations, ordered by (created_at, operation_id). */
    method ListOperations(kind: RetryClass, state: OperationState) returns (ids: seq<OpId>)
      requires Valid() && Ranked(rank)
      ensures Lists(ids, set id | id in rows && rows[id].kind == kind && rows[id].state == state)
      ensures forall i, j | 0 <= i < j < |ids| ::
                Earlier(rank, Created(rows), ids[i], ids[j])
    {
      ids := Ordered(rank, (set id | id in rows && rows[id].kind == kind && rows[id].state == state),
                     Created(rows));
    }

    /** list_percept_outbox_operation_ids, ordered by (created_at, operation_id). */
    method ListOutbox() returns (ids: seq<OpId>)
      requires Ranked(rank)
      ensures Lists(ids, outbox.Keys)
      ensures forall i, j | 0 <= i < j < |ids| ::
                Earlier(rank, map id | id in outbox :: outbox[id].createdAt, ids[i], ids[j])
    {
      ids := Ordered(rank, outbox.Keys, map id | id in outbox :: outbox[id].createdAt);
    }

    /** recover_interrupted_contact_operations */
    method RecoverInterruptedContacts(at: real) returns (recovered: seq<OpId>)
      requires Valid() && Ranked(rank)
      modifies this`rows, this`journal
      ensures Valid() && rows == Swept(old(rows), at)
      ensures Lists(recovered, set id | id in old(rows) && old(rows)[id].kind == Contact
                                        && old(rows)[id].state == InFlight)
    {
      hide ValidRows, ValidOperation, InitialOperation, Replay, SweptRow, Earlier;
      recovered := ListOperations(Contact, InFlight);
      ghost var done := {};
      for n := 0 to |recovered|
        invariant Valid() && rows == SweptSome(old(rows), done, at)
        invariant forall k | 0 <= k < |recovered| :: recovered[k] in done <==> k < n
        invariant forall id | id in done :: id in recovered
      {
        assert recovered[n] in recovered && recovered[n] !in done;
        SweptOneMore(old(rows), done, recovered[n], at);
        RecoverInterrupted(recovered[n], at);
        done := done + {recovered[n]};
      }
      SweptWhole(old(rows), recovered, done, at);
    }

    method RecoverInterrupted(id: OpId, at: real)
      requires Valid() && id in rows && rows[id].kind == Contact && rows[id].state == InFlight
      modifies this`rows, this`journal
      ensures Valid() && rows == old(rows)[id := SweptRow(old(rows)[id], at)]
    {
      SweepIsTransition(rows[id], at);
      var _ := Transition(id, MarkDeliveryUnknown(Some(RESTART_CODE)), at);
    }

    /**
      purge_terminal: the oldest terminal percept and cognition rows go, at most
      `limit` of them, with their outbox entries; contacts never do.
    */
    method PurgeTerminal(before: real, limit: int) returns (r: Result<nat>, ghost gone: set<OpId>)
      requires Valid() && Ranked(rank)
      modifies this
      ensures Valid()
      ensures rows == old(rows) - gone && outbox == old(outbox) - gone
      ensures OldestOf(rank, Updated(old(rows)), gone, Eligible(old(rows), before))
      ensures r == if 1 <= limit <= 10000 then Ok(|gone|) else Err(InvalidValue)
      // the oldest outdated rows go, as many as the limit allows
      ensures r.Ok? ==> forall id ::
                id in gone <==> Outdated(old(rows), before, id) && |OutdatedAhead(rank, old(rows), before, id)| < limit
      ensures |gone| == if r.Ok? then Min(limit, |Eligible(old(rows), before)|) else 0
    {
      if limit < 1 || limit > 10000 {
        gone := {};
        assert rows - gone == rows && outbox - gone == outbox;
        return Err(InvalidValue), gone;
      }
      var selected := SelectPurgeable(rank, rows, before, limit);
      forall id
        ensures id in selected <==> Outdated(rows, before, id) && |OutdatedAhead(rank, rows, before, id)| < limit
      {
        PurgedIff(rank, rows, before, limit, selected, id);
      }
      hide Outdated, OutdatedAhead;
      Delete(selected);
      return Ok(|selected|), selected;
    }

    /** DELETE ... WHERE operation_id IN ids, cascading to the outbox. */
    method Delete(ids: set<OpId>)
      requires Valid()
      modifies this
      ensures Valid() && rows == old(rows) - ids && outbox == old(outbox) - ids
    {
      rows, outbox, journal := rows - ids, outbox - ids, journal - ids;
    }
  }

  lemma {:induction false} SubsetSize<T>(a: set<T>, b: set<T>)
    requires a <= b
    ensures |a| <= |b|
  {
    if a != {} {
      var x :| x in a;
      SubsetSize(a - {x}, b - {x});
    }
  }
}
