/**
  Contact delivery as a step system. Any number of workers run
  `ContactService.process` or the reconciliation part of `recover_startup`;
  every read and every commit is one step, and between two steps anything may
  happen: other workers, a crash, the restart sweep, other operation classes.
  (src/hermes_life_bridge/contact_service.py, contact_reconciliation.py, contact_store.py)
*/
module ContactProtocol {
  import opened Basics
  import opened ReliabilityContract
  import opened OperationStore

  // ------------------------------------------------------------------- data

  /** A validated request: its idempotency key and request hash. */
  datatype Call = Call(key: string, hash: string)

  datatype ReceiptStatus = SentReceipt | DryRunReceipt

  datatype Receipt = Receipt(status: ReceiptStatus, providerId: string)

  datatype EvidenceOutcome = ProvesDelivery | ProvesNonDelivery | ProvesNothing

  datatype Evidence = Evidence(outcome: EvidenceOutcome, source: string, providerId: string)

  /** ContactEvidence.__post_init__ */
  predicate ValidEvidence(e: Evidence) {
    && IsSafeToken(e.source)
    && |e.providerId| <= 512
    && (e.outcome == ProvesDelivery <==> e.providerId != "")
  }

  datatype SendOutcome = SendFailedSafe | SendUnknown | SendAccepted(providerId: string)

  /** One call of the sender, and what came of it. */
  datatype SendRecord = SendRecord(key: string, outcome: SendOutcome)

  datatype Failure =
    | ReceiptUnavailable
    | StillUnknown
    | FreshDecisionRequired
    | OperationInFlight
    | DeliveryExhausted
    | RequestConflict
    | StoreRefused(error: Error)

  /** Where a worker is. A `from` of None is startup recovery, not a call. */
  datatype Pc =
    | Idle
    | Lookup(call: Call)
    | ReserveRequest(call: Call)
    | DryRun(call: Call)
    | ReserveOperation(call: Call)
    | Prepare(call: Call, op: Operation)
    | BeginRead(call: Call, id: OpId)
    | BeginCommit(call: Call, id: OpId)
    | Send(call: Call, id: OpId)
    | Sent(call: Call, id: OpId, reply: SendOutcome)
    | Complete(call: Call, id: OpId, receipt: Receipt)
    | Reconcile(from: Option<Call>, id: OpId)
    | ReadReceipt(from: Option<Call>, op: Operation)
    | ReadReconciliation(from: Option<Call>, op: Operation)
    | Probe(from: Option<Call>, op: Operation)
    | SaveReconciliation(from: Option<Call>, op: Operation, evidence: Evidence)
    | Resolve(from: Option<Call>, op: Operation, evidence: Evidence)
    | Rebuild(call: Call, providerId: string)
    | Returned(call: Call, receipt: Receipt)
    | Raised(failure: Failure)

  /** Everything that survives a crash, and the history of sender calls. */
  datatype Db = Db(
    enabled: bool,                    // contact_delivery_enabled
    rows: Rows,
    requests: map<string, string>,
    receipts: map<string, Receipt>,
    reconciliations: map<string, Evidence>,
    sends: seq<SendRecord>)

  datatype State = State(db: Db, pcs: map<nat, Pc>)

  /**
    What the environment contributes to a step; `canonical` is the sanitizer's
    word on the provider id of a probe.
  */
  datatype Env = Env(now: real, reply: SendOutcome, probe: Option<Evidence>, canonical: bool)

  datatype Event =
    | Arrive(w: nat, call: Call)
    | Recover(w: nat, id: OpId)
    | Step(w: nat, env: Env)
    | Crash(w: nat)
    | Sweep(now: real)                // recover_interrupted_contact_operations

  // ------------------------------------------------- one worker's program

  /** The tables after a step, and where the worker goes. */
  datatype Outcome = Outcome(db: Db, pc: Pc)

  function InitialContact(call: Call, now: real): Operation {
    Operation(StableId(Contact, call.key, call.hash), Contact, call.key, call.hash,
              Prepared, 0, now, now, None, Some(NotAttempted), None)
  }

  /** What a receipt proves, as `_local_evidence` words it. */
  function ReceiptEvidence(r: Receipt): Evidence {
    Evidence(ProvesDelivery, "contact_store_receipt",
             if r.providerId != "" then r.providerId else "hlb-receipt")
  }

  /** Run one command on the operation store; go to `next` or raise. */
  function Commit(db: Db, id: OpId, cmd: Command, now: real, next: Pc): Outcome {
    match Transact(db.rows, id, cmd, now)
    case Ok(op) => Outcome(db.(rows := db.rows[id := op]), next)
    case Err(e) => Outcome(db, Raised(StoreRefused(e)))
  }

  function SaveReceipt(db: Db, key: string, receipt: Receipt, next: Pc): Outcome {
    Outcome(db.(receipts := db.receipts[key := receipt]), next)
  }

  /** Store the receipt and return it. */
  function ReceiptStep(db: Db, call: Call, receipt: Receipt): Outcome {
    SaveReceipt(db, call.key, receipt, Returned(call, receipt))
  }

  function LookupNext(db: Db, call: Call): Pc {
    if call.key in db.receipts then Returned(call, db.receipts[call.key]) else ReserveRequest(call)
  }

  function ReserveRequestStep(db: Db, call: Call): Outcome {
    if call.key in db.requests && db.requests[call.key] != call.hash
    then Outcome(db, Raised(RequestConflict))
    else Outcome(db.(requests := db.requests[call.key := call.hash]),
                 if db.enabled then ReserveOperation(call) else DryRun(call))
  }

  ghost function ReserveStep(db: Db, call: Call, now: real): Outcome {
    var op := InitialContact(call, now);
    match Reserved(db.rows, op)
    case Err(e) => Outcome(db, Raised(StoreRefused(e)))
    case Ok(r) => Outcome(db.(rows := AfterReserve(db.rows, op)), Prepare(call, r))
  }

  /** _prepare_existing */
  function PrepareNext(db: Db, call: Call, op: Operation): Pc {
    match op.state
    case Completed =>
      if op.key in db.reconciliations && db.reconciliations[op.key].outcome == ProvesDelivery
      then Rebuild(call, db.reconciliations[op.key].providerId)
      else Raised(ReceiptUnavailable)
    case DeliveryUnknown => Reconcile(Some(call), op.id)
    case InFlight => Raised(OperationInFlight)
    case Exhausted => Raised(DeliveryExhausted)
    case FailedSafe => Raised(FreshDecisionRequired)
    case RetryWait => Raised(FreshDecisionRequired)
    case Prepared =>
      if op.attempt > 0 then Raised(FreshDecisionRequired) else BeginRead(call, op.id)
  }

  /** The read of begin_attempt. */
  function BeginNext(db: Db, call: Call, id: OpId): Pc {
    if id !in db.rows then Raised(StoreRefused(NotFound))
    else if db.rows[id].state != Prepared then Raised(StoreRefused(StateConflict))
    else if db.rows[id].attempt > 0 then Raised(StoreRefused(PolicyError))
    else BeginCommit(call, id)
  }

  function SentStep(db: Db, call: Call, id: OpId, reply: SendOutcome, now: real): Outcome {
    match reply
    case SendFailedSafe =>
      Commit(db, id, MarkFailedSafe(Some("hermes_send_failed_safe")), now, Raised(FreshDecisionRequired))
    case SendUnknown =>
      Commit(db, id, MarkDeliveryUnknown(Some("hermes_send_outcome_unknown")), now, Reconcile(Some(call), id))
    case SendAccepted(providerId) =>
      var receipt := Receipt(SentReceipt, providerId);
      SaveReceipt(db, call.key, receipt, Complete(call, id, receipt))
  }

  /** A state conflict is ignored here: the receipt is the authority. */
  function CompleteStep(db: Db, call: Call, id: OpId, receipt: Receipt, now: real): Outcome {
    var o := Commit(db, id, MarkCompleted, now, Returned(call, receipt));
    if o.pc == Raised(StoreRefused(StateConflict)) then o.(pc := Returned(call, receipt)) else o
  }

  function ReconcileNext(db: Db, from: Option<Call>, id: OpId): Pc {
    if id !in db.rows then Raised(StoreRefused(NotFound))
    else if db.rows[id].kind != Contact then Raised(StoreRefused(InvalidValue))
    else if db.rows[id].state != DeliveryUnknown then Raised(StoreRefused(StateConflict))
    else ReadReceipt(from, db.rows[id])
  }

  function ReadReceiptNext(db: Db, from: Option<Call>, op: Operation): Pc {
    if op.key in db.receipts && db.receipts[op.key].status == SentReceipt then
      var evidence := ReceiptEvidence(db.receipts[op.key]);
      if ValidEvidence(evidence) then Resolve(from, op, evidence)
      else Raised(StoreRefused(InvalidValue))
    else ReadReconciliation(from, op)
  }

  function ReadReconciliationNext(db: Db, from: Option<Call>, op: Operation): Pc {
    if op.key in db.reconciliations then Resolve(from, op, db.reconciliations[op.key]) else Probe(from, op)
  }

  function ProbeNext(from: Option<Call>, op: Operation, probe: Option<Evidence>): Pc {
    if probe.None? then Raised(StillUnknown)
    else if !ValidEvidence(probe.value) then Raised(StoreRefused(InvalidValue))
    else if probe.value.outcome == ProvesNothing then Raised(StillUnknown)
    else SaveReconciliation(from, op, probe.value)
  }

  /** save_reconciliation is write-once: a different record is a conflict. */
  function SaveReconciliationStep(db: Db, from: Option<Call>, op: Operation, e: Evidence, canonical: bool): Outcome {
    if !canonical || (op.key in db.reconciliations && db.reconciliations[op.key] != e)
    then Outcome(db, Raised(StoreRefused(InvalidValue)))
    else Outcome(db.(reconciliations := db.reconciliations[op.key := e]), Resolve(from, op, e))
  }

  function ResolveStep(db: Db, from: Option<Call>, op: Operation, e: Evidence, now: real): Outcome {
    match e.outcome
    case ProvesNothing => Outcome(db, Raised(StillUnknown))
    case ProvesDelivery =>
      Commit(db, op.id, MarkCompleted, now,
             if from.Some? then Rebuild(from.value, e.providerId) else Idle)
    case ProvesNonDelivery =>
      Commit(db, op.id, MarkFailedSafe(Some("reconciled_authoritative_non_delivery")), now,
             if from.Some? then Raised(FreshDecisionRequired) else Idle)
  }

  /** One read or one commit of a worker. */
  ghost function Perform(db: Db, pc: Pc, env: Env): Outcome {
    match pc
    case Idle => Outcome(db, pc)
    case Lookup(call) => Outcome(db, LookupNext(db, call))
    case ReserveRequest(call) => ReserveRequestStep(db, call)
    case DryRun(call) => ReceiptStep(db, call, Receipt(DryRunReceipt, ""))
    case ReserveOperation(call) => ReserveStep(db, call, env.now)
    case Prepare(call, op) => Outcome(db, PrepareNext(db, call, op))
    case BeginRead(call, id) => Outcome(db, BeginNext(db, call, id))
    case BeginCommit(call, id) => Commit(db, id, StartAttempt, env.now, Send(call, id))
    case Send(call, id) =>
      Outcome(db.(sends := db.sends + [SendRecord(call.key, env.reply)]), Sent(call, id, env.reply))
    case Sent(call, id, reply) => SentStep(db, call, id, reply, env.now)
    case Complete(call, id, receipt) => CompleteStep(db, call, id, receipt, env.now)
    case Reconcile(from, id) => Outcome(db, ReconcileNext(db, from, id))
    case ReadReceipt(from, op) => Outcome(db, ReadReceiptNext(db, from, op))
    case ReadReconciliation(from, op) => Outcome(db, ReadReconciliationNext(db, from, op))
    case Probe(from, op) => Outcome(db, ProbeNext(from, op, env.probe))
    case SaveReconciliation(from, op, e) => SaveReconciliationStep(db, from, op, e, env.canonical)
    case Resolve(from, op, e) => ResolveStep(db, from, op, e, env.now)
    case Rebuild(call, providerId) => ReceiptStep(db, call, Receipt(SentReceipt, providerId))
    case Returned(_, _) => Outcome(db, pc)
    case Raised(_) => Outcome(db, pc)
  }

  // ---------------------------------------------------------- all the workers

  function At(s: State, w: nat): Pc {
    if w in s.pcs then s.pcs[w] else Idle
  }

  predicate Free(pc: Pc) {
    pc.Idle? || pc.Returned? || pc.Raised?
  }

  ghost function Apply(s: State, e: Event): State {
    match e
    case Arrive(w, call) => if Free(At(s, w)) then s.(pcs := s.pcs[w := Lookup(call)]) else s
    case Recover(w, id) => if Free(At(s, w)) then s.(pcs := s.pcs[w := Reconcile(None, id)]) else s
    case Step(w, env) =>
      var o := Perform(s.db, At(s, w), env);
      State(o.db, s.pcs[w := o.pc])
    case Crash(w) => s.(pcs := s.pcs[w := Idle])
    case Sweep(now) => s.(db := s.db.(rows := Swept(s.db.rows, now)))
  }

  ghost function Run(s: State, es: seq<Event>): State {
    if es == [] then s else Apply(Run(s, es[..|es| - 1]), es[|es| - 1])
  }

  function Init(enabled: bool): State {
    State(Db(enabled, map[], map[], map[], map[], []), map[])
  }
}
