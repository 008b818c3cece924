/**
  The contact service in its own, imperative form. Each call leaves the tables,
  the sender and its answer as the step system says a worker left alone would,
  so every promise made about runs of the protocol holds of these methods.
  (src/hermes_life_bridge/contact_service.py, contact_store.py, contact_reconciliation.py)
*/
module ContactService {
  import opened Basics
  import opened ReliabilityContract
  import opened OperationStore
  import opened ContactProtocol
  import opened ContactTheorems
  import opened ContactAnswers
  import opened SqlOrder
  import S = ContactSafety

  class ContactStore {
    var requests: map<string, string>
    var receipts: map<string, Receipt>
    var reconciliations: map<string, Evidence>

    constructor ()
      ensures requests == map[] && receipts == map[] && reconciliations == map[]
    {
      requests, receipts, reconciliations := map[], map[], map[];
    }

    /** INSERT OR IGNORE, then compare the stored hash. */
    method Reserve(key: string, hash: string) returns (ok: bool)
      modifies this`requests
      ensures ok == !(key in old(requests) && old(requests)[key] != hash)
      ensures requests == if ok then old(requests)[key := hash] else old(requests)
    {
      if key !in requests {
        requests := requests[key := hash];
      }
      ok := requests[key] == hash;
    }

    method GetReceipt(key: string) returns (r: Option<Receipt>)
      ensures r == if key in receipts then Some(receipts[key]) else None
    {
      r := if key in receipts then Some(receipts[key]) else None;
    }

    method SaveReceipt(key: string, receipt: Receipt)
      modifies this`receipts
      ensures receipts == old(receipts)[key := receipt]
    {
      receipts := receipts[key := receipt];
    }

    method GetReconciliation(key: string) returns (r: Option<Evidence>)
      ensures r == if key in reconciliations then Some(reconciliations[key]) else None
    {
      r := if key in reconciliations then Some(reconciliations[key]) else None;
    }

    /**
      Write-once: the first record stays, a different one is refused, and so is
      a record that is inconclusive, malformed or not canonical.
    */
    method SaveReconciliation(key: string, e: Evidence, canonical: bool) returns (ok: bool)
      modifies this`reconciliations
      ensures ok <==>
                && e.outcome != ProvesNothing && ValidEvidence(e) && canonical
                && (key in old(reconciliations) ==> old(reconciliations)[key] == e)
      ensures reconciliations == if ok then old(reconciliations)[key := e] else old(reconciliations)
    {
      if e.outcome == ProvesNothing || !ValidEvidence(e) || !canonical {
        return false;
      }
      if key in reconciliations {
        ok := reconciliations[key] == e;
        return;
      }
      reconciliations := reconciliations[key := e];
      ok := true;
    }
  }

  /** What `process` returns or raises. */
  datatype Answer = Answered(receipt: Receipt) | Failed(failure: Failure)

  function PlaceOf(call: Call, a: Answer): Pc {
    match a case Answered(receipt) => Returned(call, receipt) case Failed(failure) => Raised(failure)
  }

  /** What a reconciliation found, or why it failed. */
  datatype Finding = Found(evidence: Evidence) | Refused(failure: Failure)

  predicate Conclusive(r: Finding) {
    r.Found? && r.evidence.outcome != ProvesNothing
  }

  /** From DELIVERY_UNKNOWN a contact completes or fails safe, and stays itself. */
  lemma SettlesUnknown(op: Operation, cmd: Command, now: real)
    requires op.state == DeliveryUnknown && (cmd == MarkCompleted || cmd.MarkFailedSafe?)
    ensures var r := Advance(op, cmd, now);
            r.Ok? ==> r.value.state == (if cmd == MarkCompleted then Completed else FailedSafe) && SameIdentity(op, r.value)
  {
    hide ValidOperation;
  }

  lemma RowIsValid(rows: Rows, id: OpId)
    requires ValidRows(rows) && id in rows
    ensures rows[id].id == id && ValidOperation(rows[id])
  {
  }

  predicate ContactIn(rows: Rows, id: OpId, state: OperationState) {
    id in rows && rows[id].kind == Contact && rows[id].state == state
  }

  /** A prepared contact of the call that was never started. */
  predicate Startable(rows: Rows, id: OpId, call: Call) {
    ContactIn(rows, id, Prepared) && rows[id].attempt == 0 && rows[id].key == call.key
  }

  ghost predicate InFlightFrom(a: Rows, b: Rows, id: OpId) {
    && id in a && id in b && b == a[id := b[id]] && SameIdentity(a[id], b[id]) && b[id].createdAt == a[id].createdAt
    && b[id].id == a[id].id && b[id].state == InFlight && b[id].attempt == a[id].attempt + 1
  }

  ghost predicate EndedAs(a: Rows, b: Rows, id: OpId, state: OperationState, code: Option<string>) {
    && id in a && id in b && b == a[id := b[id]] && SameIdentity(a[id], b[id])
    && b[id].attempt == a[id].attempt && b[id].state == state && b[id].errorCode == code
  }

  /** The row a lost send leaves. */
  function UnknownFrom(op: Operation, at: real): Operation {
    op.(state := DeliveryUnknown, updatedAt := at, nextAttemptAt := None,
        errorCode := Some("hermes_send_outcome_unknown"), outcome := Some(DeliveryOutcome.Unknown))
  }

  ghost function Marked(db: Db, id: OpId, at: real): Db
    requires id in db.rows
  {
    db.(rows := db.rows[id := UnknownFrom(db.rows[id], at)])
  }

  lemma FailedSafeBuilds(rows: Rows, id: OpId, code: string, at: real)
    requires ValidRows(rows) && IsSafeToken(code)
    ensures var r := Transact(rows, id, MarkFailedSafe(Some(code)), at);
            ContactIn(rows, id, InFlight) ==> r.Ok? && EndedAs(rows, After(rows, id, r), id, FailedSafe, Some(code))
  {
    if ContactIn(rows, id, InFlight) {
      RowIsValid(rows, id);
      CommandMeans(rows[id], MarkFailedSafe(Some(code)), at);
    }
    hide ValidRows, Advance;
  }

  lemma SentFails(db: Db, call: Call, id: OpId, env: Env)
    ensures Perform(db, Sent(call, id, SendFailedSafe), env)
         == ContactProtocol.Commit(db, id, MarkFailedSafe(Some("hermes_send_failed_safe")), env.now, Raised(FreshDecisionRequired))
  {
    hide ContactProtocol.Commit;
  }

  lemma UnknownBuilds(rows: Rows, id: OpId, at: real)
    requires ValidRows(rows)
    ensures ContactIn(rows, id, InFlight) ==>
              Transact(rows, id, MarkDeliveryUnknown(Some("hermes_send_outcome_unknown")), at) == Ok(UnknownFrom(rows[id], at))
  {
    if ContactIn(rows, id, InFlight) {
      RowIsValid(rows, id);
      assert IsSafeToken("hermes_send_outcome_unknown");
      BuildIsSound(rows[id], MarkDeliveryUnknown(Some("hermes_send_outcome_unknown")), at);
    }
  }

  lemma SentLost(db: Db, call: Call, id: OpId, env: Env)
    ensures Perform(db, Sent(call, id, SendUnknown), env)
         == ContactProtocol.Commit(db, id, MarkDeliveryUnknown(Some("hermes_send_outcome_unknown")), env.now,
                                   Pc.Reconcile(Some(call), id))
  {
    hide ContactProtocol.Commit;
  }

  predicate UnknownContact(rows: Rows, id: OpId) {
    id in rows && rows[id].kind == Contact && rows[id].state == DeliveryUnknown
  }

  lemma ResolveSteps(db: Db, from: Option<Call>, op: Operation, e: Evidence, env: Env)
    requires e.outcome != ProvesNothing
    ensures Perform(db, Resolve(from, op, e), env)
         == ContactProtocol.Commit(db, op.id,
              if e.outcome == ProvesDelivery then MarkCompleted
              else MarkFailedSafe(Some("reconciled_authoritative_non_delivery")),
              env.now, Reconciled(from, Found(e)))
  {
    hide ContactProtocol.Commit;
  }

  lemma SavedOnRecord(db: Db, key: string, e: Evidence)
    requires key in db.reconciliations ==> db.reconciliations[key] == e
    ensures var after := db.(reconciliations := db.reconciliations[key := e]);
            OnRecord(after, key, Found(e)) && OnlyRecords(db, after)
  {
  }

  lemma NothingOnRecord(db: Db, key: string, r: Finding)
    requires !Conclusive(r)
    ensures OnRecord(db, key, r) && OnlyRecords(db, db)
  {
  }

  lemma SettledOnRecord(db: Db, rows: Rows, op: Operation, r: Finding)
    requires Conclusive(r) && OnRecord(db, op.key, r)
    requires op.state == if r.evidence.outcome == ProvesDelivery then Completed else FailedSafe
    ensures Settled(db.(rows := rows), op)
  {
  }

  /**
    The evidence on a contact: a delivered receipt, else the stored record, else
    the probe's word, which is stored when it is conclusive.
  */
  ghost function EvidenceOn(db: Db, key: string, probe: Option<Evidence>, canonical: bool): Finding {
    if S.HasReceipt(db, key) then
      var named := db.receipts[key].providerId;
      if |named| > 512 then Refused(StoreRefused(InvalidValue))
      else Found(Evidence(ProvesDelivery, "contact_store_receipt", if named == "" then "hlb-receipt" else named))
    else if key in db.reconciliations then Found(db.reconciliations[key])
    else if probe.None? then Found(Evidence(ProvesNothing, "no_authoritative_probe", ""))
    else if !ValidEvidence(probe.value) || (probe.value.outcome != ProvesNothing && !canonical) then
      Refused(StoreRefused(InvalidValue))
    else Found(probe.value)
  }

  lemma ReceiptTokens(r: Receipt)
    ensures ValidEvidence(ReceiptEvidence(r)) <==> |r.providerId| <= 512
  {
    assert IsSafeToken("contact_store_receipt");
  }

  /** Where the evidence comes from. */
  lemma EvidenceCases(db: Db, key: string, probe: Option<Evidence>, canonical: bool)
    ensures S.HasReceipt(db, key) ==> EvidenceOn(db, key, probe, canonical) == EvidenceOn(db, key, None, true)
    ensures !S.HasReceipt(db, key) && key in db.reconciliations ==>
              EvidenceOn(db, key, probe, canonical) == Found(db.reconciliations[key])
  {
    hide ValidEvidence;
  }

  /** `r` is the evidence on the key, with what a probe at step `t` says. */
  ghost predicate AskedAt(db: Db, key: string, r: Finding, world: nat -> Env, t: nat, from: nat, to: nat) {
    from <= t < to && r == EvidenceOn(db, key, world(t).probe, world(t + 1).canonical)
  }

  lemma AskedSince(db: Db, key: string, r: Finding, world: nat -> Env, t: nat, from: nat, to: nat, earlier: nat, later: nat)
    requires AskedAt(db, key, r, world, t, from, to) && earlier <= from && to <= later
    ensures AskedAt(db, key, r, world, t, earlier, later)
  {
    hide EvidenceOn;
  }

  /** What a reconciliation does to its contact, and to nothing else. */
  ghost predicate Judged(a: Db, b: Db, id: OpId, r: Finding) {
    && id in a.rows && id in b.rows && b.rows == a.rows[id := b.rows[id]] && SameIdentity(a.rows[id], b.rows[id])
    && Stored(a, b.(rows := a.rows), a.rows[id].key, r) && OnlyRecords(a, b.(rows := a.rows))
    && (if Conclusive(r) then
          && b.rows[id].state == (if r.evidence.outcome == ProvesDelivery then Completed else FailedSafe)
          && Settled(b, b.rows[id])
        else b.rows == a.rows)
  }

  lemma ConclusiveJudged(a: Db, db: Db, b: Db, op: Operation, r: Finding)
    requires op.id in a.rows && a.rows[op.id] == op && Conclusive(r)
    requires Stored(a, db, op.key, r) && OnlyRecords(a, db)
    requires op.id in b.rows && b == db.(rows := a.rows[op.id := b.rows[op.id]]) && SameIdentity(op, b.rows[op.id])
    requires b.rows[op.id].state == (if r.evidence.outcome == ProvesDelivery then Completed else FailedSafe)
    requires Settled(db.(rows := b.rows), b.rows[op.id])
    ensures Judged(a, b, op.id, r)
  {
    hide Settled;
  }

  lemma InconclusiveJudged(a: Db, b: Db, op: Operation, r: Finding)
    requires op.id in a.rows && a.rows[op.id] == op && !Conclusive(r)
    requires Stored(a, b, op.key, r) && OnlyRecords(a, b)
    ensures Judged(a, b, op.id, r)
  {
    assert a.rows[op.id := op] == a.rows;
  }

  /** With nothing on record the probe decides. */
  lemma EvidenceFromProbe(db: Db, key: string, probe: Option<Evidence>, canonical: bool)
    requires !S.HasReceipt(db, key) && key !in db.reconciliations
    ensures var r := Heard(probe);
            EvidenceOn(db, key, probe, canonical)
              == if Conclusive(r) && !canonical then Refused(StoreRefused(InvalidValue)) else r
  {
    hide ValidEvidence;
  }

  /** What is heard of a probe, before it is stored. */
  function Heard(probe: Option<Evidence>): Finding {
    if probe.None? then Found(Evidence(ProvesNothing, "no_authoritative_probe", ""))
    else if !ValidEvidence(probe.value) then Refused(StoreRefused(InvalidValue))
    else Found(probe.value)
  }

  lemma ProbeLeads(db: Db, from: Option<Call>, op: Operation, env: Env)
    ensures var r := Heard(env.probe);
            Perform(db, Probe(from, op), env)
              == Outcome(db, if Conclusive(r) then SaveReconciliation(from, op, r.evidence) else Collected(from, op, r))
    ensures Conclusive(Heard(env.probe)) ==> ValidEvidence(Heard(env.probe).evidence)
  {
    hide ValidEvidence;
  }

  lemma FindingStored(a: Db, b: Db, key: string, r: Finding, e: Evidence)
    requires e.outcome != ProvesNothing && (r == Found(e) || r.Refused?)
    requires b == a.(reconciliations := if r == Found(e) then a.reconciliations[key := e] else a.reconciliations)
    ensures !S.HasReceipt(a, key) ==> Stored(a, b, key, r)
  {
  }

  /** Evidence that was already there, or proves nothing, adds no record. */
  lemma NothingStored(db: Db, key: string, r: Finding)
    requires S.HasReceipt(db, key) || !Conclusive(r) || (key in db.reconciliations && r == Found(db.reconciliations[key]))
    ensures Stored(db, db, key, r) && OnlyRecords(db, db)
  {
  }

  lemma SameEvidenceOn(a: Db, b: Db, key: string, probe: Option<Evidence>, canonical: bool)
    requires a.receipts == b.receipts && a.reconciliations == b.reconciliations
    ensures EvidenceOn(a, key, probe, canonical) == EvidenceOn(b, key, probe, canonical)
  {
    hide ValidEvidence;
  }

  /** What collecting the evidence does to the records. */
  ghost predicate Stored(a: Db, b: Db, key: string, r: Finding) {
    b == a.(reconciliations := if Conclusive(r) && !S.HasReceipt(a, key) then a.reconciliations[key := r.evidence]
                               else a.reconciliations)
  }

  /** The answer to a call whose contact is unknown, and what becomes of the contact. */
  ghost predicate UnknownAnswer(a: Db, b: Db, call: Call, id: OpId, r: Finding, answer: Answer)
    requires id in a.rows
  {
    && id in b.rows && b.rows == a.rows[id := b.rows[id]] && SameIdentity(a.rows[id], b.rows[id])
    && b == a.(rows := b.rows, receipts := b.receipts, reconciliations := b.reconciliations)
    && b.reconciliations == (if Conclusive(r) && !S.HasReceipt(a, call.key) then a.reconciliations[call.key := r.evidence]
                             else a.reconciliations)
    && match r
       case Refused(failure) => answer == Failed(failure) && b.rows == a.rows && b.receipts == a.receipts
       case Found(e) =>
         match e.outcome
         case ProvesNothing => answer == Failed(StillUnknown) && b.rows == a.rows && b.receipts == a.receipts
         case ProvesNonDelivery =>
           answer == Failed(FreshDecisionRequired) && b.rows[id].state == FailedSafe && b.receipts == a.receipts
         case ProvesDelivery =>
           && answer == Answered(Receipt(SentReceipt, e.providerId)) && b.rows[id].state == Completed
           && b.receipts == a.receipts[call.key := Receipt(SentReceipt, e.providerId)]
  }

  /** The answer to a call whose row is already there and not to be sent. */
  ghost predicate KnownAnswer(a: Db, b: Db, call: Call, op: Operation, answer: Answer) {
    match op.state
    case Completed =>
      if S.Reconciled(a, call.key, ProvesDelivery) then
        var receipt := Receipt(SentReceipt, a.reconciliations[call.key].providerId);
        answer == Answered(receipt) && b == a.(receipts := a.receipts[call.key := receipt])
      else answer == Failed(ReceiptUnavailable) && b == a
    case InFlight => answer == Failed(OperationInFlight) && b == a
    case Exhausted => answer == Failed(DeliveryExhausted) && b == a
    case _ => answer == Failed(FreshDecisionRequired) && b == a
  }

  /** The answer to a call that sends, from its step `t` on: one send, and the reply decides. */
  ghost predicate SentAnswer(a: Db, b: Db, call: Call, id: OpId, t: nat, world: nat -> Env, answer: Answer)
    requires id in a.rows
  {
    var reply := world(t + 2).reply;
    var sent := a.(sends := a.sends + [SendRecord(call.key, reply)]);
    match reply
    case SendAccepted(providerId) =>
      var receipt := Receipt(SentReceipt, providerId);
      && answer == Answered(receipt) && b == sent.(rows := b.rows, receipts := a.receipts[call.key := receipt])
      && StartedAs(a.rows, b.rows, id, Completed, None)
    case SendFailedSafe =>
      && answer == Failed(FreshDecisionRequired) && b == sent.(rows := b.rows)
      && StartedAs(a.rows, b.rows, id, FailedSafe, Some("hermes_send_failed_safe"))
    case SendUnknown =>
      var lost := a.rows[id].(state := DeliveryUnknown, attempt := a.rows[id].attempt + 1, updatedAt := world(t + 3).now,
                              nextAttemptAt := None, errorCode := Some("hermes_send_outcome_unknown"),
                              outcome := Some(DeliveryOutcome.Unknown));
      UnknownAnswer(sent.(rows := a.rows[id := lost]), b, call, id,
                    EvidenceOn(a, call.key, world(t + 7).probe, world(t + 8).canonical), answer)
  }

  /** One row has been started once more and has ended so. */
  ghost predicate StartedAs(a: Rows, b: Rows, id: OpId, state: OperationState, code: Option<string>)
    requires id in a
  {
    && id in b && b == a[id := b[id]] && SameIdentity(a[id], b[id])
    && b[id].attempt == a[id].attempt + 1 && b[id].state == state && b[id].errorCode == code
  }

  /** The answer from the row the call finds or has just made, from its step `t` on. */
  ghost predicate RowAnswer(a: Db, b: Db, call: Call, op: Operation, t: nat, world: nat -> Env, answer: Answer) {
    if op.id !in a.rows then false
    else if op.state == DeliveryUnknown then
      UnknownAnswer(a, b, call, op.id, EvidenceOn(a, call.key, world(t + 4).probe, world(t + 5).canonical), answer)
    else if op.state == Prepared && op.attempt == 0 then SentAnswer(a, b, call, op.id, t + 1, world, answer)
    else KnownAnswer(a, b, call, op, answer)
  }

  /** The answer to a call past the receipt and the request check, from its step `t` on. */
  ghost predicate AdmittedAnswer(a: Db, b: Db, call: Call, t: nat, world: nat -> Env, answer: Answer) {
    var op := InitialContact(call, world(t).now);
    if !a.enabled then
      var receipt := Receipt(DryRunReceipt, "");
      answer == Answered(receipt) && b == a.(receipts := a.receipts[call.key := receipt])
    else if !InitialOperation(op) then answer == Failed(StoreRefused(InvalidValue)) && b == a
    else if HasKey(a.rows, Contact, call.key) then
      forall id | id in a.rows && a.rows[id].kind == Contact && a.rows[id].key == call.key ::
        if a.rows[id].requestHash != call.hash then answer == Failed(StoreRefused(IdempotencyConflict)) && b == a
        else RowAnswer(a, b, call, a.rows[id], t + 1, world, answer)
    else if op.id in a.rows then answer == Failed(StoreRefused(IdReused)) && b == a
    else RowAnswer(a.(rows := a.rows[op.id := op]), b, call, op, t + 1, world, answer)
  }

  function From(world: nat -> Env, t: nat): nat -> Env {
    (k: nat) => world(t + k)
  }

  /** A finished call for an unused key has given its answer. */
  lemma {:induction false} UnusedProcess(a: Db, b: Db, call: Call, pc: Pc, world: nat -> Env, from: nat, to: nat)
    requires Unused(a, call) && from <= to && Free(pc)
    requires Solo(a, Lookup(call), Envs(world, from, to)) == Outcome(b, pc)
    ensures UnusedAnswer(a, b, call, pc, From(world, from))
  {
    hide Unused, UnusedAnswer, Solo, Free;
    var env := From(world, from);
    UnusedSolo(a, call, env);
    var mine, whole := Envs(world, from, to), Part(env, 0, 15);
    if |mine| <= |whole| {
      assert mine <= whole;
      SoloEndsOnce(a, Lookup(call), mine, whole);
    } else {
      assert whole <= mine;
      SoloEndsOnce(a, Lookup(call), whole, mine);
    }
  }

  /** Where collecting the evidence leaves its worker. */
  function Collected(from: Option<Call>, op: Operation, r: Finding): Pc {
    match r
    case Refused(failure) => Raised(failure)
    case Found(e) => if e.outcome == ProvesNothing then Raised(StillUnknown) else Resolve(from, op, e)
  }

  /** Conclusive evidence, once found, is on record. */
  ghost predicate OnRecord(db: Db, key: string, r: Finding) {
    r.Found? ==>
      && (r.evidence.outcome == ProvesDelivery ==> S.Durable(db, key))
      && (r.evidence.outcome == ProvesNonDelivery ==> S.Reconciled(db, key, ProvesNonDelivery))
  }

  /** Nothing but reconciliation records may have been added. */
  ghost predicate OnlyRecords(a: Db, b: Db) {
    && b == a.(reconciliations := b.reconciliations)
    && forall key | key in a.reconciliations ::
         key in b.reconciliations && b.reconciliations[key] == a.reconciliations[key]
  }

  /** What a reconciliation may make of an interrupted contact. */
  ghost predicate Settled(db: Db, op: Operation) {
    || op.state == DeliveryUnknown
    || (op.state == Completed && S.Durable(db, op.key))
    || (op.state == FailedSafe && S.Reconciled(db, op.key, ProvesNonDelivery))
  }

  lemma ReceiptReads(db: Db, from: Option<Call>, op: Operation, env: Env)
    ensures Perform(db, ReadReceipt(from, op), env) == Outcome(db, ReadReceiptNext(db, from, op))
  {
  }

  lemma RecordReads(db: Db, from: Option<Call>, op: Operation, env: Env)
    ensures Perform(db, ReadReconciliation(from, op), env) == Outcome(db, ReadReconciliationNext(db, from, op))
  {
  }

  lemma NothingReads(db: Db, from: Option<Call>, op: Operation, e: Evidence, env: Env)
    requires e.outcome == ProvesNothing
    ensures Perform(db, Resolve(from, op, e), env) == Outcome(db, Raised(StillUnknown))
  {
  }

  lemma SaveSteps(db: Db, from: Option<Call>, op: Operation, e: Evidence, env: Env)
    ensures Perform(db, SaveReconciliation(from, op, e), env) == SaveReconciliationStep(db, from, op, e, env.canonical)
  {
  }

  lemma BeginReads(db: Db, call: Call, id: OpId, env: Env)
    ensures Perform(db, BeginRead(call, id), env) == Outcome(db, BeginNext(db, call, id))
    ensures Perform(db, BeginCommit(call, id), env) == ContactProtocol.Commit(db, id, StartAttempt, env.now, Send(call, id))
  {
    hide ContactProtocol.Commit;
  }

  /** Where a reconciliation leaves its worker. */
  function Reconciled(from: Option<Call>, r: Finding): Pc {
    match r
    case Refused(failure) => Raised(failure)
    case Found(e) =>
      match e.outcome
      case ProvesNothing => Raised(StillUnknown)
      case ProvesDelivery => if from.Some? then Rebuild(from.value, e.providerId) else Idle
      case ProvesNonDelivery => if from.Some? then Raised(FreshDecisionRequired) else Idle
  }

  /** The environment's part in the steps `from .. to - 1`. */
  function Envs(world: nat -> Env, from: nat, to: nat): (envs: seq<Env>)
    requires from <= to
    ensures |envs| == to - from && forall i | 0 <= i < |envs| :: envs[i] == world(from + i)
  {
    seq(to - from, i requires 0 <= i < to - from => world(from + i))
  }

  lemma SoloStep(db: Db, pc: Pc, world: nat -> Env, from: nat, to: nat)
    requires from <= to
    ensures var o := Solo(db, pc, Envs(world, from, to));
            Solo(db, pc, Envs(world, from, to + 1)) == Perform(o.db, o.pc, world(to))
  {
    hide Perform;
    var envs := Envs(world, from, to + 1);
    assert envs[..|envs| - 1] == Envs(world, from, to);
  }

  lemma StartedContact(a: Rows, b: Rows, id: OpId, call: Call)
    requires Startable(a, id, call) && InFlightFrom(a, b, id)
    ensures id in a && ContactIn(b, id, InFlight) && b[id].key == call.key
  {
  }

  lemma UnusedMeans(db: Db, call: Call)
    ensures Unused(db, call) ==> call.key !in db.receipts && call.key !in db.requests
  {
  }

  lemma RefusedAnswers(a: Db, call: Call, t: nat, world: nat -> Env, e: Error)
    requires a.enabled && ValidRows(a.rows) && Reserved(a.rows, InitialContact(call, world(t).now)) == Err(e)
    ensures AdmittedAnswer(a, a, call, t, world, Failed(StoreRefused(e)))
    ensures AfterReserve(a.rows, InitialContact(call, world(t).now)) == a.rows
  {
    hide ValidOperation, RowAnswer;
  }

  lemma RowAnswers(a: Db, kept: Db, b: Db, call: Call, op: Operation, t: nat, world: nat -> Env, answer: Answer)
    requires a.enabled && ValidRows(a.rows) && Reserved(a.rows, InitialContact(call, world(t).now)) == Ok(op)
    requires kept == a.(rows := AfterReserve(a.rows, InitialContact(call, world(t).now)))
    requires RowAnswer(kept, b, call, op, t + 1, world, answer)
    ensures AdmittedAnswer(a, b, call, t, world, answer)
  {
    hide ValidOperation, RowAnswer;
    if HasKey(a.rows, Contact, call.key) {
      assert kept.rows == a.rows;
    }
  }

  lemma DryAnswers(a: Db, b: Db, call: Call, t: nat, world: nat -> Env, answer: Answer)
    requires !a.enabled && answer == Answered(Receipt(DryRunReceipt, ""))
    requires b == a.(receipts := a.receipts[call.key := Receipt(DryRunReceipt, "")])
    ensures AdmittedAnswer(a, b, call, t, world, answer)
  {
    hide InitialOperation, RowAnswer;
  }

  lemma SentIsRowAnswer(a: Db, b: Db, call: Call, op: Operation, t: nat, world: nat -> Env, answer: Answer)
    requires op.id in a.rows && op.state == Prepared && op.attempt == 0
    requires SentAnswer(a, b, call, op.id, t + 1, world, answer)
    ensures RowAnswer(a, b, call, op, t, world, answer)
  {
    hide SentAnswer;
  }

  lemma NotSentAnswers(a: Db, b: Db, started: Rows, call: Call, id: OpId, t: nat, world: nat -> Env, answer: Answer)
    requires InFlightFrom(a.rows, started, id) && world(t + 2).reply == SendFailedSafe
    requires answer == Failed(FreshDecisionRequired)
    requires EndedAs(started, b.rows, id, FailedSafe, Some("hermes_send_failed_safe"))
    requires b == a.(rows := b.rows, sends := a.sends + [SendRecord(call.key, SendFailedSafe)])
    ensures SentAnswer(a, b, call, id, t, world, answer)
  {
    assert b.rows == a.rows[id := b.rows[id]];
  }

  lemma KeptAnswers(a: Db, b: Db, started: Rows, call: Call, id: OpId, t: nat, world: nat -> Env, answer: Answer)
    requires InFlightFrom(a.rows, started, id) && world(t + 2).reply.SendAccepted?
    requires var receipt := Receipt(SentReceipt, world(t + 2).reply.providerId);
             && answer == Answered(receipt)
             && b == a.(rows := b.rows, sends := a.sends + [SendRecord(call.key, world(t + 2).reply)],
                        receipts := a.receipts[call.key := receipt])
    requires EndedAs(started, b.rows, id, Completed, None)
    ensures SentAnswer(a, b, call, id, t, world, answer)
  {
    assert b.rows == a.rows[id := b.rows[id]];
  }

  lemma UnknownAnswers(a: Db, sent: Db, b: Db, call: Call, id: OpId, t: nat, world: nat -> Env, answer: Answer)
    requires InFlightFrom(a.rows, sent.rows, id) && world(t + 2).reply == SendUnknown
    requires sent == a.(rows := sent.rows, sends := a.sends + [SendRecord(call.key, SendUnknown)])
    requires UnknownAnswer(Marked(sent, id, world(t + 3).now), b, call, id,
                           EvidenceOn(sent, call.key, world(t + 7).probe, world(t + 8).canonical), answer)
    ensures SentAnswer(a, b, call, id, t, world, answer)
  {
    hide UnknownAnswer, EvidenceOn;
    SameEvidenceOn(a, sent, call.key, world(t + 7).probe, world(t + 8).canonical);
    var lost := UnknownFrom(sent.rows[id], world(t + 3).now);
    assert sent.rows[id := lost] == a.rows[id := lost];
    assert lost == a.rows[id].(state := DeliveryUnknown, attempt := a.rows[id].attempt + 1, updatedAt := world(t + 3).now,
                               nextAttemptAt := None, errorCode := Some("hermes_send_outcome_unknown"),
                               outcome := Some(DeliveryOutcome.Unknown));
  }

  class ContactService {
    const enabled: bool
    const store: ContactStore
    const operations: Store
    /** Clock readings, sender replies and probe results, step by step. */
    const world: nat -> Env
    var tick: nat
    var startupRecovered: bool
    /** The call under way: where it began, and where it is. */
    ghost var began: nat
    ghost var start: Outcome
    ghost var place: Pc
    ghost var sends: seq<SendRecord>

    constructor (enabled: bool, store: ContactStore, operations: Store, world: nat -> Env)
      ensures this.enabled == enabled && this.store == store && this.operations == operations && this.world == world
      ensures tick == 0 && sends == [] && !startupRecovered
    {
      this.enabled, this.store, this.operations, this.world := enabled, store, operations, world;
      tick, sends, startupRecovered := 0, [], false;
    }

    ghost function Tables(): Db
      reads this, store, operations
    {
      Db(enabled, operations.rows, store.requests, store.receipts, store.reconciliations, sends)
    }

    ghost predicate Led(db: Db, pc: Pc)
      reads this
    {
      began <= tick && Solo(start.db, start.pc, Envs(world, began, tick)) == Outcome(db, pc)
    }

    /** The call so far is a solo execution of its worker. */
    ghost predicate OnTrack()
      reads this, store, operations
    {
      operations.Valid() && Led(Tables(), place)
    }

    /** One step of the worker has been taken. */
    method Went(ghost before: Db, ghost next: Pc)
      requires operations.Valid() && Led(before, place)
      requires Perform(before, place, world(tick)) == Outcome(Tables(), next)
      modifies this`tick, this`place
      ensures OnTrack() && place == next && tick == old(tick) + 1
    {
      hide Explains, InitialOperation, Perform;
      SoloStep(start.db, start.pc, world, began, tick);
      tick, place := tick + 1, next;
    }

    /** One command on the operation store is one step. */
    method Commit(id: OpId, cmd: Command, ghost next: Pc) returns (r: Result<Operation>)
      requires OnTrack()
      requires Perform(Tables(), place, world(tick)) == ContactProtocol.Commit(Tables(), id, cmd, world(tick).now, next)
      modifies this`tick, this`place, operations`rows, operations`journal
      ensures OnTrack() && r == Transact(old(operations.rows), id, cmd, old(world(tick).now))
      ensures place == if r.Ok? then next else Raised(StoreRefused(r.error))
      ensures operations.rows == After(old(operations.rows), id, r) && tick == old(tick) + 1
    {
      ghost var before := Tables();
      hide Explains, InitialOperation, Perform, Transact;
      r := operations.Transition(id, cmd, world(tick).now);
      Went(before, if r.Ok? then next else Raised(StoreRefused(r.error)));
    }

    // --------------------------------------------------- reconciliation

    /** _local_evidence, then the probe. */
    method CollectEvidence(from: Option<Call>, op: Operation) returns (r: Finding, ghost t: nat)
      requires OnTrack() && place == ReadReceipt(from, op)
      modifies this`tick, this`place, store`reconciliations
      ensures OnTrack() && place == Collected(from, op, r)
      ensures OnRecord(Tables(), op.key, r) && OnlyRecords(old(Tables()), Tables())
      ensures r == EvidenceOn(old(Tables()), op.key, world(old(tick) + 2).probe, world(old(tick) + 3).canonical)
      ensures Stored(old(Tables()), Tables(), op.key, r)
      ensures AskedAt(old(Tables()), op.key, r, world, t, old(tick), tick)
    {
      hide Explains, InitialOperation, Perform, Solo, Envs, ValidRows, ValidEvidence, EvidenceOn, Stored, OnRecord,
           OnlyRecords, OnTrack;
      ghost var before, probe, canonical := Tables(), world(tick + 2).probe, world(tick + 3).canonical;
      EvidenceCases(before, op.key, probe, canonical);
      EvidenceCases(before, op.key, world(tick).probe, world(tick + 1).canonical);
      t := tick;
      var proved := ProveByReceipt(from, op);
      if proved.Some? {
        NothingStored(before, op.key, proved.value);
        return proved.value, t;
      }
      var stored := ReadRecord(from, op);
      if stored.Some? {
        NothingStored(before, op.key, stored.value);
        return stored.value, t;
      }
      t := tick;
      r := AskProbe(from, op);
    }

    /** So is a stored record. */
    method ReadRecord(from: Option<Call>, op: Operation) returns (r: Option<Finding>)
      requires OnTrack() && place == ReadReconciliation(from, op)
      modifies this`tick, this`place
      ensures OnTrack() && place == if r.Some? then Collected(from, op, r.value) else Probe(from, op)
      ensures r == if op.key in store.reconciliations then Some(Found(store.reconciliations[op.key])) else None
      ensures r.Some? ==> OnRecord(Tables(), op.key, r.value)
      ensures old(tick) < tick <= old(tick) + 2 && (r.None? ==> tick == old(tick) + 1)
    {
      hide Explains, InitialOperation, Perform, Solo, Envs, ValidRows;
      var stored := store.GetReconciliation(op.key);
      RecordReads(Tables(), from, op, world(tick));
      Went(Tables(), if stored.Some? then Resolve(from, op, stored.value) else Probe(from, op));
      if stored.Some? && stored.value.outcome == ProvesNothing {
        NothingReads(Tables(), from, op, stored.value, world(tick));
        Went(Tables(), Raised(StillUnknown));
      }
      r := if stored.Some? then Some(Found(stored.value)) else None;
    }

    /** A delivered receipt is evidence. */
    method ProveByReceipt(from: Option<Call>, op: Operation) returns (r: Option<Finding>)
      requires OnTrack() && place == ReadReceipt(from, op)
      modifies this`tick, this`place
      ensures OnTrack() && place == if r.Some? then Collected(from, op, r.value) else ReadReconciliation(from, op)
      ensures r.Some? ==> OnRecord(Tables(), op.key, r.value)
      ensures r.Some? <==> S.HasReceipt(Tables(), op.key)
      ensures r.Some? ==> r.value == EvidenceOn(Tables(), op.key, None, true)
      ensures tick == old(tick) + 1
    {
      hide Explains, InitialOperation, Perform, Solo;
      ReceiptReads(Tables(), from, op, world(tick));
      hide Explains, InitialOperation, ValidEvidence;
      var receipt := store.GetReceipt(op.key);
      if receipt.Some? && receipt.value.status == SentReceipt {
        var evidence := ReceiptEvidence(receipt.value);
        ReceiptTokens(receipt.value);
        r := Some(if ValidEvidence(evidence) then Found(evidence) else Refused(StoreRefused(InvalidValue)));
      } else {
        r := None;
      }
      Went(Tables(), if r.Some? then Collected(from, op, r.value) else ReadReconciliation(from, op));
    }

    method AskProbe(from: Option<Call>, op: Operation) returns (r: Finding)
      requires OnTrack() && place == Probe(from, op)
      requires !S.HasReceipt(Tables(), op.key) && op.key !in store.reconciliations
      modifies this`tick, this`place, store`reconciliations
      ensures OnTrack() && place == Collected(from, op, r) && old(tick) < tick <= old(tick) + 2
      ensures OnRecord(Tables(), op.key, r) && OnlyRecords(old(Tables()), Tables()) && Stored(old(Tables()), Tables(), op.key, r)
      ensures r == EvidenceOn(old(Tables()), op.key, world(old(tick)).probe, world(old(tick) + 1).canonical)
    {
      hide Explains, InitialOperation, Perform, Solo, ValidEvidence, OnRecord, OnlyRecords, ValidRows, Envs,
           EvidenceOn, Stored, Heard, Collected, Led;
      ghost var before := Tables();
      EvidenceFromProbe(before, op.key, world(tick).probe, world(tick + 1).canonical);
      ProbeLeads(before, from, op, world(tick));
      hide S.HasReceipt;
      r := Heard(world(tick).probe);
      Went(before, if Conclusive(r) then SaveReconciliation(from, op, r.evidence) else Collected(from, op, r));
      if Conclusive(r) {
        r := SaveEvidence(from, op, r.evidence);
      } else {
        NothingOnRecord(before, op.key, r);
        NothingStored(before, op.key, r);
      }
    }

    method SaveEvidence(from: Option<Call>, op: Operation, e: Evidence) returns (r: Finding)
      requires OnTrack() && place == SaveReconciliation(from, op, e) && e.outcome != ProvesNothing && ValidEvidence(e)
      requires !S.HasReceipt(Tables(), op.key) && op.key !in store.reconciliations
      modifies this`tick, this`place, store`reconciliations
      ensures OnTrack() && place == Collected(from, op, r)
      ensures OnRecord(Tables(), op.key, r) && OnlyRecords(old(Tables()), Tables()) && Stored(old(Tables()), Tables(), op.key, r)
      ensures r == if world(old(tick)).canonical then Found(e) else Refused(StoreRefused(InvalidValue))
      ensures tick == old(tick) + 1
    {
      hide Explains, InitialOperation, Perform, Solo, OnRecord, OnlyRecords, ValidEvidence, ValidRows, Envs, Stored;
      ghost var before := Tables();
      SaveSteps(before, from, op, e, world(tick));
      SavedOnRecord(before, op.key, e);
      NothingOnRecord(before, op.key, Refused(StoreRefused(InvalidValue)));
      var saved := store.SaveReconciliation(op.key, e, world(tick).canonical);
      r := if saved then Found(e) else Refused(StoreRefused(InvalidValue));
      FindingStored(before, Tables(), op.key, r, e);
      Went(before, Collected(from, op, r));
    }

    /** ContactReconciler.reconcile */
    method Reconcile(from: Option<Call>, id: OpId) returns (r: Finding)
      requires OnTrack() && place == Pc.Reconcile(from, id)
      modifies this`tick, this`place, store`reconciliations, operations`rows, operations`journal
      ensures OnTrack() && place == Reconciled(from, r)
      ensures !UnknownContact(old(operations.rows), id) ==> r.Refused? && Tables() == old(Tables())
      ensures UnknownContact(old(operations.rows), id) ==>
                var key := old(operations.rows)[id].key;
                && Judged(old(Tables()), Tables(), id, r)
                && r == EvidenceOn(old(Tables()), key, world(old(tick) + 3).probe, world(old(tick) + 4).canonical)
                && exists t: nat :: AskedAt(old(Tables()), key, r, world, t, old(tick), tick)
    {
      hide Explains, InitialOperation, Perform, Solo, ValidRows, Envs, EvidenceOn, Judged, OnTrack, AskedAt;
      var read := ReadUnknown(from, id);
      if read.Err? {
        return Refused(StoreRefused(read.error));
      }
      ghost var before, start := Tables(), tick;
      ghost var t;
      r, t := Judge(from, read.value);
      AskedSince(before, read.value.key, r, world, t, start, tick, old(tick), tick);
    }

    /** The evidence, and what it makes of the row. */
    method Judge(from: Option<Call>, op: Operation) returns (r: Finding, ghost t: nat)
      requires OnTrack() && place == ReadReceipt(from, op) && op.state == DeliveryUnknown
      requires op.id in operations.rows && operations.rows[op.id] == op
      modifies this`tick, this`place, store`reconciliations, operations`rows, operations`journal
      ensures OnTrack() && place == Reconciled(from, r) && Judged(old(Tables()), Tables(), op.id, r)
      ensures r == EvidenceOn(old(Tables()), op.key, world(old(tick) + 2).probe, world(old(tick) + 3).canonical)
      ensures AskedAt(old(Tables()), op.key, r, world, t, old(tick), tick)
    {
      hide Explains, InitialOperation, Perform, Solo, ValidRows, OnRecord, Settled, Envs, EvidenceOn, OnlyRecords,
           Judged, Stored, AskedAt;
      ghost var before, start := Tables(), tick;
      r, t := CollectEvidence(from, op);
      ghost var db, asked := Tables(), tick;
      if Conclusive(r) {
        r := Settle(from, op, r.evidence);
        SettledOnRecord(db, operations.rows, operations.rows[op.id], r);
        ConclusiveJudged(before, db, Tables(), op, r);
      } else {
        InconclusiveJudged(before, db, op, r);
      }
      AskedSince(before, op.key, r, world, t, start, asked, start, tick);
    }

    method ReadUnknown(from: Option<Call>, id: OpId) returns (r: Result<Operation>)
      requires OnTrack() && place == Pc.Reconcile(from, id)
      modifies this`tick, this`place
      ensures OnTrack()
      ensures place == match r case Ok(op) => ReadReceipt(from, op) case Err(e) => Raised(StoreRefused(e))
      ensures r.Ok? <==> UnknownContact(operations.rows, id)
      ensures tick == old(tick) + 1
      ensures r.Ok? ==> id in operations.rows && operations.rows[id] == r.value && r.value.id == id && r.value.state == DeliveryUnknown
    {
      hide Explains, InitialOperation, ContactProtocol.Commit, Transact;
      var op := operations.Get(id);
      r := if op.None? then Err(NotFound)
           else if op.value.kind != Contact then Err(InvalidValue)
           else if op.value.state != DeliveryUnknown then Err(StateConflict)
           else Ok(op.value);
      Went(Tables(), if r.Ok? then ReadReceipt(from, r.value) else Raised(StoreRefused(r.error)));
    }

    method Settle(from: Option<Call>, op: Operation, e: Evidence) returns (r: Finding)
      requires OnTrack() && place == Resolve(from, op, e) && e.outcome != ProvesNothing
      requires op.id in operations.rows && operations.rows[op.id] == op && op.state == DeliveryUnknown
      modifies this`tick, this`place, operations`rows, operations`journal
      ensures OnTrack() && place == Reconciled(from, r) && tick == old(tick) + 1
      ensures r == Found(e)
      ensures op.id in operations.rows && operations.rows == old(operations.rows)[op.id := operations.rows[op.id]]
      ensures operations.rows[op.id].state == if e.outcome == ProvesDelivery then Completed else FailedSafe
      ensures SameIdentity(op, operations.rows[op.id])
    {
      hide Explains, InitialOperation, Advance, Solo;
      var cmd := if e.outcome == ProvesDelivery then MarkCompleted
                 else MarkFailedSafe(Some("reconciled_authoritative_non_delivery"));
      SettlesUnknown(op, cmd, world(tick).now);
      assert ValidOperation(op) by { RowIsValid(operations.rows, op.id); }
      CommandMeans(op, cmd, world(tick).now);
      assert IsSafeToken("reconciled_authoritative_non_delivery");
      ResolveSteps(Tables(), from, op, e, world(tick));
      hide Perform;
      var done := Commit(op.id, cmd, Reconciled(from, Found(e)));
      assert done.Ok?;
      return Found(e);
    }

    /** _reconciled_receipt */
    method ReconciledReceipt(call: Call, providerId: string) returns (a: Answer)
      requires OnTrack() && place == Rebuild(call, providerId)
      modifies this`tick, this`place, store`receipts
      ensures OnTrack() && place == PlaceOf(call, a)
      ensures a == Answered(Receipt(SentReceipt, providerId))
      ensures store.receipts == old(store.receipts)[call.key := Receipt(SentReceipt, providerId)]
    {
      ghost var before := Tables();
      var receipt := Receipt(SentReceipt, providerId);
      store.SaveReceipt(call.key, receipt);
      Went(before, Returned(call, receipt));
      return Answered(receipt);
    }

    /** _handle_unknown */
    method HandleUnknown(call: Call, id: OpId) returns (a: Answer)
      requires OnTrack() && place == Pc.Reconcile(Some(call), id)
      modifies this`tick, this`place, store`receipts, store`reconciliations, operations`rows, operations`journal
      ensures OnTrack() && place == PlaceOf(call, a)
      ensures UnknownContact(old(operations.rows), id) && old(operations.rows)[id].key == call.key ==>
                UnknownAnswer(old(Tables()), Tables(), call, id,
                              EvidenceOn(old(Tables()), call.key, world(old(tick) + 3).probe, world(old(tick) + 4).canonical), a)
    {
      hide Explains, InitialOperation, Perform, Solo, ValidRows, Envs, EvidenceOn;
      var r := Reconcile(Some(call), id);
      if r.Refused? {
        return Failed(r.failure);
      }
      if r.evidence.outcome == ProvesDelivery {
        a := ReconciledReceipt(call, r.evidence.providerId);
      } else if r.evidence.outcome == ProvesNonDelivery {
        return Failed(FreshDecisionRequired);
      } else {
        return Failed(StillUnknown);
      }
    }

    // -------------------------------------------------------------- process

    /** process */
    method Process(call: Call) returns (a: Answer)
      requires operations.Valid()
      modifies this, store, operations
      ensures OnTrack() && place == PlaceOf(call, a)
      ensures start == Outcome(old(Tables()), Lookup(call)) && began == old(tick)
      // a receipt on record answers the call, and nothing moves
      ensures call.key in old(store.receipts) ==> a == Answered(old(store.receipts)[call.key]) && Tables() == old(Tables())
      // so does a row that is not to be sent, and a fresh prepared one is sent
      ensures call.key !in old(store.receipts) ==>
                if call.key in old(store.requests) && old(store.requests)[call.key] != call.hash then
                  a == Failed(RequestConflict) && Tables() == old(Tables())
                else AdmittedAnswer(old(Tables()).(requests := old(store.requests)[call.key := call.hash]), Tables(), call,
                                    old(tick) + 2, world, a)
      // an unused key is sent once, and the replies decide everything
      ensures Unused(old(Tables()), call) ==> UnusedAnswer(old(Tables()), Tables(), call, place, From(world, old(tick)))
    {
      hide Explains, InitialOperation, Perform, ContactProtocol.Commit, Unused, UnusedAnswer, AdmittedAnswer, Envs,
           ValidRows, Solo;
      ghost var first, from := Tables(), tick;
      Begin(Lookup(call));
      var cached := CheckCache(call);
      if cached.Some? {
        UnusedMeans(first, call);
        return Answered(cached.value);
      }
      a := Admit(call);
      if Unused(first, call) {
        UnusedProcess(first, Tables(), call, place, world, from, tick);
      }
    }

    /** The rest of process, past the receipt cache. */
    method Admit(call: Call) returns (a: Answer)
      requires OnTrack() && place == Pc.ReserveRequest(call)
      modifies this`tick, this`place, this`sends, store, operations
      ensures OnTrack() && place == PlaceOf(call, a)
      ensures if call.key in old(store.requests) && old(store.requests)[call.key] != call.hash then
                a == Failed(RequestConflict) && Tables() == old(Tables())
              else AdmittedAnswer(old(Tables()).(requests := old(store.requests)[call.key := call.hash]), Tables(), call,
                                  old(tick) + 1, world, a)
    {
      hide Explains, InitialOperation, Perform, ContactProtocol.Commit, EvidenceOn, UnknownAnswer, ValidRows, Envs,
           Solo, SentAnswer, RowAnswer, AdmittedAnswer, OnTrack, Reserved, AfterReserve;
      var reserved := ReserveRequest(call);
      if !reserved {
        return Failed(RequestConflict);
      }
      ghost var admitted, t := Tables(), tick;
      if enabled {
        a := Deliver(call);
      } else {
        a := AnswerDryRun(call);
        DryAnswers(admitted, Tables(), call, t, world, a);
      }
    }

    /** Reserve the operation, look at it, and send if it is to be sent. */
    method Deliver(call: Call) returns (a: Answer)
      requires OnTrack() && place == Pc.ReserveOperation(call) && enabled
      modifies this`tick, this`place, this`sends, store`receipts, store`reconciliations, operations
      ensures OnTrack() && place == PlaceOf(call, a)
      ensures AdmittedAnswer(old(Tables()), Tables(), call, old(tick), world, a)
    {
      hide Explains, InitialOperation, Perform, ContactProtocol.Commit, EvidenceOn, UnknownAnswer, ValidRows, Envs,
           Solo, SentAnswer, RowAnswer, AdmittedAnswer, OnTrack, Reserved, AfterReserve;
      ghost var admitted, t := Tables(), tick;
      var op := ReserveOperation(call);
      if op.Err? {
        RefusedAnswers(admitted, call, t, world, op.error);
        return Failed(StoreRefused(op.error));
      }
      ghost var kept := Tables();
      var prepared := PrepareExisting(call, op.value);
      if prepared.Some? {
        a := prepared.value;
      } else {
        a := Attempt(call, op.value.id);
        SentIsRowAnswer(kept, Tables(), call, op.value, t + 1, world, a);
      }
      RowAnswers(admitted, kept, Tables(), call, op.value, t, world, a);
    }

    method Begin(ghost pc: Pc)
      requires operations.Valid()
      modifies this`began, this`start, this`place
      ensures OnTrack() && place == pc && start == Outcome(Tables(), pc) && began == tick
    {
      hide Explains, InitialOperation, Perform;
      began, start, place := tick, Outcome(Tables(), pc), pc;
      assert Envs(world, tick, tick) == [];
    }

    method CheckCache(call: Call) returns (cached: Option<Receipt>)
      requires OnTrack() && place == Lookup(call)
      modifies this`tick, this`place
      ensures OnTrack() && place == if cached.Some? then Returned(call, cached.value) else Pc.ReserveRequest(call)
      ensures cached == (if call.key in store.receipts then Some(store.receipts[call.key]) else None)
      ensures tick == old(tick) + 1
    {
      cached := store.GetReceipt(call.key);
      Went(Tables(), if cached.Some? then Returned(call, cached.value) else Pc.ReserveRequest(call));
    }

    method ReserveRequest(call: Call) returns (ok: bool)
      requires OnTrack() && place == Pc.ReserveRequest(call)
      modifies this`tick, this`place, store`requests
      ensures OnTrack()
      ensures place == if !ok then Raised(RequestConflict) else if enabled then Pc.ReserveOperation(call) else DryRun(call)
      ensures ok == !(call.key in old(store.requests) && old(store.requests)[call.key] != call.hash)
      ensures store.requests == if ok then old(store.requests)[call.key := call.hash] else old(store.requests)
      ensures tick == old(tick) + 1
    {
      ghost var before := Tables();
      ok := store.Reserve(call.key, call.hash);
      Went(before, if !ok then Raised(RequestConflict) else if enabled then Pc.ReserveOperation(call) else DryRun(call));
    }

    method AnswerDryRun(call: Call) returns (a: Answer)
      requires OnTrack() && place == DryRun(call)
      modifies this`tick, this`place, store`receipts
      ensures OnTrack() && place == PlaceOf(call, a)
      ensures a == Answered(Receipt(DryRunReceipt, ""))
      ensures store.receipts == old(store.receipts)[call.key := Receipt(DryRunReceipt, "")]
    {
      ghost var before := Tables();
      var receipt := Receipt(DryRunReceipt, "");
      store.SaveReceipt(call.key, receipt);
      Went(before, Returned(call, receipt));
      return Answered(receipt);
    }

    method ReserveOperation(call: Call) returns (r: Result<Operation>)
      requires OnTrack() && place == Pc.ReserveOperation(call)
      modifies this`tick, this`place, operations`rows, operations`journal
      ensures OnTrack()
      ensures place == match r case Ok(op) => Prepare(call, op) case Err(e) => Raised(StoreRefused(e))
      ensures tick == old(tick) + 1 && ValidRows(old(operations.rows))
      ensures var op := InitialContact(call, world(old(tick)).now);
              r == Reserved(old(operations.rows), op) && operations.rows == AfterReserve(old(operations.rows), op)
      ensures r.Ok? ==> r.value.id in operations.rows && operations.rows[r.value.id] == r.value
                        && r.value.kind == Contact && r.value.key == call.key
    {
      hide Explains, InitialOperation, Envs, Solo;
      ReserveKeepsRows(operations.rows, InitialContact(call, world(tick).now));
      ghost var before := Tables();
      var created;
      r, created := operations.Reserve(InitialContact(call, world(tick).now));
      Went(before, if r.Ok? then Prepare(call, r.value) else Raised(StoreRefused(r.error)));
    }

    /** _prepare_existing; None means the operation may be sent. */
    method PrepareExisting(call: Call, op: Operation) returns (a: Option<Answer>)
      requires OnTrack() && place == Prepare(call, op)
      requires op.id in operations.rows && operations.rows[op.id] == op && op.kind == Contact && op.key == call.key
      modifies this`tick, this`place, store`receipts, store`reconciliations, operations`rows, operations`journal
      ensures OnTrack() && place == if a.Some? then PlaceOf(call, a.value) else BeginRead(call, op.id)
      ensures a.None? <==> op.state == Prepared && op.attempt == 0
      ensures a.None? ==> Tables() == old(Tables()) && tick == old(tick) + 1
      ensures a.Some? ==> RowAnswer(old(Tables()), Tables(), call, op, old(tick), world, a.value)
    {
      hide Explains, InitialOperation, ContactProtocol.Commit, Transact, EvidenceOn, UnknownAnswer, ValidRows, Envs;
      if op.state == Completed {
        a := AnswerCompleted(call, op);
        return;
      }
      if op.state == DeliveryUnknown {
        Went(Tables(), Pc.Reconcile(Some(call), op.id));
        var answer := HandleUnknown(call, op.id);
        return Some(answer);
      }
      var failure := if op.state == InFlight then Some(OperationInFlight)
                     else if op.state == Exhausted then Some(DeliveryExhausted)
                     else if op.state != Prepared || op.attempt > 0 then Some(FreshDecisionRequired)
                     else None;
      assert ValidOperation(op) by { RowIsValid(operations.rows, op.id); }
      Went(Tables(), if failure.Some? then Raised(failure.value) else BeginRead(call, op.id));
      a := if failure.Some? then Some(Failed(failure.value)) else None;
    }

    method AnswerCompleted(call: Call, op: Operation) returns (a: Option<Answer>)
      requires OnTrack() && place == Prepare(call, op) && op.state == Completed && op.key == call.key
      modifies this`tick, this`place, store`receipts
      ensures OnTrack() && a.Some? && place == PlaceOf(call, a.value)
      ensures KnownAnswer(old(Tables()), Tables(), call, op, a.value)
    {
      hide Explains, InitialOperation, ValidRows, Envs;
      var stored := store.GetReconciliation(op.key);
      if stored.Some? && stored.value.outcome == ProvesDelivery {
        Went(Tables(), Rebuild(call, stored.value.providerId));
        var rebuilt := ReconciledReceipt(call, stored.value.providerId);
        return Some(rebuilt);
      }
      Went(Tables(), Raised(ReceiptUnavailable));
      return Some(Failed(ReceiptUnavailable));
    }

    /** begin_attempt, the send, and what follows from its outcome. */
    method Attempt(call: Call, id: OpId) returns (a: Answer)
      requires OnTrack() && place == BeginRead(call, id)
      modifies this`tick, this`place, this`sends, store`receipts, store`reconciliations, operations`rows, operations`journal
      ensures OnTrack() && place == PlaceOf(call, a) && start == old(start) && began == old(began)
      ensures Startable(old(operations.rows), id, call) ==>
                SentAnswer(old(Tables()), Tables(), call, id, old(tick), world, a)
    {
      hide Explains, InitialOperation, Perform, ContactProtocol.Commit, Transact, EvidenceOn, UnknownAnswer,
           ValidRows, Envs, Solo, SentAnswer, Startable, ContactIn, InFlightFrom, EndedAs, Marked, OnTrack;
      ghost var before := Tables();
      var begun := BeginAttempt(call, id);
      if begun.Err? {
        return Failed(StoreRefused(begun.error));
      }
      ghost var started := operations.rows;
      if Startable(before.rows, id, call) {
        StartedContact(before.rows, started, id, call);
      }
      var reply := CallSender(call, id);
      match reply
      case SendFailedSafe =>
        a := MarkNotSent(call, id);
        if Startable(before.rows, id, call) {
          NotSentAnswers(before, Tables(), started, call, id, old(tick), world, a);
        }
      case SendUnknown =>
        ghost var sent := Tables();
        a := MarkUnknown(call, id);
        if Startable(before.rows, id, call) {
          UnknownAnswers(before, sent, Tables(), call, id, old(tick), world, a);
        }
      case SendAccepted(providerId) =>
        a := KeepReceipt(call, id, providerId);
        if Startable(before.rows, id, call) {
          KeptAnswers(before, Tables(), started, call, id, old(tick), world, a);
        }
    }

    /** RetryEngine.begin_attempt on a contact. */
    method BeginAttempt(call: Call, id: OpId) returns (r: Result<Operation>)
      requires OnTrack() && place == BeginRead(call, id)
      modifies this`tick, this`place, operations`rows, operations`journal
      ensures OnTrack() && place == if r.Ok? then Send(call, id) else Raised(StoreRefused(r.error))
      ensures Startable(old(operations.rows), id, call) ==> r.Ok?
      ensures r.Ok? ==> tick == old(tick) + 2 && InFlightFrom(old(operations.rows), operations.rows, id)
    {
      hide Explains, InitialOperation, Perform, Solo, ContactProtocol.Commit, Envs, ValidRows, Advance;
      BeginReads(Tables(), call, id, world(tick));
      BeginReads(Tables(), call, id, world(tick + 1));
      var op := operations.Get(id);
      var refusal := if op.None? then Some(NotFound)
                     else if op.value.state != Prepared then Some(StateConflict)
                     else if op.value.attempt > 0 then Some(PolicyError)
                     else None;
      Went(Tables(), if refusal.Some? then Raised(StoreRefused(refusal.value)) else BeginCommit(call, id));
      if refusal.Some? {
        return Err(refusal.value);
      }
      RowIsValid(operations.rows, id);
      CommandMeans(op.value, StartAttempt, world(tick).now);
      r := Commit(id, StartAttempt, Send(call, id));
    }

    method CallSender(call: Call, id: OpId) returns (reply: SendOutcome)
      requires OnTrack() && place == Send(call, id)
      modifies this`tick, this`place, this`sends
      ensures OnTrack() && place == Sent(call, id, reply) && sends == old(sends) + [SendRecord(call.key, reply)]
      ensures reply == world(old(tick)).reply && tick == old(tick) + 1
    {
      ghost var before := Tables();
      reply := world(tick).reply;
      sends := sends + [SendRecord(call.key, reply)];
      Went(before, Sent(call, id, reply));
    }

    method MarkNotSent(call: Call, id: OpId) returns (a: Answer)
      requires OnTrack() && place == Sent(call, id, SendFailedSafe)
      modifies this`tick, this`place, operations`rows, operations`journal
      ensures OnTrack() && place == PlaceOf(call, a)
      ensures ContactIn(old(operations.rows), id, InFlight) ==>
                && a == Failed(FreshDecisionRequired)
                && EndedAs(old(operations.rows), operations.rows, id, FailedSafe, Some("hermes_send_failed_safe"))
    {
      hide Explains, InitialOperation, Envs, ValidRows, Advance;
      var cmd := MarkFailedSafe(Some("hermes_send_failed_safe"));
      FailedSafeBuilds(operations.rows, id, "hermes_send_failed_safe", world(tick).now);
      SentFails(Tables(), call, id, world(tick));
      hide EndedAs, ContactIn, After, Transact, Perform, Solo, OnTrack;
      var failed := Commit(id, cmd, Raised(FreshDecisionRequired));
      return Failed(if failed.Ok? then FreshDecisionRequired else StoreRefused(failed.error));
    }

    method MarkUnknown(call: Call, id: OpId) returns (a: Answer)
      requires OnTrack() && place == Sent(call, id, SendUnknown)
      modifies this`tick, this`place, store`receipts, store`reconciliations, operations`rows, operations`journal
      ensures OnTrack() && place == PlaceOf(call, a)
      ensures ContactIn(old(operations.rows), id, InFlight) && old(operations.rows)[id].key == call.key ==>
                UnknownAnswer(Marked(old(Tables()), id, world(old(tick)).now), Tables(), call, id,
                              EvidenceOn(old(Tables()), call.key, world(old(tick) + 4).probe, world(old(tick) + 5).canonical), a)
    {
      hide Explains, InitialOperation, Envs, ValidRows, EvidenceOn, UnknownAnswer, Advance;
      ghost var before, at := Tables(), world(tick).now;
      UnknownBuilds(operations.rows, id, at);
      SentLost(before, call, id, world(tick));
      hide Solo, Perform, Transact, Led;
      var unknown := Commit(id, MarkDeliveryUnknown(Some("hermes_send_outcome_unknown")), Pc.Reconcile(Some(call), id));
      if unknown.Err? {
        return Failed(StoreRefused(unknown.error));
      }
      SameEvidenceOn(before, Tables(), call.key, world(tick + 3).probe, world(tick + 4).canonical);
      if ContactIn(before.rows, id, InFlight) {
        assert Tables() == Marked(before, id, at);
      }
      a := HandleUnknown(call, id);
    }

    /** The receipt first, then the completion; a conflict there is ignored. */
    method KeepReceipt(call: Call, id: OpId, providerId: string) returns (a: Answer)
      requires OnTrack() && place == Sent(call, id, SendAccepted(providerId))
      modifies this`tick, this`place, store`receipts, operations`rows, operations`journal
      ensures OnTrack() && place == PlaceOf(call, a)
      ensures store.receipts == old(store.receipts)[call.key := Receipt(SentReceipt, providerId)]
      ensures ContactIn(old(operations.rows), id, InFlight) ==>
                && a == Answered(Receipt(SentReceipt, providerId))
                && EndedAs(old(operations.rows), operations.rows, id, Completed, None)
    {
      hide Explains, InitialOperation, Envs, ValidRows, Advance;
      var receipt := Receipt(SentReceipt, providerId);
      ghost var before := Tables();
      store.SaveReceipt(call.key, receipt);
      Went(before, Complete(call, id, receipt));
      a := CompleteAfterReceipt(call, id, receipt);
    }

    method CompleteAfterReceipt(call: Call, id: OpId, receipt: Receipt) returns (a: Answer)
      requires OnTrack() && place == Complete(call, id, receipt)
      modifies this`tick, this`place, operations`rows, operations`journal
      ensures OnTrack() && place == PlaceOf(call, a)
      ensures ContactIn(old(operations.rows), id, InFlight) ==>
                && a == Answered(receipt) && EndedAs(old(operations.rows), operations.rows, id, Completed, None)
    {
      hide Explains, InitialOperation, Envs, ValidRows, Advance;
      ghost var before := Tables();
      if id in operations.rows {
        RowIsValid(operations.rows, id);
        CommandMeans(operations.rows[id], MarkCompleted, world(tick).now);
      }
      var done := operations.Transition(id, MarkCompleted, world(tick).now);
      a := if done.Ok? || done.error == StateConflict then Answered(receipt) else Failed(StoreRefused(done.error));
      Went(before, PlaceOf(call, a));
    }

    // ------------------------------------------------------------- recovery

    /**
      recover_startup, once: the sweep, then a reconciliation of every contact it
      found. Each ends unknown or settled on recorded evidence, the counts say how
      many did, and nothing else moves.
    */
    method RecoverStartup() returns (counts: Counts)
      requires operations.Valid() && Ranked(operations.rank)
      modifies this, store, operations
      ensures operations.Valid() && startupRecovered && sends == old(sends)
      ensures old(startupRecovered) ==> counts == Counts(0, 0, 0) && Tables() == old(Tables())
      ensures !old(startupRecovered) ==>
                && Reconciles(old(Tables()), Tables(), InFlightContacts(old(operations.rows)))
                && counts == CountsOf(operations.rows, InFlightContacts(old(operations.rows)))
                && InFlightContacts(operations.rows) == {}
                && (forall id | id in InFlightContacts(old(operations.rows)) ::
                      id in operations.rows && Decided(old(Tables()), operations.rows[id], world, old(tick), tick))
      ensures Replays(old(Tables()), Tables())
    {
      hide Explains, InitialOperation, ValidRows, Replays, Reconciles, Swept, CountsOf, RecoveredSoFar;
      ghost var before := Tables();
      if startupRecovered {
        ReplaysSelf(before);
        return Counts(0, 0, 0);
      }
      ghost var contacts := InFlightContacts(operations.rows);
      ReplaysSweep(before, world(tick).now);
      SweepReconciles(before, world(tick).now);
      var interrupted := operations.RecoverInterruptedContacts(world(tick).now);
      tick := tick + 1;
      SweptAreUnknown(before.rows, interrupted, world(tick - 1).now);
      NoProgress(before, world(tick - 1).now, contacts, world, tick - 1, tick);
      var resolved, unknown;
      ghost var settled;
      resolved, unknown, settled := ReconcileAll(before, interrupted, contacts, old(tick));
      startupRecovered := true;
      AllDecided(before, Tables(), contacts, world, old(tick), tick);
      counts := Counts(|interrupted|, resolved, unknown);
      CountsAre(operations.rows, contacts, settled, counts);
      NoneInFlight(before, Tables());
    }

    method ReconcileAll(ghost first: Db, interrupted: seq<OpId>, ghost contacts: set<OpId>, ghost from: nat)
      returns (resolved: nat, unknown: nat, ghost settled: set<OpId>)
      requires operations.Valid() && Replays(first, Tables()) && Reconciles(first, Tables(), contacts)
      requires Lists(interrupted, contacts) && ValidRows(first.rows)
      requires RecoveredSoFar(first, Tables(), contacts, {}, world, from, tick)
      requires forall id | id in interrupted :: id in operations.rows && operations.rows[id].state == DeliveryUnknown
      modifies this`tick, this`began, this`start, this`place, store`reconciliations, operations`rows, operations`journal
      ensures operations.Valid() && Replays(first, Tables()) && Reconciles(first, Tables(), contacts)
      ensures RecoveredSoFar(first, Tables(), contacts, contacts, world, from, tick)
      ensures resolved + unknown == |interrupted| && |settled| == resolved && settled <= contacts
      ensures forall id | id in interrupted ::
                id in operations.rows && (id in settled <==> operations.rows[id].state != DeliveryUnknown)
    {
      hide Explains, InitialOperation, ValidRows, Replays, Reconciles, Envs, RecoveredSoFar, Elements, Lists;
      assert Elements(interrupted[..0]) == {} by { NoneDone(interrupted); }
      resolved, unknown, settled := 0, 0, {};
      ghost var done := {};
      for n := 0 to |interrupted|
        invariant done == Elements(interrupted[..n]) && RecoveredSoFar(first, Tables(), contacts, done, world, from, tick)
        invariant operations.Valid() && Replays(first, Tables()) && Reconciles(first, Tables(), contacts)
        invariant resolved + unknown == n && |settled| == resolved && settled <= done <= contacts
        invariant forall id | id in interrupted ::
                    id in operations.rows && (id in settled <==> operations.rows[id].state != DeliveryUnknown)
      {
        NextDone(interrupted, n, contacts);
        var changed := RecoverOne(first, interrupted[n], contacts, done, from);
        done := done + {interrupted[n]};
        if changed {
          resolved, settled := resolved + 1, settled + {interrupted[n]};
        } else {
          unknown := unknown + 1;
        }
      }
      AllDone(interrupted, contacts);
    }

    method RecoverOne(ghost first: Db, id: OpId, ghost contacts: set<OpId>, ghost done: set<OpId>, ghost from: nat)
      returns (settled: bool)
      requires operations.Valid() && Replays(first, Tables()) && Reconciles(first, Tables(), contacts)
      requires id in contacts && id in operations.rows && operations.rows[id].state == DeliveryUnknown
      requires ValidRows(first.rows) && id !in done && RecoveredSoFar(first, Tables(), contacts, done, world, from, tick)
      modifies this`tick, this`began, this`start, this`place, store`reconciliations, operations`rows, operations`journal
      ensures operations.Valid() && Replays(first, Tables()) && Reconciles(first, Tables(), contacts)
      ensures id in operations.rows && operations.rows == old(operations.rows)[id := operations.rows[id]]
      ensures settled <==> operations.rows[id].state != DeliveryUnknown
      ensures RecoveredSoFar(first, Tables(), contacts, done + {id}, world, from, tick)
    {
      hide Explains, InitialOperation, ValidRows, Perform, Replays, Reconciles, Settled, OnlyRecords, Envs,
           RecoveredSoFar, Judged, AskedAt, EvidenceOn, Conclusive;
      ghost var before, start := Tables(), tick;
      ContactOf(first, before, contacts, done, id, world, from, start);
      Begin(Pc.Reconcile(None, id));
      var r := Reconcile(None, id);
      ReplaysRecovery(first, before, id, Envs(world, began, tick));
      settled := Conclusive(r);
      JudgedMeans(before, Tables(), id, r);
      RowUnchanged(before.rows, id);
      OneMoreReconciled(first, before, Tables(), contacts, id, settled);
      ghost var t: nat :| AskedAt(before, before.rows[id].key, r, world, t, start, tick);
      OneMoreDecided(first, before, Tables(), contacts, done, id, r, world, t, from, start, tick);
    }
  }

  function InFlightContacts(rows: Rows): set<OpId> {
    set id | id in rows && rows[id].kind == Contact && rows[id].state == InFlight
  }

  lemma NoneDone(q: seq<OpId>)
    ensures Elements(q[..0]) == {}
  {
  }

  lemma NextDone(q: seq<OpId>, n: nat, s: set<OpId>)
    requires Lists(q, s) && n < |q|
    ensures q[n] in q && q[n] in s && q[n] !in Elements(q[..n])
    ensures Elements(q[..n + 1]) == Elements(q[..n]) + {q[n]}
  {
    assert q[..n + 1] == q[..n] + [q[n]];
  }

  lemma AllDone(q: seq<OpId>, s: set<OpId>)
    requires Lists(q, s)
    ensures Elements(q[..|q|]) == s
  {
    assert q[..|q|] == q;
  }

  /** A found contact ends as the evidence on it says, a probe being asked during the recovery. */
  ghost predicate Decided(first: Db, row: Operation, world: nat -> Env, from: nat, to: nat) {
    exists t: nat :: from <= t < to && DecidedAt(first, row, world, t)
  }

  ghost predicate DecidedAt(first: Db, row: Operation, world: nat -> Env, t: nat) {
    var r := EvidenceOn(first, row.key, world(t).probe, world(t + 1).canonical);
    row.state == if !Conclusive(r) then DeliveryUnknown else if r.evidence.outcome == ProvesDelivery then Completed else FailedSafe
  }

  /** How far the recovery has come: `done` are decided, the others unknown and off the record. */
  ghost predicate RecoveredSoFar(first: Db, now: Db, contacts: set<OpId>, done: set<OpId>, world: nat -> Env, from: nat, to: nat) {
    && from < to && done <= contacts && now.receipts == first.receipts
    && (forall id | id in contacts ::
          id in first.rows && id in now.rows && SameIdentity(first.rows[id], now.rows[id]) && now.rows[id].kind == Contact)
    && (forall key | key in first.reconciliations ::
          key in now.reconciliations && now.reconciliations[key] == first.reconciliations[key])
    && (forall key | key in now.reconciliations && key !in first.reconciliations ::
          exists id :: id in done && id in first.rows && first.rows[id].key == key)
    && (forall id | id in contacts && id !in done :: now.rows[id].state == DeliveryUnknown)
    && (forall id | id in done :: Decided(first, now.rows[id], world, from, to))
  }

  lemma NoProgress(first: Db, at: real, contacts: set<OpId>, world: nat -> Env, from: nat, to: nat)
    requires from < to && contacts == InFlightContacts(first.rows)
    ensures RecoveredSoFar(first, first.(rows := Swept(first.rows, at)), contacts, {}, world, from, to)
  {
  }

  lemma AllDecided(first: Db, now: Db, contacts: set<OpId>, world: nat -> Env, from: nat, to: nat)
    requires RecoveredSoFar(first, now, contacts, contacts, world, from, to)
    ensures forall id | id in contacts :: id in now.rows && Decided(first, now.rows[id], world, from, to)
  {
    hide Decided;
  }

  lemma ContactOf(first: Db, now: Db, contacts: set<OpId>, done: set<OpId>, id: OpId, world: nat -> Env, from: nat, to: nat)
    requires RecoveredSoFar(first, now, contacts, done, world, from, to) && id in contacts && id !in done
    ensures UnknownContact(now.rows, id)
  {
    hide Decided;
  }

  lemma JudgedMeans(a: Db, b: Db, id: OpId, r: Finding)
    requires Judged(a, b, id, r) && a.rows[id].state == DeliveryUnknown
    ensures OnlyRecords(a, b.(rows := a.rows)) && id in b.rows && b.rows == a.rows[id := b.rows[id]]
    ensures Conclusive(r) <==> b.rows[id].state != DeliveryUnknown
    ensures SameIdentity(a.rows[id], b.rows[id]) && (if Conclusive(r) then Settled(b, b.rows[id]) else b.rows == a.rows)
  {
    hide Settled;
  }

  lemma {:induction false} OneMoreDecided(first: Db, before: Db, after: Db, contacts: set<OpId>, done: set<OpId>, id: OpId,
                                          r: Finding, world: nat -> Env, t: nat, from: nat, mid: nat, to: nat)
    requires RecoveredSoFar(first, before, contacts, done, world, from, mid) && ValidRows(first.rows)
    requires id in contacts && id !in done && Judged(before, after, id, r)
    requires AskedAt(before, before.rows[id].key, r, world, t, mid, to)
    ensures RecoveredSoFar(first, after, contacts, done + {id}, world, from, to)
  {
    hide EvidenceOn, Settled, ValidRows, Decided, DecidedAt;
    ThisDecided(first, before, after, contacts, done, id, r, world, t, from, mid, to);
    forall j | j in done ensures after.rows[j] == before.rows[j] && Decided(first, after.rows[j], world, from, to) {
      DecidedStays(first, before.rows[j], world, from, mid, to);
    }
    hide AskedAt, Conclusive, OnlyRecords;
    RecordsOfDone(first, before, after, done, id, r);
  }

  lemma RecordsOfDone(first: Db, before: Db, after: Db, done: set<OpId>, id: OpId, r: Finding)
    requires Judged(before, after, id, r) && id in first.rows && SameIdentity(first.rows[id], before.rows[id])
    requires forall key | key in before.reconciliations && key !in first.reconciliations ::
               exists j :: j in done && j in first.rows && first.rows[j].key == key
    ensures forall key | key in after.reconciliations && key !in first.reconciliations ::
              exists j :: j in done + {id} && j in first.rows && first.rows[j].key == key
    ensures forall key | key in before.reconciliations ::
              key in after.reconciliations && after.reconciliations[key] == before.reconciliations[key]
  {
    hide Settled;
    forall key | key in after.reconciliations && key !in first.reconciliations
      ensures exists j :: j in done + {id} && j in first.rows && first.rows[j].key == key
    {
      if key in before.reconciliations {
        var j :| j in done && j in first.rows && first.rows[j].key == key;
        assert j in done + {id};
      } else {
        assert id in done + {id} && first.rows[id].key == key;
      }
    }
  }

  lemma DecidedStays(first: Db, row: Operation, world: nat -> Env, from: nat, mid: nat, to: nat)
    requires Decided(first, row, world, from, mid) && mid <= to
    ensures Decided(first, row, world, from, to)
  {
    hide DecidedAt;
  }

  lemma {:induction false} ThisDecided(first: Db, before: Db, after: Db, contacts: set<OpId>, done: set<OpId>, id: OpId,
                                       r: Finding, world: nat -> Env, t: nat, from: nat, mid: nat, to: nat)
    requires RecoveredSoFar(first, before, contacts, done, world, from, mid) && ValidRows(first.rows)
    requires id in contacts && id !in done && Judged(before, after, id, r)
    requires AskedAt(before, before.rows[id].key, r, world, t, mid, to)
    ensures Decided(first, after.rows[id], world, from, to) && mid < to
  {
    hide EvidenceOn, Settled, ValidOperation, Decided, OnlyRecords, Stored;
    var key := first.rows[id].key;
    assert key in before.reconciliations ==> key in first.reconciliations;
    SameRecordOn(before, first, key, world(t).probe, world(t + 1).canonical);
    DecidedNow(first, after.rows[id], r, world, t, from, to);
  }

  lemma DecidedNow(first: Db, row: Operation, r: Finding, world: nat -> Env, t: nat, from: nat, to: nat)
    requires from <= t < to && r == EvidenceOn(first, row.key, world(t).probe, world(t + 1).canonical)
    requires row.state == if !Conclusive(r) then DeliveryUnknown
                          else if r.evidence.outcome == ProvesDelivery then Completed else FailedSafe
    ensures Decided(first, row, world, from, to)
  {
    hide EvidenceOn;
    assert DecidedAt(first, row, world, t);
  }

  lemma SameRecordOn(a: Db, b: Db, key: string, probe: Option<Evidence>, canonical: bool)
    requires a.receipts == b.receipts && (key in a.reconciliations <==> key in b.reconciliations)
    requires key in a.reconciliations ==> a.reconciliations[key] == b.reconciliations[key]
    ensures EvidenceOn(a, key, probe, canonical) == EvidenceOn(b, key, probe, canonical)
  {
    hide ValidEvidence;
  }

  /** The tables `b` are `a` with `contacts` swept and each perhaps settled. */
  ghost predicate Reconciles(a: Db, b: Db, contacts: set<OpId>) {
    && OnlyRecords(a, b.(rows := a.rows)) && b.rows.Keys == a.rows.Keys
    && (forall id | id in a.rows && id !in contacts :: b.rows[id] == a.rows[id])
    && (forall id | id in a.rows && id in contacts ::
          SameIdentity(a.rows[id], b.rows[id]) && Settled(b, b.rows[id]))
  }

  function CountsOf(rows: Rows, contacts: set<OpId>): Counts {
    var settled := set id | id in contacts && id in rows && rows[id].state != DeliveryUnknown;
    Counts(|contacts|, |settled|, |contacts - settled|)
  }

  lemma CountsAre(rows: Rows, contacts: set<OpId>, settled: set<OpId>, counts: Counts)
    requires settled <= contacts
    requires forall id | id in contacts :: id in rows && (id in settled <==> rows[id].state != DeliveryUnknown)
    requires counts.recovered == |contacts| && counts.resolved == |settled|
    requires counts.resolved + counts.unknown == counts.recovered
    ensures counts == CountsOf(rows, contacts)
  {
    assert settled == set id | id in contacts && id in rows && rows[id].state != DeliveryUnknown;
    assert contacts == settled + (contacts - settled);
  }

  lemma SweptAreUnknown(rows: Rows, interrupted: seq<OpId>, at: real)
    requires Lists(interrupted, InFlightContacts(rows))
    ensures forall id | id in interrupted :: id in Swept(rows, at) && Swept(rows, at)[id].state == DeliveryUnknown
  {
  }

  lemma NoneInFlight(a: Db, b: Db)
    requires Reconciles(a, b, InFlightContacts(a.rows))
    ensures InFlightContacts(b.rows) == {}
  {
    hide S.Durable, S.Reconciled, OnlyRecords;
  }

  lemma RowUnchanged(rows: Rows, id: OpId)
    requires id in rows
    ensures rows[id := rows[id]] == rows
  {
  }

  lemma SweepReconciles(a: Db, at: real)
    ensures Reconciles(a, a.(rows := Swept(a.rows, at)), InFlightContacts(a.rows))
  {
  }

  lemma OneMoreReconciled(first: Db, before: Db, after: Db, contacts: set<OpId>, id: OpId, settled: bool)
    requires Reconciles(first, before, contacts) && id in contacts && id in before.rows
    requires OnlyRecords(before, after.(rows := before.rows))
    requires id in after.rows && after.rows == before.rows[id := after.rows[id]]
    requires if settled then SameIdentity(before.rows[id], after.rows[id]) && Settled(after, after.rows[id])
             else after.rows == before.rows
    ensures Reconciles(first, after, contacts)
  {
    forall i | i in first.rows && i in contacts ensures Settled(after, after.rows[i]) {
      if i != id || !settled {
        SettledStays(before, after, before.rows[i]);
      }
    }
    hide Settled;
  }

  lemma SettledStays(before: Db, after: Db, op: Operation)
    requires OnlyRecords(before, after.(rows := before.rows)) && Settled(before, op)
    ensures Settled(after, op)
  {
  }

  datatype Counts = Counts(recovered: nat, resolved: nat, unknown: nat)

  /** Some run of one worker leads from the tables `a` to the tables `b`. */
  ghost predicate Replays(a: Db, b: Db) {
    exists es :: Run(State(a, map[]), es).db == b && Free(At(Run(State(a, map[]), es), 0))
  }

  lemma ReplaysSelf(a: Db)
    ensures Replays(a, a)
  {
    assert Run(State(a, map[]), []).db == a;
  }

  lemma ReplaysSweep(a: Db, now: real)
    ensures Replays(a, a.(rows := Swept(a.rows, now)))
  {
    assert [Sweep(now)][..0] == [];
    assert Run(State(a, map[]), [Sweep(now)]) == Apply(State(a, map[]), Sweep(now));
  }

  /** A solo execution after a run is a longer run. */
  lemma ReplaysOn(s: State, e: Event, pc: Pc, envs: seq<Env>) returns (es: seq<Event>)
    requires Apply(s, e) == s.(pcs := s.pcs[0 := pc])
    ensures es == [e] + Steps(0, envs)
    ensures Run(s, es).db == Solo(s.db, pc, envs).db && At(Run(s, es), 0) == Solo(s.db, pc, envs).pc
  {
    es := [e] + Steps(0, envs);
    RunSplits(s, [e], Steps(0, envs));
    assert [e][..0] == [];
    hide Solo, Steps, Perform;
    SoloIsRun(Apply(s, e), 0, envs);
  }

  lemma ReplaysRecovery(first: Db, before: Db, id: OpId, envs: seq<Env>)
    requires Replays(first, before) && Free(Solo(before, Pc.Reconcile(None, id), envs).pc)
    ensures Replays(first, Solo(before, Pc.Reconcile(None, id), envs).db)
  {
    var es :| Run(State(first, map[]), es).db == before && Free(At(Run(State(first, map[]), es), 0));
    var s := Run(State(first, map[]), es);
    hide Run, Solo, Perform, Steps;
    var more := ReplaysOn(s, Recover(0, id), Pc.Reconcile(None, id), envs);
    RunSplits(State(first, map[]), es, more);
    assert Run(State(first, map[]), es + more).db == Solo(before, Pc.Reconcile(None, id), envs).db;
  }

  /** A finished call of `process` is a run of the protocol, from any tables. */
  lemma ProcessReplays(before: Db, call: Call, envs: seq<Env>, after: Db, a: Answer)
    requires Solo(before, Lookup(call), envs) == Outcome(after, PlaceOf(call, a))
    ensures Replays(before, after)
  {
    var s := State(before, map[]);
    hide Run, Solo, Perform, Steps;
    var es := ReplaysOn(s, Arrive(0, call), Lookup(call), envs);
    assert Run(s, es).db == after;
  }
}
