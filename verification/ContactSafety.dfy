/**
  What every run of the contact protocol keeps: at most one call of the sender
  per idempotency key, durable evidence behind every completion, and an answer
  for every completed contact.
*/
module ContactSafety {
  import opened Basics
  import opened ReliabilityContract
  import opened OperationStore
  import opened ContactProtocol

  // ------------------------------------------------------------- vocabulary

  ghost predicate IsContact(rows: Rows, id: OpId) {
    id in rows && rows[id].kind == Contact
  }

  /** A contact row is started at most once and never waits for a retry. */
  predicate ContactRow(op: Operation) {
    match op.state
    case Prepared => op.attempt == 0
    case RetryWait => false
    case Exhausted => false
    case _ => op.attempt == 1
  }

  predicate SentFor(sends: seq<SendRecord>, key: string) {
    exists i | 0 <= i < |sends| :: sends[i].key == key
  }

  predicate Logged(sends: seq<SendRecord>, key: string, reply: SendOutcome) {
    exists i | 0 <= i < |sends| :: sends[i] == SendRecord(key, reply)
  }

  predicate Accepted(sends: seq<SendRecord>, key: string) {
    exists i | 0 <= i < |sends| :: sends[i].key == key && sends[i].outcome.SendAccepted?
  }

  predicate Reconciled(db: Db, key: string, outcome: EvidenceOutcome) {
    key in db.reconciliations && db.reconciliations[key].outcome == outcome
  }

  predicate HasReceipt(db: Db, key: string) {
    key in db.receipts && db.receipts[key].status == SentReceipt
  }

  predicate RequestedAs(db: Db, key: string, hash: string) {
    key in db.requests && db.requests[key] == hash
  }

  /** The delivery is proved by something that survives a crash. */
  predicate Durable(db: Db, key: string) {
    HasReceipt(db, key) || Reconciled(db, key, ProvesDelivery)
  }

  /** The provider took the message, or an authoritative probe said so. */
  predicate Proven(db: Db, key: string) {
    Accepted(db.sends, key) || Reconciled(db, key, ProvesDelivery)
  }

  /** The provider's own id of the delivery: in an accepted send, or in the stored delivered record. */
  predicate NamedAs(sends: seq<SendRecord>, records: map<string, Evidence>, key: string, providerId: string) {
    || Logged(sends, key, SendAccepted(providerId))
    || (key in records && records[key].outcome == ProvesDelivery && records[key].providerId == providerId)
  }

  /** ... or the stand-in for a provider that gave an empty id. */
  predicate Attested(sends: seq<SendRecord>, records: map<string, Evidence>, key: string, providerId: string) {
    NamedAs(sends, records, key, providerId) || (providerId == "hlb-receipt" && NamedAs(sends, records, key, ""))
  }

  /** A receipt the service may store or return for the key. */
  predicate Genuine(db: Db, key: string, receipt: Receipt) {
    if db.enabled then receipt.status == SentReceipt && Attested(db.sends, db.reconciliations, key, receipt.providerId)
    else receipt.status == DryRunReceipt
  }

  // -------------------------------------------------------------- invariants

  ghost predicate RowsOk(db: Db) {
    && ValidRows(db.rows)
    && forall id | IsContact(db.rows, id) ::
         && db.enabled && ContactRow(db.rows[id])
         && RequestedAs(db, db.rows[id].key, db.rows[id].requestHash)
         && (db.rows[id].state == Completed ==> Durable(db, db.rows[id].key))
  }

  ghost predicate EvidenceOk(db: Db) {
    && (forall key | key in db.receipts :: Genuine(db, key, db.receipts[key]))
    && (forall key | key in db.reconciliations :: db.reconciliations[key].outcome != ProvesNothing)
  }

  /** Each key is sent once, and only after its row was started. */
  ghost predicate SendsOk(db: Db) {
    && (forall i, j | 0 <= i < j < |db.sends| :: db.sends[i].key != db.sends[j].key)
    && (forall id | IsContact(db.rows, id) && db.rows[id].state == Prepared :: !SentFor(db.sends, db.rows[id].key))
    && (forall i | 0 <= i < |db.sends| :: HasKey(db.rows, Contact, db.sends[i].key))
  }

  ghost predicate DbOk(db: Db) {
    RowsOk(db) && EvidenceOk(db) && SendsOk(db)
  }

  /** A row this worker read once; the durable one has only moved on since. */
  ghost predicate Seen(db: Db, op: Operation) {
    && IsContact(db.rows, op.id) && SameIdentity(op, db.rows[op.id])
    && (op.state == Completed ==> db.rows[op.id].state == Completed)
  }

  ghost predicate Holds(db: Db, id: OpId, key: string) {
    IsContact(db.rows, id) && db.rows[id].key == key
  }

  predicate From(from: Option<Call>, op: Operation) {
    from.Some? ==> from.value.key == op.key
  }

  /** What a worker's place in the program says about the durable state. */
  ghost predicate Knows(db: Db, pc: Pc) {
    match pc
    case DryRun(_) => !db.enabled
    case ReserveOperation(call) => db.enabled && RequestedAs(db, call.key, call.hash)
    case Prepare(call, op) => Seen(db, op) && op.key == call.key
    case BeginRead(call, id) => Holds(db, id, call.key)
    case BeginCommit(call, id) => Holds(db, id, call.key)
    case Send(call, id) => Holds(db, id, call.key) && db.rows[id].state != Prepared
    case Sent(call, id, reply) => Holds(db, id, call.key) && Logged(db.sends, call.key, reply)
    case Complete(call, id, receipt) => Holds(db, id, call.key) && HasReceipt(db, call.key) && Genuine(db, call.key, receipt)
    case Reconcile(from, id) => from.Some? ==> Holds(db, id, from.value.key)
    case ReadReceipt(from, op) => Seen(db, op) && From(from, op)
    case ReadReconciliation(from, op) => Seen(db, op) && From(from, op)
    case Probe(from, op) => Seen(db, op) && From(from, op)
    case SaveReconciliation(from, op, e) => Seen(db, op) && From(from, op) && e.outcome != ProvesNothing
    case Resolve(from, op, e) =>
      && Seen(db, op) && From(from, op)
      && (e.outcome == ProvesDelivery ==>
            Durable(db, op.key) && Attested(db.sends, db.reconciliations, op.key, e.providerId))
      && (e.outcome == ProvesNonDelivery ==> Reconciled(db, op.key, ProvesNonDelivery))
    case Rebuild(call, providerId) =>
      db.enabled && Durable(db, call.key) && Attested(db.sends, db.reconciliations, call.key, providerId)
    case Returned(call, receipt) => Genuine(db, call.key, receipt)
    case _ => true
  }

  /** A worker about to send is the only one, and nothing was sent before it. */
  ghost predicate TokensOk(s: State) {
    && (forall w | At(s, w).Send? :: !SentFor(s.db.sends, At(s, w).call.key))
    && (forall v, w | At(s, v).Send? && At(s, w).Send? && v != w :: At(s, v).call.key != At(s, w).call.key)
  }

  ghost predicate Inv(s: State) {
    && DbOk(s.db) && TokensOk(s)
    && forall w | w in s.pcs :: Knows(s.db, s.pcs[w])
  }

  // ---------------------------------------------------- what no step undoes

  /** The durable state only moves forward. */
  ghost predicate Grows(a: Db, b: Db) {
    && a.enabled == b.enabled
    && (forall id | IsContact(a.rows, id) ::
          && IsContact(b.rows, id) && SameIdentity(a.rows[id], b.rows[id])
          && (a.rows[id].state != Prepared ==> b.rows[id].state != Prepared)
          && (Terminal(a.rows[id].state) ==> b.rows[id] == a.rows[id]))
    && (forall key | key in a.requests :: RequestedAs(b, key, a.requests[key]))
    && (forall key | HasReceipt(a, key) :: HasReceipt(b, key))
    && (forall key | key in a.reconciliations ::
          key in b.reconciliations && b.reconciliations[key] == a.reconciliations[key])
    && a.sends <= b.sends
  }

  lemma LoggedStays(a: seq<SendRecord>, b: seq<SendRecord>, key: string, reply: SendOutcome)
    requires a <= b && Logged(a, key, reply)
    ensures Logged(b, key, reply)
  {
    var i :| 0 <= i < |a| && a[i] == SendRecord(key, reply);
    assert b[i] == SendRecord(key, reply);
  }

  lemma AttestedStays(a: Db, b: Db, key: string, providerId: string)
    requires a.sends <= b.sends && Attested(a.sends, a.reconciliations, key, providerId)
    requires forall k | k in a.reconciliations :: k in b.reconciliations && b.reconciliations[k] == a.reconciliations[k]
    ensures Attested(b.sends, b.reconciliations, key, providerId)
  {
    if Logged(a.sends, key, SendAccepted(providerId)) {
      LoggedStays(a.sends, b.sends, key, SendAccepted(providerId));
    }
    if Logged(a.sends, key, SendAccepted("")) {
      LoggedStays(a.sends, b.sends, key, SendAccepted(""));
    }
    hide Logged;
  }

  lemma GenuineStays(a: Db, b: Db, key: string, receipt: Receipt)
    requires a.enabled == b.enabled && a.sends <= b.sends && Genuine(a, key, receipt)
    requires forall k | k in a.reconciliations :: k in b.reconciliations && b.reconciliations[k] == a.reconciliations[k]
    ensures Genuine(b, key, receipt)
  {
    hide Attested;
    if a.enabled {
      AttestedStays(a, b, key, receipt.providerId);
    }
  }

  lemma KnowledgeStays(a: Db, b: Db, pc: Pc)
    requires Grows(a, b) && Knows(a, pc)
    ensures Knows(b, pc)
  {
    hide Attested, Genuine, Logged;
    match pc
    case Complete(call, _, receipt) => GenuineStays(a, b, call.key, receipt);
    case Returned(call, receipt) => GenuineStays(a, b, call.key, receipt);
    case Resolve(_, op, e) =>
      if e.outcome == ProvesDelivery {
        AttestedStays(a, b, op.key, e.providerId);
      }
    case Rebuild(call, providerId) => AttestedStays(a, b, call.key, providerId);
    case Sent(call, _, reply) => LoggedStays(a.sends, b.sends, call.key, reply);
    case _ =>
  }

  // ------------------------------------------------------- single mutations

  /** The commands the contact service and the reconciler send to the store. */
  predicate ContactCommand(cmd: Command) {
    cmd.StartAttempt? || cmd.MarkCompleted? || cmd.MarkFailedSafe? || cmd.MarkDeliveryUnknown?
  }

  lemma AdvanceContact(op: Operation, cmd: Command, now: real)
    requires ValidOperation(op) && op.kind == Contact && ContactRow(op) && ContactCommand(cmd)
    requires Advance(op, cmd, now).Ok?
    ensures var r := Advance(op, cmd, now).value;
            && ValidOperation(r) && SameIdentity(op, r) && ContactRow(r)
            && r.state != Prepared && !Terminal(op.state)
            && (r.state == Completed ==> cmd == MarkCompleted)
            && (cmd == StartAttempt ==> op.state == Prepared)
  {
  }

  /** Replacing one contact row by its successor. */
  lemma KeyStays(rows: Rows, id: OpId, op: Operation, key: string)
    requires id in rows && SameIdentity(rows[id], op) && HasKey(rows, Contact, key)
    ensures HasKey(rows[id := op], Contact, key)
  {
    var j :| j in rows && rows[j].kind == Contact && rows[j].key == key;
    assert rows[id := op][j].kind == Contact && rows[id := op][j].key == key;
  }

  lemma RowMoves(db: Db, id: OpId, op: Operation)
    requires DbOk(db) && IsContact(db.rows, id) && !Terminal(db.rows[id].state)
    requires ValidOperation(op) && SameIdentity(db.rows[id], op) && ContactRow(op) && op.state != Prepared
    requires op.state == Completed ==> Durable(db, op.key)
    ensures DbOk(db.(rows := db.rows[id := op])) && Grows(db, db.(rows := db.rows[id := op]))
  {
    hide ValidOperation, ContactRow, HasKey;
    var b := db.(rows := db.rows[id := op]);
    forall i | 0 <= i < |b.sends| ensures HasKey(b.rows, Contact, b.sends[i].key) {
      KeyStays(db.rows, id, op, b.sends[i].key);
    }
  }

  /** What an ordinary step promises. */
  ghost predicate Good(db: Db, o: Outcome) {
    && DbOk(o.db) && Grows(db, o.db) && Knows(o.db, o.pc)
    && o.db.sends == db.sends && !o.pc.Send?
  }

  lemma CommitIsGood(db: Db, id: OpId, cmd: Command, now: real, next: Pc)
    requires DbOk(db) && IsContact(db.rows, id) && ContactCommand(cmd)
    requires cmd == MarkCompleted ==> Durable(db, db.rows[id].key)
    requires Knows(db, next) && !next.Send?
    ensures Good(db, Commit(db, id, cmd, now, next))
  {
    var r := Transact(db.rows, id, cmd, now);
    if r.Ok? {
      AdvanceContact(db.rows[id], cmd, now);
      RowMoves(db, id, r.value);
      KnowledgeStays(db, Commit(db, id, cmd, now, next).db, next);
    }
  }

  lemma StartIsGood(db: Db, id: OpId, call: Call, now: real)
    requires DbOk(db) && Holds(db, id, call.key)
    ensures var o := Commit(db, id, StartAttempt, now, Send(call, id));
            && DbOk(o.db) && Grows(db, o.db) && Knows(o.db, o.pc) && o.db.sends == db.sends
            && (o.pc.Send? ==> o.pc.call == call && db.rows[id].state == Prepared && !SentFor(db.sends, call.key))
  {
    var r := Transact(db.rows, id, StartAttempt, now);
    if r.Ok? {
      AdvanceContact(db.rows[id], StartAttempt, now);
      RowMoves(db, id, r.value);
    }
  }

  lemma ReserveIsGood(db: Db, call: Call, now: real)
    requires DbOk(db) && Knows(db, ReserveOperation(call))
    ensures Good(db, ReserveStep(db, call, now))
  {
    var op := InitialContact(call, now);
    var o := ReserveStep(db, call, now);
    ReserveKeepsRows(db.rows, op);
    if Reserved(db.rows, op).Ok? {
      if HasKey(db.rows, Contact, call.key) {
        assert AfterReserve(db.rows, op) == db.rows;
        hide DbOk, HasKey;
        MoveIsGood(db, o.pc);
      } else {
        InsertIsGood(db, op);
        hide DbOk, HasKey, Grows, ValidOperation;
      }
    } else {
      hide DbOk, HasKey;
      MoveIsGood(db, o.pc);
    }
  }

  lemma InsertIsGood(db: Db, op: Operation)
    requires DbOk(db) && db.enabled && InitialOperation(op) && op.kind == Contact
    requires op.id !in db.rows && !HasKey(db.rows, Contact, op.key)
    requires RequestedAs(db, op.key, op.requestHash)
    ensures var b := db.(rows := db.rows[op.id := op]); DbOk(b) && Grows(db, b)
  {
    hide ValidOperation, RowsOk, SendsOk, EvidenceOk, Grows;
    var b := db.(rows := db.rows[op.id := op]);
    InsertRowsOk(db, op);
    SameEvidence(db, b.rows);
    InsertSends(db, op);
    InsertGrows(db, op);
  }

  lemma InsertRowsOk(db: Db, op: Operation)
    requires RowsOk(db) && db.enabled && InitialOperation(op) && op.kind == Contact
    requires op.id !in db.rows && !HasKey(db.rows, Contact, op.key) && RequestedAs(db, op.key, op.requestHash)
    ensures RowsOk(db.(rows := db.rows[op.id := op]))
  {
    hide ValidOperation;
  }

  lemma SameEvidence(db: Db, rows: Rows)
    requires EvidenceOk(db)
    ensures EvidenceOk(db.(rows := rows))
  {
    hide Attested;
  }

  lemma InsertSends(db: Db, op: Operation)
    requires SendsOk(db) && op.kind == Contact && op.id !in db.rows && !HasKey(db.rows, Contact, op.key)
    ensures SendsOk(db.(rows := db.rows[op.id := op]))
  {
    RowsGrowKeepsSends(db, db.(rows := db.rows[op.id := op]));
  }

  lemma InsertGrows(db: Db, op: Operation)
    requires op.id !in db.rows
    ensures Grows(db, db.(rows := db.rows[op.id := op]))
  {
  }

  lemma RowsGrowKeepsSends(a: Db, b: Db)
    requires SendsOk(a) && a.sends == b.sends && a.rows.Keys <= b.rows.Keys
    requires forall id | id in a.rows :: b.rows[id] == a.rows[id]
    requires forall id | id in b.rows && id !in a.rows :: !HasKey(a.rows, b.rows[id].kind, b.rows[id].key)
    ensures SendsOk(b)
  {
    forall i | 0 <= i < |b.sends| ensures HasKey(b.rows, Contact, b.sends[i].key) {
      assert HasKey(a.rows, Contact, a.sends[i].key);
      var j :| j in a.rows && a.rows[j].kind == Contact && a.rows[j].key == a.sends[i].key;
      assert b.rows[j] == a.rows[j];
    }
  }

  lemma ReceiptIsGood(db: Db, key: string, receipt: Receipt, next: Pc)
    requires DbOk(db) && !next.Send?
    requires Genuine(db, key, receipt)
    requires Knows(db.(receipts := db.receipts[key := receipt]), next)
    ensures Good(db, SaveReceipt(db, key, receipt, next))
  {
    hide ValidRows, ContactRow, Accepted, SentFor, HasKey, Attested;
  }

  /** Every step but the two of the send token keeps the tables in order. */
  lemma PerformIsGood(db: Db, pc: Pc, env: Env)
    requires DbOk(db) && Knows(db, pc) && !pc.Send? && !pc.BeginCommit?
    ensures Good(db, Perform(db, pc, env))
  {
    hide DbOk, Knows, Good, ProbeNext, SentStep, CompleteStep, ResolveStep, SaveReconciliationStep;
    match pc
    case Idle => MoveIsGood(db, pc);
    case Lookup(call) => LookupIsGood(db, call);
    case ReserveRequest(call) => RequestIsGood(db, call);
    case DryRun(call) => ReceiptStepIsGood(db, pc, call, Receipt(DryRunReceipt, ""));
    case ReserveOperation(call) => ReserveIsGood(db, call, env.now);
    case Prepare(call, op) => PrepareIsGood(db, call, op);
    case BeginRead(call, id) => BeginIsGood(db, call, id);
    case Sent(call, id, reply) => SentIsGood(db, call, id, reply, env.now);
    case Complete(call, id, receipt) => CompleteIsGood(db, call, id, receipt, env.now);
    case Reconcile(from, id) => ReconcileIsGood(db, from, id);
    case ReadReceipt(from, op) => ReadReceiptIsGood(db, from, op);
    case ReadReconciliation(from, op) => ReadReconciliationIsGood(db, from, op);
    case Probe(from, op) => ProbeIsGood(db, from, op, env.probe);
    case SaveReconciliation(from, op, e) => ReconciliationIsGood(db, from, op, e, env.canonical);
    case Resolve(from, op, e) => ResolveIsGood(db, from, op, e, env.now);
    case Rebuild(call, providerId) => ReceiptStepIsGood(db, pc, call, Receipt(SentReceipt, providerId));
    case Returned(_, _) => MoveIsGood(db, pc);
    case Raised(_) => MoveIsGood(db, pc);
  }

  /** A step that only moves the worker. */
  lemma MoveIsGood(db: Db, next: Pc)
    requires DbOk(db) && Knows(db, next) && !next.Send?
    ensures Good(db, Outcome(db, next))
  {
    hide DbOk, Knows;
  }

  lemma LookupIsGood(db: Db, call: Call)
    requires DbOk(db)
    ensures Good(db, Outcome(db, LookupNext(db, call)))
  {
    if call.key in db.receipts {
      StoredIsGenuine(db, call.key);
    }
    hide DbOk, Genuine;
    MoveIsGood(db, LookupNext(db, call));
  }

  lemma StoredIsGenuine(db: Db, key: string)
    requires EvidenceOk(db) && key in db.receipts
    ensures Genuine(db, key, db.receipts[key])
  {
  }

  lemma BeginIsGood(db: Db, call: Call, id: OpId)
    requires DbOk(db) && Knows(db, BeginRead(call, id))
    ensures Good(db, Outcome(db, BeginNext(db, call, id)))
  {
    hide DbOk;
    MoveIsGood(db, BeginNext(db, call, id));
  }

  lemma RequestIsGood(db: Db, call: Call)
    requires DbOk(db)
    ensures Good(db, ReserveRequestStep(db, call))
  {
    hide ContactRow, ValidRows, RowsOk, EvidenceOk, SendsOk, Grows;
    RequestGrows(db, call);
    RequestRowsOk(db, call);
    var o := ReserveRequestStep(db, call);
    if o.pc.Raised? {
      return;
    }
    RequestEvidence(db, call);
    SameSends(db, o.db);
  }

  lemma RequestGrows(db: Db, call: Call)
    ensures Grows(db, ReserveRequestStep(db, call).db)
  {
  }

  lemma RequestRowsOk(db: Db, call: Call)
    requires RowsOk(db)
    ensures RowsOk(ReserveRequestStep(db, call).db)
  {
    hide ValidRows, ContactRow;
  }

  lemma RequestEvidence(db: Db, call: Call)
    requires EvidenceOk(db)
    ensures EvidenceOk(ReserveRequestStep(db, call).db)
  {
    hide Attested;
  }

  lemma SameSends(a: Db, b: Db)
    requires SendsOk(a) && b.rows == a.rows && b.sends == a.sends
    ensures SendsOk(b)
  {
    hide SentFor, HasKey;
  }

  lemma ReceiptStepIsGood(db: Db, pc: Pc, call: Call, receipt: Receipt)
    requires DbOk(db) && Knows(db, pc)
    requires (pc == DryRun(call) && receipt.status == DryRunReceipt)
             || (pc == Rebuild(call, receipt.providerId) && receipt.status == SentReceipt)
    ensures Good(db, ReceiptStep(db, call, receipt))
  {
    hide RowsOk, SendsOk, Attested;
    ReceiptIsGood(db, call.key, receipt, Returned(call, receipt));
  }

  lemma PrepareIsGood(db: Db, call: Call, op: Operation)
    requires DbOk(db) && Knows(db, Prepare(call, op))
    ensures Good(db, Outcome(db, PrepareNext(db, call, op)))
  {
    ContactMeansEnabled(db, op.id);
    PrepareKnows(db, call, op);
    hide DbOk, Good, Knows;
    MoveIsGood(db, PrepareNext(db, call, op));
  }

  lemma PrepareKnows(db: Db, call: Call, op: Operation)
    requires db.enabled && Knows(db, Prepare(call, op))
    ensures Knows(db, PrepareNext(db, call, op)) && !PrepareNext(db, call, op).Send?
  {
  }

  lemma CompleteIsGood(db: Db, call: Call, id: OpId, receipt: Receipt, now: real)
    requires DbOk(db) && Knows(db, Complete(call, id, receipt))
    ensures Good(db, CompleteStep(db, call, id, receipt, now))
  {
    hide DbOk, Grows;
    CommitIsGood(db, id, MarkCompleted, now, Returned(call, receipt));
  }

  lemma ReconcileIsGood(db: Db, from: Option<Call>, id: OpId)
    requires DbOk(db) && Knows(db, Reconcile(from, id))
    ensures Good(db, Outcome(db, ReconcileNext(db, from, id)))
  {
    hide ContactRow, EvidenceOk, SendsOk, ValidOperation;
    MoveIsGood(db, ReconcileNext(db, from, id));
  }

  lemma ReadReceiptIsGood(db: Db, from: Option<Call>, op: Operation)
    requires DbOk(db) && Knows(db, ReadReceipt(from, op))
    ensures Good(db, Outcome(db, ReadReceiptNext(db, from, op)))
  {
    hide ValidEvidence, NamedAs;
    if HasReceipt(db, op.key) {
      StoredIsGenuine(db, op.key);
      ContactMeansEnabled(db, op.id);
    }
    hide Seen, DbOk;
    MoveIsGood(db, ReadReceiptNext(db, from, op));
  }

  lemma ReadReconciliationIsGood(db: Db, from: Option<Call>, op: Operation)
    requires DbOk(db) && Knows(db, ReadReconciliation(from, op))
    ensures Good(db, Outcome(db, ReadReconciliationNext(db, from, op)))
  {
    hide Seen, Proven, RowsOk, SendsOk;
    MoveIsGood(db, ReadReconciliationNext(db, from, op));
  }

  lemma ProbeIsGood(db: Db, from: Option<Call>, op: Operation, probe: Option<Evidence>)
    requires DbOk(db) && Knows(db, Probe(from, op))
    ensures Good(db, Outcome(db, ProbeNext(from, op, probe)))
  {
    hide Seen, DbOk, ValidEvidence;
    MoveIsGood(db, ProbeNext(from, op, probe));
  }

  lemma SentIsGood(db: Db, call: Call, id: OpId, reply: SendOutcome, now: real)
    requires DbOk(db) && Knows(db, Sent(call, id, reply))
    ensures Good(db, SentStep(db, call, id, reply, now))
  {
    hide DbOk, Good, Commit, Proven;
    match reply
    case SendFailedSafe =>
      CommitIsGood(db, id, MarkFailedSafe(Some("hermes_send_failed_safe")), now, Raised(FreshDecisionRequired));
    case SendUnknown =>
      CommitIsGood(db, id, MarkDeliveryUnknown(Some("hermes_send_outcome_unknown")), now, Reconcile(Some(call), id));
    case SendAccepted(providerId) =>
      AcceptedIsGood(db, call, id, providerId);
  }

  lemma AcceptedIsGood(db: Db, call: Call, id: OpId, providerId: string)
    requires DbOk(db) && Knows(db, Sent(call, id, SendAccepted(providerId)))
    ensures Good(db, SentStep(db, call, id, SendAccepted(providerId), 0.0))
  {
    var receipt := Receipt(SentReceipt, providerId);
    AcceptedMeansProven(db, call.key, SendAccepted(providerId));
    ContactMeansEnabled(db, id);
    hide DbOk, Good, Proven;
    ReceiptIsGood(db, call.key, receipt, Complete(call, id, receipt));
  }

  lemma AcceptedMeansProven(db: Db, key: string, reply: SendOutcome)
    requires Logged(db.sends, key, reply) && reply.SendAccepted?
    ensures Proven(db, key)
  {
  }

  lemma ReconciliationIsGood(db: Db, from: Option<Call>, op: Operation, e: Evidence, canonical: bool)
    requires DbOk(db) && Knows(db, SaveReconciliation(from, op, e))
    ensures Good(db, SaveReconciliationStep(db, from, op, e, canonical))
  {
    hide DbOk, Grows, Seen;
    var o := SaveReconciliationStep(db, from, op, e, canonical);
    if o.pc.Resolve? {
      ReconciliationSaved(db, op.key, e);
      KnowledgeStays(db, o.db, SaveReconciliation(from, op, e));
    } else {
      MoveIsGood(db, o.pc);
    }
  }

  lemma ReconciliationSaved(db: Db, key: string, e: Evidence)
    requires DbOk(db) && e.outcome != ProvesNothing
    requires key in db.reconciliations ==> db.reconciliations[key] == e
    ensures var b := db.(reconciliations := db.reconciliations[key := e]); DbOk(b) && Grows(db, b)
  {
    hide ValidRows, ContactRow, SentFor, HasKey, Genuine;
    var b := db.(reconciliations := db.reconciliations[key := e]);
    forall k | k in b.receipts ensures Genuine(b, k, b.receipts[k]) {
      GenuineStays(db, b, k, b.receipts[k]);
    }
  }

  lemma ResolveIsGood(db: Db, from: Option<Call>, op: Operation, e: Evidence, now: real)
    requires DbOk(db) && Knows(db, Resolve(from, op, e))
    ensures Good(db, ResolveStep(db, from, op, e, now))
  {
    hide RowsOk, EvidenceOk, SendsOk;
    match e.outcome
    case ProvesNothing =>
    case ProvesDelivery =>
      ContactMeansEnabled(db, op.id);
      CommitIsGood(db, op.id, MarkCompleted, now, if from.Some? then Rebuild(from.value, e.providerId) else Idle);
    case ProvesNonDelivery =>
      CommitIsGood(db, op.id, MarkFailedSafe(Some("reconciled_authoritative_non_delivery")), now,
                   if from.Some? then Raised(FreshDecisionRequired) else Idle);
  }

  lemma ContactMeansEnabled(db: Db, id: OpId)
    requires RowsOk(db) && IsContact(db.rows, id)
    ensures db.enabled
  {
  }

  // ------------------------------------------------------------- every event

  lemma StepKeeps(s: State, w: nat, env: Env)
    requires Inv(s)
    ensures Inv(Apply(s, Step(w, env))) && Grows(s.db, Apply(s, Step(w, env)).db)
  {
    hide DbOk, Grows, Perform, SentFor;
    var pc := At(s, w);
    IdleKnows(s, w);
    var t := Apply(s, Step(w, env));
    var o := Perform(s.db, pc, env);
    if pc.Send? {
      SendKeeps(s, w, env);
    } else if pc.BeginCommit? {
      StartKeeps(s, w, env);
    } else {
      PerformIsGood(s.db, pc, env);
      GoodIsKnown(s.db, o);
      OthersStay(s, t, w, o.pc);
    }
  }

  lemma IdleKnows(s: State, w: nat)
    requires forall v | v in s.pcs :: Knows(s.db, s.pcs[v])
    ensures Knows(s.db, At(s, w))
  {
  }

  lemma GoodIsKnown(db: Db, o: Outcome)
    requires Good(db, o)
    ensures DbOk(o.db) && Grows(db, o.db) && Knows(o.db, o.pc) && o.db.sends == db.sends && !o.pc.Send?
  {
  }

  lemma OthersStay(s: State, t: State, w: nat, pc: Pc)
    requires forall v | v in s.pcs :: Knows(s.db, s.pcs[v])
    requires Grows(s.db, t.db) && t.pcs == s.pcs[w := pc] && Knows(t.db, pc)
    ensures forall v | v in t.pcs :: Knows(t.db, t.pcs[v])
    ensures forall v :: At(t, v) == if v == w then pc else At(s, v)
  {
    hide Grows, Knows;
    forall v | v in t.pcs ensures Knows(t.db, t.pcs[v]) {
      if v != w {
        KnowledgeStays(s.db, t.db, s.pcs[v]);
      }
    }
  }

  lemma StartKeeps(s: State, w: nat, env: Env)
    requires Inv(s) && At(s, w).BeginCommit?
    ensures Inv(Apply(s, Step(w, env))) && Grows(s.db, Apply(s, Step(w, env)).db)
  {
    var pc := At(s, w);
    var t := Apply(s, Step(w, env));
    StartIsGood(s.db, pc.id, pc.call, env.now);
    OthersStay(s, t, w, At(t, w));
    forall v | v != w && At(t, w).Send? && At(s, v).Send? ensures At(s, v).call.key != pc.call.key {
      TokenIsStarted(s, v);
    }
  }

  lemma TokenIsStarted(s: State, v: nat)
    requires Inv(s) && At(s, v).Send?
    ensures forall id | IsContact(s.db.rows, id) && s.db.rows[id].state == Prepared ::
              s.db.rows[id].key != At(s, v).call.key
  {
    assert Knows(s.db, s.pcs[v]);
  }

  lemma SendKeeps(s: State, w: nat, env: Env)
    requires Inv(s) && At(s, w).Send?
    ensures Inv(Apply(s, Step(w, env))) && Grows(s.db, Apply(s, Step(w, env)).db)
  {
    var pc := At(s, w);
    var t := Apply(s, Step(w, env));
    SendIsGood(s.db, pc.call, pc.id, env.reply);
    OthersStay(s, t, w, At(t, w));
  }

  lemma SendIsGood(db: Db, call: Call, id: OpId, reply: SendOutcome)
    requires DbOk(db) && Knows(db, Send(call, id)) && !SentFor(db.sends, call.key)
    ensures var b := db.(sends := db.sends + [SendRecord(call.key, reply)]);
            && DbOk(b) && Grows(db, b) && Knows(b, Sent(call, id, reply))
            && forall k :: SentFor(b.sends, k) <==> SentFor(db.sends, k) || k == call.key
  {
    var b := db.(sends := db.sends + [SendRecord(call.key, reply)]);
    OneMoreSend(db.sends, SendRecord(call.key, reply));
    hide ContactRow, ValidRows, SentFor, Accepted, Logged;
    assert EvidenceOk(b) by { SendKeepsEvidence(db, b); }
    hide EvidenceOk;
    assert HasKey(b.rows, Contact, call.key) by {
      assert b.rows[id].kind == Contact && b.rows[id].key == call.key;
    }
    forall j | IsContact(b.rows, j) && b.rows[j].state == Prepared ensures b.rows[j].key != call.key {
      assert HasKey(db.rows, Contact, call.key);
      OnlyRowOfKey(db.rows, j, id);
    }
    forall i | 0 <= i < |db.sends| ensures db.sends[i].key != call.key {
      SentForAt(db.sends, i);
    }
  }

  lemma SendKeepsEvidence(db: Db, b: Db)
    requires EvidenceOk(db) && db.sends <= b.sends && b == db.(sends := b.sends)
    ensures EvidenceOk(b)
  {
    hide Genuine;
    forall key | key in b.receipts ensures Genuine(b, key, b.receipts[key]) {
      GenuineStays(db, b, key, b.receipts[key]);
    }
  }

  lemma OneMoreSend(sends: seq<SendRecord>, r: SendRecord)
    ensures forall k :: SentFor(sends + [r], k) <==> SentFor(sends, k) || k == r.key
    ensures forall k | Accepted(sends, k) :: Accepted(sends + [r], k)
    ensures Logged(sends + [r], r.key, r.outcome)
  {
    var after := sends + [r];
    assert after[|sends|] == r;
    assert forall i | 0 <= i < |sends| :: after[i] == sends[i];
    forall k ensures SentFor(after, k) <==> SentFor(sends, k) || k == r.key {}
  }

  lemma SentForAt(sends: seq<SendRecord>, i: nat)
    requires i < |sends|
    ensures SentFor(sends, sends[i].key)
  {
  }

  lemma OnlyRowOfKey(rows: Rows, i: OpId, j: OpId)
    requires ValidRows(rows) && IsContact(rows, i) && IsContact(rows, j) && rows[i].state != rows[j].state
    ensures rows[i].key != rows[j].key
  {
  }

  /** The tables move under the workers, but nothing is sent. */
  lemma TablesMove(s: State, db: Db)
    requires Inv(s) && DbOk(db) && Grows(s.db, db) && db.sends == s.db.sends
    ensures Inv(s.(db := db))
  {
    hide DbOk, Grows, Knows, SentFor;
    var t := s.(db := db);
    forall v | v in t.pcs ensures Knows(t.db, t.pcs[v]) {
      KnowledgeStays(s.db, t.db, s.pcs[v]);
    }
    assert forall v :: At(t, v) == At(s, v);
  }

  /** The restart sweep: every interrupted send becomes unknown. */
  lemma SweepIsGood(db: Db, now: real)
    requires DbOk(db)
    ensures var b := db.(rows := Swept(db.rows, now)); DbOk(b) && Grows(db, b)
  {
    SweepKeepsRows(db.rows, now);
    var b := db.(rows := Swept(db.rows, now));
    forall id | id in db.rows
      ensures SweptFrom(db.rows[id], b.rows[id])
    {
      SweptRowFacts(db.rows[id], now);
    }
    SweptTables(db, b);
  }

  ghost predicate SweptFrom(op: Operation, r: Operation) {
    && SameIdentity(op, r)
    && (op.state == Prepared <==> r.state == Prepared)
    && (op.state == Completed <==> r.state == Completed)
    && (Terminal(op.state) ==> r == op)
    && (ContactRow(op) ==> ContactRow(r))
  }

  lemma SweptRowFacts(op: Operation, now: real)
    ensures SweptFrom(op, SweptRow(op, now))
  {
  }

  lemma SweptTables(db: Db, b: Db)
    requires DbOk(db) && b == db.(rows := b.rows) && ValidRows(b.rows) && b.rows.Keys == db.rows.Keys
    requires forall id | id in db.rows :: SweptFrom(db.rows[id], b.rows[id])
    ensures DbOk(b) && Grows(db, b)
  {
    hide ContactRow, ValidRows;
    forall i | 0 <= i < |b.sends| ensures HasKey(b.rows, Contact, b.sends[i].key) {
      assert HasKey(db.rows, Contact, db.sends[i].key);
      var j :| j in db.rows && db.rows[j].kind == Contact && db.rows[j].key == db.sends[i].key;
      assert b.rows[j].key == db.rows[j].key && b.rows[j].kind == Contact;
    }
  }

  lemma ApplyKeeps(s: State, e: Event)
    requires Inv(s)
    ensures Inv(Apply(s, e)) && Grows(s.db, Apply(s, e).db)
  {
    hide DbOk, SentFor;
    match e
    case Step(w, env) => StepKeeps(s, w, env);
    case Sweep(now) =>
      SweepIsGood(s.db, now);
      TablesMove(s, Apply(s, e).db);
    case Arrive(w, call) => if Free(At(s, w)) { OthersStay(s, Apply(s, e), w, Lookup(call)); }
    case Recover(w, id) => if Free(At(s, w)) { OthersStay(s, Apply(s, e), w, Reconcile(None, id)); }
    case Crash(w) => OthersStay(s, Apply(s, e), w, Idle);
  }

  lemma {:induction false} RunKeeps(enabled: bool, es: seq<Event>)
    ensures Inv(Run(Init(enabled), es)) && Run(Init(enabled), es).db.enabled == enabled
  {
    if es != [] {
      RunKeeps(enabled, es[..|es| - 1]);
      ApplyKeeps(Run(Init(enabled), es[..|es| - 1]), es[|es| - 1]);
    }
  }
}
