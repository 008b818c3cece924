/**
  The promises of contact delivery, each over every run of the protocol.
*/
module ContactTheorems {
  import opened Basics
  import opened ReliabilityContract
  import opened OperationStore
  import opened ContactProtocol
  import opened ContactSafety

  // ----------------------------------------------------- at most one send

  /** The sender is called at most once per idempotency key, in every run. */
  lemma AtMostOneSend(enabled: bool, es: seq<Event>, i: nat, j: nat)
    requires i < j < |Run(Init(enabled), es).db.sends|
    ensures Run(Init(enabled), es).db.sends[i].key != Run(Init(enabled), es).db.sends[j].key
  {
    RunKeeps(enabled, es);
  }

  lemma SendMeansEnabled(db: Db, i: nat)
    requires DbOk(db) && i < |db.sends|
    ensures db.enabled
  {
    assert HasKey(db.rows, Contact, db.sends[i].key);
    var id :| id in db.rows && db.rows[id].kind == Contact && db.rows[id].key == db.sends[i].key;
    ContactMeansEnabled(db, id);
  }

  /** With delivery disabled the sender is never called. */
  lemma DryRunNeverSends(es: seq<Event>)
    ensures Run(Init(false), es).db.sends == []
  {
    RunKeeps(false, es);
    hide Run, DbOk;
    if |Run(Init(false), es).db.sends| > 0 {
      SendMeansEnabled(Run(Init(false), es).db, 0);
    }
  }

  /** No contact row is ever started twice, scheduled for a retry or exhausted. */
  lemma ContactsAreNeverRetried(enabled: bool, es: seq<Event>, id: OpId)
    requires IsContact(Run(Init(enabled), es).db.rows, id)
    ensures var op := Run(Init(enabled), es).db.rows[id];
            && op.attempt <= 1 && op.state != RetryWait && op.state != Exhausted
            && (op.attempt == 0 <==> op.state == Prepared)
            && (op.attempt == 0 ==> !SentFor(Run(Init(enabled), es).db.sends, op.key))
  {
    RunKeeps(enabled, es);
  }

  // ------------------------------------------------------------- evidence

  /**
    A completed contact has a durable delivered receipt or reconciliation, and
    behind it the provider's acceptance or a probe's word.
  */
  lemma CompletedIsBacked(enabled: bool, es: seq<Event>, id: OpId)
    requires IsContact(Run(Init(enabled), es).db.rows, id)
    requires Run(Init(enabled), es).db.rows[id].state == Completed
    ensures Durable(Run(Init(enabled), es).db, Run(Init(enabled), es).db.rows[id].key)
    ensures Proven(Run(Init(enabled), es).db, Run(Init(enabled), es).db.rows[id].key)
  {
    RunKeeps(enabled, es);
  }

  /**
    With delivery enabled every stored and every returned receipt is a delivered
    one and carries the provider's own id: that of an accepted send for its key,
    or of the stored delivered reconciliation, with the stand-in only for an
    empty one. Without delivery every receipt is a dry run.
  */
  lemma ReceiptsAreAttested(enabled: bool, es: seq<Event>)
    ensures var s := Run(Init(enabled), es);
            && (forall key | key in s.db.receipts :: Genuine(s.db, key, s.db.receipts[key]))
            && (forall w | At(s, w).Returned? :: Genuine(s.db, At(s, w).call.key, At(s, w).receipt))
  {
    RunKeeps(enabled, es);
    var s := Run(Init(enabled), es);
    forall w | At(s, w).Returned? ensures Genuine(s.db, At(s, w).call.key, At(s, w).receipt) {
      IdleKnows(s, w);
    }
  }

  /** Why a contact may leave DELIVERY_UNKNOWN. */
  ghost predicate Justified(db: Db, key: string, state: OperationState) {
    || (state == Completed && Durable(db, key))
    || (state == FailedSafe && (Reconciled(db, key, ProvesNonDelivery) || Logged(db.sends, key, SendFailedSafe)))
  }

  lemma CommitLeavesOthers(db: Db, id: OpId, cmd: Command, now: real, next: Pc, other: OpId)
    requires other in db.rows && other != id
    ensures other in Commit(db, id, cmd, now, next).db.rows
    ensures Commit(db, id, cmd, now, next).db.rows[other] == db.rows[other]
  {
  }

  /** From DELIVERY_UNKNOWN only two commands succeed. */
  lemma UnknownMoves(op: Operation, cmd: Command, now: real)
    requires op.state == DeliveryUnknown && Advance(op, cmd, now).Ok?
    ensures cmd == MarkCompleted || cmd.MarkFailedSafe?
    ensures Advance(op, cmd, now).value.state == if cmd == MarkCompleted then Completed else FailedSafe
  {
  }

  lemma CommitFromUnknown(db: Db, id: OpId, cmd: Command, now: real, next: Pc, row: OpId)
    requires DbOk(db) && IsContact(db.rows, row) && db.rows[row].state == DeliveryUnknown
    requires id == row && cmd == MarkCompleted ==> Durable(db, db.rows[row].key)
    requires id == row && cmd.MarkFailedSafe? ==> Justified(db, db.rows[row].key, FailedSafe)
    ensures var b := Commit(db, id, cmd, now, next).db;
            row in b.rows && (b.rows[row] == db.rows[row] || Justified(db, db.rows[row].key, b.rows[row].state))
  {
    hide DbOk, Durable, Advance, Justified;
    if id != row {
      CommitLeavesOthers(db, id, cmd, now, next, row);
    } else if Transact(db.rows, id, cmd, now).Ok? {
      UnknownMoves(db.rows[id], cmd, now);
      JustifiedByReceipt(db, db.rows[row].key);
    }
  }

  lemma JustifiedByReceipt(db: Db, key: string)
    ensures Durable(db, key) ==> Justified(db, key, Completed)
  {
  }

  lemma PerformFromUnknown(db: Db, pc: Pc, env: Env, row: OpId)
    requires DbOk(db) && Knows(db, pc)
    requires IsContact(db.rows, row) && db.rows[row].state == DeliveryUnknown
    ensures var b := Perform(db, pc, env).db;
            row in b.rows && (b.rows[row] == db.rows[row] || Justified(db, db.rows[row].key, b.rows[row].state))
  {
    hide DbOk, Justified, Durable, Logged, Reconciled, Commit;
    match pc
    case ReserveOperation(call) => ReserveLeavesUnknown(db, call, env.now, row);
    case BeginCommit(call, id) => CommitFromUnknown(db, id, StartAttempt, env.now, Send(call, id), row);
    case Sent(call, id, reply) => SentFromUnknown(db, call, id, reply, env.now, row);
    case Complete(call, id, receipt) => CompleteFromUnknown(db, call, id, receipt, env.now, row);
    case Resolve(from, op, e) => ResolveFromUnknown(db, from, op, e, env.now, row);
    case _ =>
  }

  lemma ReserveLeavesUnknown(db: Db, call: Call, now: real, row: OpId)
    requires DbOk(db) && row in db.rows
    ensures row in ReserveStep(db, call, now).db.rows
    ensures ReserveStep(db, call, now).db.rows[row] == db.rows[row]
  {
    ReserveKeepsRows(db.rows, InitialContact(call, now));
  }

  lemma SentFromUnknown(db: Db, call: Call, id: OpId, reply: SendOutcome, now: real, row: OpId)
    requires DbOk(db) && Knows(db, Sent(call, id, reply))
    requires IsContact(db.rows, row) && db.rows[row].state == DeliveryUnknown
    ensures var b := SentStep(db, call, id, reply, now).db;
            row in b.rows && (b.rows[row] == db.rows[row] || Justified(db, db.rows[row].key, b.rows[row].state))
  {
    hide DbOk, Durable, Reconciled, Commit;
    match reply
    case SendFailedSafe =>
      CommitFromUnknown(db, id, MarkFailedSafe(Some("hermes_send_failed_safe")), now, Raised(FreshDecisionRequired), row);
    case SendUnknown =>
      CommitFromUnknown(db, id, MarkDeliveryUnknown(Some("hermes_send_outcome_unknown")), now, Reconcile(Some(call), id), row);
    case SendAccepted(_) =>
  }

  lemma CompleteFromUnknown(db: Db, call: Call, id: OpId, receipt: Receipt, now: real, row: OpId)
    requires DbOk(db) && Knows(db, Complete(call, id, receipt))
    requires IsContact(db.rows, row) && db.rows[row].state == DeliveryUnknown
    ensures var b := CompleteStep(db, call, id, receipt, now).db;
            row in b.rows && (b.rows[row] == db.rows[row] || Justified(db, db.rows[row].key, b.rows[row].state))
  {
    hide DbOk, Commit, Justified;
    CommitFromUnknown(db, id, MarkCompleted, now, Returned(call, receipt), row);
  }

  lemma ResolveFromUnknown(db: Db, from: Option<Call>, op: Operation, e: Evidence, now: real, row: OpId)
    requires DbOk(db) && Knows(db, Resolve(from, op, e))
    requires IsContact(db.rows, row) && db.rows[row].state == DeliveryUnknown
    ensures var b := ResolveStep(db, from, op, e, now).db;
            row in b.rows && (b.rows[row] == db.rows[row] || Justified(db, db.rows[row].key, b.rows[row].state))
  {
    hide DbOk, Commit, Durable;
    match e.outcome
    case ProvesNothing =>
    case ProvesDelivery =>
      CommitFromUnknown(db, op.id, MarkCompleted, now,
                        if from.Some? then Rebuild(from.value, e.providerId) else Idle, row);
    case ProvesNonDelivery =>
      CommitFromUnknown(db, op.id, MarkFailedSafe(Some("reconciled_authoritative_non_delivery")), now,
                        if from.Some? then Raised(FreshDecisionRequired) else Idle, row);
  }

  /**
    A contact leaves DELIVERY_UNKNOWN only for COMPLETED on durable evidence of
    delivery, or for FAILED_SAFE on a stored non-delivery record or a sender
    result that proves no invocation.
  */
  lemma UnknownLeavesOnEvidence(enabled: bool, es: seq<Event>, e: Event, id: OpId)
    requires var db := Run(Init(enabled), es).db;
             IsContact(db.rows, id) && db.rows[id].state == DeliveryUnknown
    ensures var s := Run(Init(enabled), es);
            var rows := Apply(s, e).db.rows;
            id in rows && (rows[id] == s.db.rows[id] || Justified(s.db, s.db.rows[id].key, rows[id].state))
  {
    RunKeeps(enabled, es);
    hide Run, Apply, Inv, Justified;
    LeavesOnEvidence(Run(Init(enabled), es), e, id);
  }

  lemma LeavesOnEvidence(s: State, e: Event, id: OpId)
    requires Inv(s) && IsContact(s.db.rows, id) && s.db.rows[id].state == DeliveryUnknown
    ensures var rows := Apply(s, e).db.rows;
            id in rows && (rows[id] == s.db.rows[id] || Justified(s.db, s.db.rows[id].key, rows[id].state))
  {
    hide DbOk, Justified, Perform;
    match e
    case Step(w, env) =>
      IdleKnows(s, w);
      PerformFromUnknown(s.db, At(s, w), env, id);
    case _ =>
  }

  // --------------------------------------------------------- solo execution

  /** One worker's program alone, from its place `pc`. */
  ghost function Solo(db: Db, pc: Pc, envs: seq<Env>): Outcome {
    if envs == [] then Outcome(db, pc)
    else
      var o := Solo(db, pc, envs[..|envs| - 1]);
      Perform(o.db, o.pc, envs[|envs| - 1])
  }

  function Steps(w: nat, envs: seq<Env>): seq<Event> {
    seq(|envs|, i requires 0 <= i < |envs| => Step(w, envs[i]))
  }

  /** A solo execution is a run of the protocol. */
  lemma {:induction false} SoloIsRun(s: State, w: nat, envs: seq<Env>)
    ensures var o := Solo(s.db, At(s, w), envs);
            && Run(s, Steps(w, envs)).db == o.db
            && At(Run(s, Steps(w, envs)), w) == o.pc
            && forall v | v != w :: At(Run(s, Steps(w, envs)), v) == At(s, v)
  {
    hide Perform;
    if envs != [] {
      SoloIsRun(s, w, envs[..|envs| - 1]);
      var es := Steps(w, envs);
      assert es[..|es| - 1] == Steps(w, envs[..|envs| - 1]);
    }
  }

  lemma {:induction false} RunSplits(s: State, a: seq<Event>, b: seq<Event>)
    ensures Run(s, a + b) == Run(Run(s, a), b)
  {
    hide Apply;
    if b == [] {
      assert a + b == a;
    } else {
      RunSplits(s, a, b[..|b| - 1]);
      assert (a + b)[..|a + b| - 1] == a + b[..|b| - 1];
    }
  }

  // ------------------------------------------------- answering a completion

  /** The key a worker is answering a call for, if any. */
  function Serving(pc: Pc): Option<string> {
    match pc
    case Lookup(call) => Some(call.key)
    case ReserveRequest(call) => Some(call.key)
    case DryRun(call) => Some(call.key)
    case ReserveOperation(call) => Some(call.key)
    case Prepare(call, _) => Some(call.key)
    case BeginRead(call, _) => Some(call.key)
    case BeginCommit(call, _) => Some(call.key)
    case Send(call, _) => Some(call.key)
    case Sent(call, _, _) => Some(call.key)
    case Complete(call, _, _) => Some(call.key)
    case Reconcile(from, _) => Caller(from)
    case ReadReceipt(from, _) => Caller(from)
    case ReadReconciliation(from, _) => Caller(from)
    case Probe(from, _) => Caller(from)
    case SaveReconciliation(from, _, _) => Caller(from)
    case Resolve(from, _, _) => Caller(from)
    case Rebuild(call, _) => Some(call.key)
    case Idle => None
    case Returned(_, _) => None
    case Raised(_) => None
  }

  function Caller(from: Option<Call>): Option<string> {
    if from.Some? then Some(from.value.key) else None
  }

  /** No two workers are answering calls for one key; recoveries may overlap. */
  ghost predicate Alone(s: State) {
    forall v, w | v != w && Serving(At(s, v)).Some? :: Serving(At(s, w)) != Serving(At(s, v))
  }

  ghost predicate NeverOverlaps(enabled: bool, es: seq<Event>) {
    forall n | 0 <= n <= |es| :: Alone(Run(Init(enabled), es[..n]))
  }

  /** Past the receipt cache, not yet past the prepared row. */
  predicate Waiting(pc: Pc) {
    pc.ReserveRequest? || pc.ReserveOperation? || pc.Prepare?
  }

  ghost predicate Answers(db: Db, pc: Pc) {
    (Waiting(pc) ==> pc.call.key !in db.receipts) && pc != Raised(ReceiptUnavailable)
  }

  /** A step writes at most the receipt of the key it serves. */
  lemma ReceiptsOfOwnKey(db: Db, pc: Pc, env: Env)
    ensures var b := Perform(db, pc, env).db;
            forall key | key in b.receipts && key !in db.receipts :: Serving(pc) == Some(key)
  {
    hide Transact, After, ValidEvidence, Reserved, AfterReserve;
  }

  lemma OwnAnswer(db: Db, pc: Pc, env: Env)
    requires DbOk(db) && Knows(db, pc) && Answers(db, pc)
    ensures Answers(Perform(db, pc, env).db, Perform(db, pc, env).pc)
  {
    hide DbOk, Transact, After, ValidEvidence, Reserved, AfterReserve, Knows;
    match pc
    case Prepare(call, op) =>
      if op.state == Completed {
        CompletedWasReconciled(db, call, op);
      }
    case _ =>
  }

  lemma CompletedWasReconciled(db: Db, call: Call, op: Operation)
    requires DbOk(db) && Knows(db, Prepare(call, op)) && op.state == Completed
    ensures call.key !in db.receipts ==> Reconciled(db, op.key, ProvesDelivery)
    ensures op.key == call.key && Durable(db, call.key)
  {
  }

  lemma AnswersStay(s: State, e: Event)
    requires Inv(s) && Alone(s) && forall v :: Answers(s.db, At(s, v))
    ensures forall v :: Answers(Apply(s, e).db, At(Apply(s, e), v))
  {
    hide Inv, Perform, DbOk, Serving;
    var t := Apply(s, e);
    forall v ensures Answers(t.db, At(t, v)) {
      assert Answers(s.db, At(s, v));
      if e.Step? {
        InvParts(s, e.w);
        ReceiptsOfOwnKey(s.db, At(s, e.w), e.env);
        OwnAnswer(s.db, At(s, e.w), e.env);
        if Waiting(At(s, v)) {
          WaitingServes(At(s, v));
        }
      }
    }
  }

  lemma WaitingServes(pc: Pc)
    requires Waiting(pc)
    ensures Serving(pc) == Some(pc.call.key)
  {
  }

  lemma InvParts(s: State, w: nat)
    requires Inv(s)
    ensures DbOk(s.db) && Knows(s.db, At(s, w))
  {
  }

  /**
    When calls for one key do not overlap, no call ever ends in
    contact_completed_receipt_unavailable, crashes and recoveries anywhere.
  */
  lemma {:induction false} CompletedIsAnswered(enabled: bool, es: seq<Event>)
    requires NeverOverlaps(enabled, es)
    ensures forall w :: Answers(Run(Init(enabled), es).db, At(Run(Init(enabled), es), w))
    ensures forall w :: At(Run(Init(enabled), es), w) != Raised(ReceiptUnavailable)
  {
    if es != [] {
      var before := es[..|es| - 1];
      assert forall n | 0 <= n <= |before| :: before[..n] == es[..n];
      CompletedIsAnswered(enabled, before);
      RunKeeps(enabled, before);
      assert Alone(Run(Init(enabled), before));
      AnswersStay(Run(Init(enabled), before), es[|es| - 1]);
    }
  }

  /**
    What happens with overlap: the call for a completed row raises exactly when
    no delivered reconciliation is stored, and then the receipt is durable, so
    the next lookup answers from the cache.
  */
  lemma UnavailableExactlyWhen(enabled: bool, es: seq<Event>, w: nat, env: Env)
    requires At(Run(Init(enabled), es), w).Prepare? && At(Run(Init(enabled), es), w).op.state == Completed
    ensures var s := Run(Init(enabled), es);
            var key := At(s, w).call.key;
            var next := At(Apply(s, Step(w, env)), w);
            && (next == Raised(ReceiptUnavailable) <==> !Reconciled(s.db, key, ProvesDelivery))
            && (next == Raised(ReceiptUnavailable) ==>
                  HasReceipt(s.db, key) && LookupNext(s.db, At(s, w).call).Returned?)
  {
    RunKeeps(enabled, es);
    var s := Run(Init(enabled), es);
    InvParts(s, w);
    CompletedWasReconciled(s.db, At(s, w).call, At(s, w).op);
  }

  lemma {:induction false} SoloRests(db: Db, pc: Pc, envs: seq<Env>)
    requires Free(pc)
    ensures Solo(db, pc, envs) == Outcome(db, pc)
  {
    if envs != [] {
      SoloRests(db, pc, envs[..|envs| - 1]);
    }
  }

  /** Where a lone worker ends does not depend on how long one watches it. */
  lemma SoloEndsOnce(db: Db, pc: Pc, a: seq<Env>, b: seq<Env>)
    requires a <= b && Free(Solo(db, pc, a).pc)
    ensures Solo(db, pc, b) == Solo(db, pc, a)
  {
    hide Solo, Free;
    var o := Solo(db, pc, a);
    assert a + b[|a|..] == b;
    SoloSplits(db, pc, a, b[|a|..]);
    SoloRests(o.db, o.pc, b[|a|..]);
  }

  lemma {:induction false} SoloSplits(db: Db, pc: Pc, a: seq<Env>, b: seq<Env>)
    ensures Solo(db, pc, a + b) == Solo(Solo(db, pc, a).db, Solo(db, pc, a).pc, b)
  {
    hide Perform;
    if b == [] {
      assert a + b == a;
    } else {
      SoloSplits(db, pc, a, b[..|b| - 1]);
      assert (a + b)[..|a + b| - 1] == a + b[..|b| - 1];
    }
  }

  lemma SoloFirst(db: Db, pc: Pc, envs: seq<Env>)
    requires envs != []
    ensures var o := Perform(db, pc, envs[0]);
            Solo(db, pc, envs) == Solo(o.db, o.pc, envs[1..])
  {
    hide Perform;
    var a := envs[..1];
    assert a + envs[1..] == envs;
    SoloSplits(db, pc, a, envs[1..]);
    assert a[..0] == [];
  }

  /** Three steps at once. */
  lemma SoloThree(db: Db, pc: Pc, envs: seq<Env>, o1: Outcome, o2: Outcome, o3: Outcome)
    requires |envs| >= 3
    requires Perform(db, pc, envs[0]) == o1 && Perform(o1.db, o1.pc, envs[1]) == o2
    requires Perform(o2.db, o2.pc, envs[2]) == o3
    ensures Solo(db, pc, envs) == Solo(o3.db, o3.pc, envs[3..])
  {
    hide Perform, Solo;
    SoloFirst(db, pc, envs);
    SoloFirst(o1.db, o1.pc, envs[1..]);
    SoloFirst(o2.db, o2.pc, envs[2..]);
    assert envs[1..][1..] == envs[2..] && envs[2..][1..] == envs[3..];
  }

  /** The answer for a completed key: the cached receipt, else the recorded delivery, which is stored. */
  ghost predicate CompletedAnswer(a: Db, b: Db, call: Call, pc: Pc) {
    if call.key in a.receipts then b == a && pc == Returned(call, a.receipts[call.key])
    else
      && Reconciled(a, call.key, ProvesDelivery)
      && var receipt := Receipt(SentReceipt, a.reconciliations[call.key].providerId);
         b == a.(receipts := a.receipts[call.key := receipt]) && pc == Returned(call, receipt)
  }

  /** Five undisturbed steps answer a call for a completed row. */
  lemma CompletedSolo(db: Db, id: OpId, call: Call, envs: seq<Env>)
    requires DbOk(db) && IsContact(db.rows, id) && db.rows[id].state == Completed
    requires call == Call(db.rows[id].key, db.rows[id].requestHash) && |envs| == 5
    ensures var o := Solo(db, Lookup(call), envs); CompletedAnswer(db, o.db, call, o.pc)
  {
    CompletedFacts(db, id, call, envs[2].now);
    hide DbOk, Solo;
    if call.key in db.receipts {
      SoloFirst(db, Lookup(call), envs);
      SoloRests(db, Returned(call, db.receipts[call.key]), envs[1..]);
    } else {
      RebuiltSolo(db, id, call, envs);
    }
  }

  lemma RebuiltSolo(db: Db, id: OpId, call: Call, envs: seq<Env>)
    requires |envs| == 5 && db.enabled && call.key !in db.receipts
    requires RequestedAs(db, call.key, call.hash) && Reconciled(db, call.key, ProvesDelivery)
    requires id in db.rows && db.rows[id].state == Completed && db.rows[id].key == call.key
    requires Reserved(db.rows, InitialContact(call, envs[2].now)) == Ok(db.rows[id])
    requires AfterReserve(db.rows, InitialContact(call, envs[2].now)) == db.rows
    ensures var o := Solo(db, Lookup(call), envs); CompletedAnswer(db, o.db, call, o.pc)
  {
    hide Solo, Reserved, AfterReserve, InitialContact;
    assert db.requests[call.key := call.hash] == db.requests;
    SoloThree(db, Lookup(call), envs, Outcome(db, ReserveRequest(call)),
              Outcome(db, ReserveOperation(call)), Outcome(db, Prepare(call, db.rows[id])));
    SoloFirst(db, Prepare(call, db.rows[id]), envs[3..]);
    var rebuild := Rebuild(call, db.reconciliations[call.key].providerId);
    SoloFirst(db, rebuild, envs[3..][1..]);
    var o := Perform(db, rebuild, envs[4]);
    SoloRests(o.db, o.pc, envs[3..][1..][1..]);
  }

  lemma CompletedFacts(db: Db, id: OpId, call: Call, now: real)
    requires DbOk(db) && IsContact(db.rows, id) && db.rows[id].state == Completed
    requires call == Call(db.rows[id].key, db.rows[id].requestHash)
    ensures db.enabled && RequestedAs(db, call.key, call.hash)
    ensures call.key in db.receipts ==> db.receipts[call.key].status == SentReceipt
    ensures call.key !in db.receipts ==> Reconciled(db, call.key, ProvesDelivery)
    ensures Reserved(db.rows, InitialContact(call, now)) == Ok(db.rows[id])
    ensures AfterReserve(db.rows, InitialContact(call, now)) == db.rows
  {
    KeyIsUnique(db.rows, id);
  }

  /**
    In every reachable state any free worker can answer a call for a completed
    contact by itself: it returns the cached receipt, or else one with the
    recorded provider id, which it stores. It sends nothing and moves no row, and
    the receipt is a delivered one whose provider id is on record.
  */
  lemma CompletedCanAlwaysBeAnswered(enabled: bool, es: seq<Event>, w: nat, id: OpId, envs: seq<Env>)
    requires var s := Run(Init(enabled), es);
             IsContact(s.db.rows, id) && s.db.rows[id].state == Completed && Free(At(s, w))
    requires |envs| == 5
    ensures var s := Run(Init(enabled), es);
            var call := Call(s.db.rows[id].key, s.db.rows[id].requestHash);
            var t := Run(Init(enabled), es + [Arrive(w, call)] + Steps(w, envs));
            && CompletedAnswer(s.db, t.db, call, At(t, w)) && t.db.sends == s.db.sends && t.db.rows == s.db.rows
            && At(t, w).Returned? && At(t, w).receipt.status == SentReceipt
            && Attested(s.db.sends, s.db.reconciliations, call.key, At(t, w).receipt.providerId)
  {
    RunKeeps(enabled, es);
    var s := Run(Init(enabled), es);
    var call := Call(s.db.rows[id].key, s.db.rows[id].requestHash);
    hide Inv, Solo, Perform, Init;
    InvParts(s, w);
    var a := es + [Arrive(w, call)];
    assert a[..|a| - 1] == es;
    var m := Run(Init(enabled), a);
    assert m.db == s.db && At(m, w) == Lookup(call);
    RunSplits(Init(enabled), a, Steps(w, envs));
    SoloIsRun(m, w, envs);
    CompletedSolo(s.db, id, call, envs);
    CompletedIsAttested(s.db, id, Run(Init(enabled), a + Steps(w, envs)).db, call, At(Run(Init(enabled), a + Steps(w, envs)), w));
  }

  lemma CompletedIsAttested(db: Db, id: OpId, b: Db, call: Call, pc: Pc)
    requires DbOk(db) && IsContact(db.rows, id) && CompletedAnswer(db, b, call, pc)
    ensures pc.Returned? && pc.receipt.status == SentReceipt && b.sends == db.sends && b.rows == db.rows
    ensures Attested(db.sends, db.reconciliations, call.key, pc.receipt.providerId)
  {
    ContactMeansEnabled(db, id);
    if call.key in db.receipts {
      StoredIsGenuine(db, call.key);
    }
    hide DbOk, Logged;
  }

  // ------------------------------------------------ overlap can go unanswered

  /** What an accepted, undisturbed call leaves behind for a fresh key. */
  function Delivered(call: Call, created: real, at: real): Operation {
    InitialContact(call, created).(state := Completed, attempt := 1, updatedAt := at,
                                   outcome := Some(DeliveryOutcome.Delivered))
  }

  ghost predicate Fresh(db: Db, call: Call) {
    && db.enabled && InitialOperation(InitialContact(call, 0.0))
    && call.key !in db.receipts && call.key !in db.requests
    && !HasKey(db.rows, Contact, call.key) && StableId(Contact, call.key, call.hash) !in db.rows
  }

  /** The last three steps: send, receipt, completion. */
  lemma SendSolo(db: Db, call: Call, id: OpId, started: Operation, done: Operation, envs: seq<Env>)
    requires |envs| == 3 && envs[0].reply.SendAccepted?
    requires id in db.rows && db.rows[id] == started
    requires Advance(started, MarkCompleted, envs[2].now) == Ok(done)
    ensures var receipt := Receipt(SentReceipt, envs[0].reply.providerId);
            Solo(db, Send(call, id), envs)
              == Outcome(db.(rows := db.rows[id := done],
                             receipts := db.receipts[call.key := receipt],
                             sends := db.sends + [SendRecord(call.key, envs[0].reply)]),
                         Returned(call, receipt))
  {
    hide Solo, Advance;
    var reply := envs[0].reply;
    var receipt := Receipt(SentReceipt, reply.providerId);
    var db1 := db.(sends := db.sends + [SendRecord(call.key, reply)]);
    var db2 := db1.(receipts := db.receipts[call.key := receipt]);
    var o3 := Outcome(db2.(rows := db.rows[id := done]), Returned(call, receipt));
    SoloThree(db, Send(call, id), envs, Outcome(db1, Sent(call, id, reply)),
              Outcome(db2, Complete(call, id, receipt)), o3);
    SoloRests(o3.db, o3.pc, envs[3..]);
  }

  /** Six steps from the freshly reserved row. */
  lemma BeginSolo(db: Db, call: Call, op: Operation, started: Operation, done: Operation, envs: seq<Env>)
    requires |envs| == 6 && envs[3].reply.SendAccepted?
    requires op.id in db.rows && db.rows[op.id] == op && op.state == Prepared && op.attempt == 0
    requires Advance(op, StartAttempt, envs[2].now) == Ok(started)
    requires Advance(started, MarkCompleted, envs[5].now) == Ok(done)
    ensures var receipt := Receipt(SentReceipt, envs[3].reply.providerId);
            Solo(db, Prepare(call, op), envs)
              == Outcome(db.(rows := db.rows[op.id := done],
                             receipts := db.receipts[call.key := receipt],
                             sends := db.sends + [SendRecord(call.key, envs[3].reply)]),
                         Returned(call, receipt))
  {
    hide Solo, Advance;
    var db3 := db.(rows := db.rows[op.id := started]);
    SoloThree(db, Prepare(call, op), envs, Outcome(db, BeginRead(call, op.id)),
              Outcome(db, BeginCommit(call, op.id)), Outcome(db3, Send(call, op.id)));
    SendSolo(db3, call, op.id, started, done, envs[3..]);
    assert db3.rows[op.id := done] == db.rows[op.id := done];
  }

  /** Nine undisturbed steps deliver a fresh contact the provider accepts. */
  lemma FreshSolo(db: Db, call: Call, envs: seq<Env>)
    requires Fresh(db, call) && |envs| == 9 && envs[6].reply.SendAccepted?
    ensures var id := StableId(Contact, call.key, call.hash);
            var receipt := Receipt(SentReceipt, envs[6].reply.providerId);
            Solo(db, Lookup(call), envs)
              == Outcome(db.(rows := db.rows[id := Delivered(call, envs[2].now, envs[8].now)],
                             requests := db.requests[call.key := call.hash],
                             receipts := db.receipts[call.key := receipt],
                             sends := db.sends + [SendRecord(call.key, envs[6].reply)]),
                         Returned(call, receipt))
  {
    var op := InitialContact(call, envs[2].now);
    var started := op.(state := InFlight, attempt := 1, updatedAt := envs[5].now);
    var db2 := db.(requests := db.requests[call.key := call.hash]);
    var db3 := db2.(rows := db.rows[op.id := op]);
    FreshCommits(call, envs[2].now, envs[5].now, envs[8].now);
    assert InitialOperation(op);
    hide Solo, Advance, ValidOperation;
    SoloThree(db, Lookup(call), envs, Outcome(db, ReserveRequest(call)),
              Outcome(db2, ReserveOperation(call)), Outcome(db3, Prepare(call, op)));
    BeginSolo(db3, call, op, started, Delivered(call, envs[2].now, envs[8].now), envs[3..]);
    assert db3.rows[op.id := Delivered(call, envs[2].now, envs[8].now)]
        == db.rows[op.id := Delivered(call, envs[2].now, envs[8].now)];
  }

  lemma FreshCommits(call: Call, created: real, begun: real, done: real)
    requires InitialOperation(InitialContact(call, 0.0))
    ensures var op := InitialContact(call, created);
            var started := op.(state := InFlight, attempt := 1, updatedAt := begun);
            && Advance(op, StartAttempt, begun) == Ok(started)
            && Advance(started, MarkCompleted, done) == Ok(Delivered(call, created, done))
  {
  }

  const HASH := seq(64, i => 'a')
  const CALL := Call("k", HASH)
  const ENV := Env(0.0, SendAccepted("m"), None, true)

  /** Worker 0 misses the cache, worker 1 delivers, worker 0 goes on. */
  function OverlappingRun(): seq<Event> {
    [Arrive(0, CALL), Arrive(1, CALL), Step(0, ENV)]
    + Steps(1, seq(9, i => ENV))
    + Steps(0, seq(3, i => ENV))
  }

  /**
    Without the no-overlap condition the promise fails: two calls for one key
    can leave the slower one with receipt-unavailable.
  */
  lemma OverlapGoesUnanswered()
    ensures At(Run(Init(true), OverlappingRun()), 0) == Raised(ReceiptUnavailable)
  {
    var envs1, envs0 := seq(9, i => ENV), seq(3, i => ENV);
    var head := [Arrive(0, CALL), Arrive(1, CALL), Step(0, ENV)];
    var s3 := Run(Init(true), head);
    OverlapHead(head);
    var s12 := Run(s3, Steps(1, envs1));
    FreshCall(s3.db);
    FreshSolo(s3.db, CALL, envs1);
    hide Run, Solo, Steps;
    RunSplits(Init(true), head, Steps(1, envs1));
    RunSplits(Init(true), head + Steps(1, envs1), Steps(0, envs0));
    SoloIsRun(s3, 1, envs1);
    SoloIsRun(s12, 0, envs0);
    LateCaller(s12.db, envs0);
  }

  lemma FreshCall(db: Db)
    requires db == Init(true).db
    ensures Fresh(db, CALL)
  {
    assert NonBlank("k") by { assert !IsSpace("k"[0]); }
  }

  lemma OverlapHead(es: seq<Event>)
    requires es == [Arrive(0, CALL), Arrive(1, CALL), Step(0, ENV)]
    ensures var s := Run(Init(true), es);
            && s.db == Init(true).db && At(s, 0) == ReserveRequest(CALL) && At(s, 1) == Lookup(CALL)
  {
    hide Apply;
    assert es[..2][..1] == es[..1] && es[..1][..0] == es[..0];
    assert Run(Init(true), es[..0]) == Init(true);
    var s1 := Run(Init(true), es[..1]);
    var s2 := Run(Init(true), es[..2]);
    assert s1 == Apply(Init(true), es[0]) && s2 == Apply(s1, es[1]);
    Arrives(Init(true), 0, CALL);
    Arrives(s1, 1, CALL);
    Misses(s2, 0, CALL, ENV);
  }

  lemma Arrives(s: State, w: nat, call: Call)
    requires Free(At(s, w))
    ensures var t := Apply(s, Arrive(w, call));
            t.db == s.db && At(t, w) == Lookup(call) && forall v | v != w :: At(t, v) == At(s, v)
  {
  }

  lemma Misses(s: State, w: nat, call: Call, env: Env)
    requires At(s, w) == Lookup(call) && call.key !in s.db.receipts
    ensures var t := Apply(s, Step(w, env));
            t.db == s.db && At(t, w) == ReserveRequest(call) && forall v | v != w :: At(t, v) == At(s, v)
  {
  }

  lemma LateCaller(db: Db, envs: seq<Env>)
    requires |envs| == 3 && db.enabled && db.reconciliations == map[]
    requires RequestedAs(db, CALL.key, CALL.hash)
    requires db.rows == map[StableId(Contact, CALL.key, CALL.hash) := Delivered(CALL, 0.0, 0.0)]
    ensures Solo(db, ReserveRequest(CALL), envs).pc == Raised(ReceiptUnavailable)
  {
    var op := Delivered(CALL, 0.0, 0.0);
    assert NonBlank("k") by { assert !IsSpace("k"[0]); }
    assert InitialOperation(InitialContact(CALL, envs[1].now));
    assert HasKey(db.rows, Contact, CALL.key) by { assert db.rows[op.id] == op; }
    assert db.requests[CALL.key := CALL.hash] == db.requests;
    hide Solo, ValidOperation;
    assert db.rows[op.id := op] == db.rows;
    SoloThree(db, ReserveRequest(CALL), envs, Outcome(db, ReserveOperation(CALL)),
              Outcome(db, Prepare(CALL, op)), Outcome(db, Raised(ReceiptUnavailable)));
    SoloRests(db, Raised(ReceiptUnavailable), envs[3..]);
  }
}
