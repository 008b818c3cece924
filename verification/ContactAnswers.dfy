/**
  What a lone call does with a key nobody has used: the whole answer, by the
  sender's reply and, when that leaves the outcome open, by the probe.
  (src/hermes_life_bridge/contact_service.py, contact_reconciliation.py)
*/
module ContactAnswers {
  import opened Basics
  import opened ReliabilityContract
  import opened OperationStore
  import opened ContactProtocol
  import opened ContactSafety
  import opened ContactTheorems

  /** No trace of the key in any table. */
  ghost predicate Unused(db: Db, call: Call) {
    Fresh(db, call) && call.key !in db.reconciliations
  }

  /** The row of a started send; everything else of it is decided by the outcome. */
  function SentRow(call: Call, created: real): Operation {
    InitialContact(call, created).(attempt := 1)
  }

  function UnknownRow(call: Call, created: real, at: real): Operation {
    SentRow(call, created).(state := DeliveryUnknown, updatedAt := at,
                            errorCode := Some("hermes_send_outcome_unknown"), outcome := Some(DeliveryOutcome.Unknown))
  }

  /** The answer to a call for an unused key; `env(k)` is what the call meets at its step `k`. */
  ghost predicate UnusedAnswer(a: Db, b: Db, call: Call, pc: Pc, env: nat -> Env) {
    var id := StableId(Contact, call.key, call.hash);
    var row := SentRow(call, env(2).now);
    && b.enabled == a.enabled && b.requests == a.requests[call.key := call.hash]
    && b.sends == a.sends + [SendRecord(call.key, env(6).reply)]
    && match env(6).reply
       case SendAccepted(providerId) =>
         var receipt := Receipt(SentReceipt, providerId);
         && pc == Returned(call, receipt)
         && b.receipts == a.receipts[call.key := receipt] && b.reconciliations == a.reconciliations
         && b.rows == a.rows[id := row.(state := Completed, updatedAt := env(8).now, outcome := Some(Delivered))]
       case SendFailedSafe =>
         && pc == Raised(FreshDecisionRequired)
         && b.receipts == a.receipts && b.reconciliations == a.reconciliations
         && b.rows == a.rows[id := row.(state := FailedSafe, updatedAt := env(7).now,
                                        errorCode := Some("hermes_send_failed_safe"), outcome := Some(NotDelivered))]
       case SendUnknown =>
         ProbedAnswer(a, b, call, UnknownRow(call, env(2).now, env(7).now), pc, env(11).probe, env(12).canonical, env(13).now)
  }

  /** What the probe makes of a contact whose outcome is unknown and nowhere on record. */
  ghost predicate ProbedAnswer(a: Db, b: Db, call: Call, unknown: Operation, pc: Pc, probe: Option<Evidence>,
                               canonical: bool, at: real) {
    if probe.None? || (ValidEvidence(probe.value) && probe.value.outcome == ProvesNothing) then
      && pc == Raised(StillUnknown) && b.rows == a.rows[unknown.id := unknown]
      && b.receipts == a.receipts && b.reconciliations == a.reconciliations
    else if !ValidEvidence(probe.value) || !canonical then
      && pc == Raised(StoreRefused(InvalidValue)) && b.rows == a.rows[unknown.id := unknown]
      && b.receipts == a.receipts && b.reconciliations == a.reconciliations
    else if probe.value.outcome == ProvesDelivery then
      var receipt := Receipt(SentReceipt, probe.value.providerId);
      && pc == Returned(call, receipt)
      && b.receipts == a.receipts[call.key := receipt] && b.reconciliations == a.reconciliations[call.key := probe.value]
      && b.rows == a.rows[unknown.id := unknown.(state := Completed, updatedAt := at, errorCode := None,
                                                 outcome := Some(Delivered))]
    else
      && pc == Raised(FreshDecisionRequired)
      && b.receipts == a.receipts && b.reconciliations == a.reconciliations[call.key := probe.value]
      && b.rows == a.rows[unknown.id := unknown.(state := FailedSafe, updatedAt := at,
                                                 errorCode := Some("reconciled_authoritative_non_delivery"),
                                                 outcome := Some(NotDelivered))]
  }

  // ---------------------------------------------------------------- the proof

  function Part(env: nat -> Env, from: nat, to: nat): (envs: seq<Env>)
    requires from <= to
    ensures |envs| == to - from && forall i | 0 <= i < |envs| :: envs[i] == env(from + i)
  {
    seq(to - from, i requires 0 <= i < to - from => env(from + i))
  }

  lemma PartSplits(env: nat -> Env, from: nat, mid: nat, to: nat)
    requires from <= mid <= to
    ensures Part(env, from, to) == Part(env, from, mid) + Part(env, mid, to)
    ensures from < to ==> Part(env, from, to)[1..] == Part(env, from + 1, to) && Part(env, from, to)[0] == env(from)
  {
    assert from < to ==> Part(env, from, to)[1..] == Part(env, from + 1, to);
  }

  /** One more step of the lone worker. */
  lemma {:induction false} OneStep(db: Db, pc: Pc, env: nat -> Env, k: nat, n: nat, o: Outcome)
    requires k < n && Perform(db, pc, env(k)) == o
    ensures Solo(db, pc, Part(env, k, n)) == Solo(o.db, o.pc, Part(env, k + 1, n))
  {
    hide Perform, Solo;
    PartSplits(env, k, k, n);
    SoloFirst(db, pc, Part(env, k, n));
  }

  /** Two and three at once. */
  lemma {:induction false} ThreeSteps(db: Db, pc: Pc, env: nat -> Env, k: nat, n: nat, o1: Outcome, o2: Outcome, o3: Outcome)
    requires k + 3 <= n
    requires Perform(db, pc, env(k)) == o1 && Perform(o1.db, o1.pc, env(k + 1)) == o2 && Perform(o2.db, o2.pc, env(k + 2)) == o3
    ensures Solo(db, pc, Part(env, k, n)) == Solo(o3.db, o3.pc, Part(env, k + 3, n))
  {
    hide Perform, Solo;
    OneStep(db, pc, env, k, n, o1);
    OneStep(o1.db, o1.pc, env, k + 1, n, o2);
    OneStep(o2.db, o2.pc, env, k + 2, n, o3);
  }

  /** The tables when the sender has replied. */
  function SentDb(db: Db, call: Call, created: real, begun: real, reply: SendOutcome): Db {
    var id := StableId(Contact, call.key, call.hash);
    db.(rows := db.rows[id := SentRow(call, created).(state := InFlight, updatedAt := begun)],
        requests := db.requests[call.key := call.hash],
        sends := db.sends + [SendRecord(call.key, reply)])
  }

  /** Three steps reserve the row ... */
  lemma {:induction false} ReservesSolo(db: Db, call: Call, env: nat -> Env, n: nat)
    requires Fresh(db, call) && n >= 3
    ensures var op := InitialContact(call, env(2).now);
            Solo(db, Lookup(call), Part(env, 0, n))
              == Solo(db.(rows := db.rows[op.id := op], requests := db.requests[call.key := call.hash]),
                      Prepare(call, op), Part(env, 3, n))
  {
    var op := InitialContact(call, env(2).now);
    var db2 := db.(requests := db.requests[call.key := call.hash]);
    assert InitialOperation(op);
    hide Solo, ValidOperation, Part;
    ThreeSteps(db, Lookup(call), env, 0, n, Outcome(db, ReserveRequest(call)),
               Outcome(db2, ReserveOperation(call)), Outcome(db2.(rows := db.rows[op.id := op]), Prepare(call, op)));
  }

  /** ... and four more go through the send. */
  lemma {:induction false} SendsSolo(db: Db, call: Call, env: nat -> Env, n: nat)
    requires Fresh(db, call) && n >= 7
    ensures var sent := SentDb(db, call, env(2).now, env(5).now, env(6).reply);
            Solo(db, Lookup(call), Part(env, 0, n))
              == Solo(sent, Sent(call, StableId(Contact, call.key, call.hash), env(6).reply), Part(env, 7, n))
  {
    var op := InitialContact(call, env(2).now);
    var started := op.(state := InFlight, attempt := 1, updatedAt := env(5).now);
    var db3 := db.(rows := db.rows[op.id := op], requests := db.requests[call.key := call.hash]);
    var db6 := db3.(rows := db3.rows[op.id := started]);
    FreshCommits(call, env(2).now, env(5).now, 0.0);
    hide Solo, Advance, ValidOperation, Part, Fresh;
    ReservesSolo(db, call, env, n);
    ThreeSteps(db3, Prepare(call, op), env, 3, n, Outcome(db3, BeginRead(call, op.id)),
               Outcome(db3, BeginCommit(call, op.id)), Outcome(db6, Send(call, op.id)));
    assert db6.rows == db.rows[op.id := started];
    var sent := SentDb(db, call, env(2).now, env(5).now, env(6).reply);
    OneStep(db6, Send(call, op.id), env, 6, n, Outcome(sent, Sent(call, op.id, env(6).reply)));
  }

  /** What the commands make of the started row. */
  lemma SentCommits(call: Call, created: real, begun: real, at: real, later: real)
    requires InitialOperation(InitialContact(call, 0.0))
    ensures var row := SentRow(call, created);
            var started := row.(state := InFlight, updatedAt := begun);
            var unknown := UnknownRow(call, created, at);
            && Advance(started, MarkCompleted, at) == Ok(row.(state := Completed, updatedAt := at, outcome := Some(Delivered)))
            && Advance(started, MarkFailedSafe(Some("hermes_send_failed_safe")), at)
                 == Ok(row.(state := FailedSafe, updatedAt := at, errorCode := Some("hermes_send_failed_safe"),
                            outcome := Some(NotDelivered)))
            && Advance(started, MarkDeliveryUnknown(Some("hermes_send_outcome_unknown")), at) == Ok(unknown)
            && Advance(unknown, MarkCompleted, later)
                 == Ok(unknown.(state := Completed, updatedAt := later, errorCode := None, outcome := Some(Delivered)))
            && Advance(unknown, MarkFailedSafe(Some("reconciled_authoritative_non_delivery")), later)
                 == Ok(unknown.(state := FailedSafe, updatedAt := later,
                                errorCode := Some("reconciled_authoritative_non_delivery"), outcome := Some(NotDelivered)))
  {
  }

  /** One command on a row that takes it. */
  lemma CommitStep(db: Db, id: OpId, cmd: Command, now: real, next: Pc, row: Operation)
    requires id in db.rows && Advance(db.rows[id], cmd, now) == Ok(row)
    ensures Commit(db, id, cmd, now, next) == Outcome(db.(rows := db.rows[id := row]), next)
  {
    hide Advance;
  }

  /** The provider took the message: the receipt, then the completion. */
  lemma {:induction false} KeepsSolo(db: Db, call: Call, env: nat -> Env, id: OpId, providerId: string, done: Operation)
    requires id in db.rows && Advance(db.rows[id], MarkCompleted, env(8).now) == Ok(done)
    ensures var receipt := Receipt(SentReceipt, providerId);
            Solo(db, Sent(call, id, SendAccepted(providerId)), Part(env, 7, 15))
              == Outcome(db.(rows := db.rows[id := done], receipts := db.receipts[call.key := receipt]), Returned(call, receipt))
  {
    hide Solo, Advance, Part, Commit;
    var receipt := Receipt(SentReceipt, providerId);
    var kept := db.(receipts := db.receipts[call.key := receipt]);
    var after := kept.(rows := db.rows[id := done]);
    OneStep(db, Sent(call, id, SendAccepted(providerId)), env, 7, 15, Outcome(kept, Complete(call, id, receipt)));
    CommitStep(kept, id, MarkCompleted, env(8).now, Returned(call, receipt), done);
    OneStep(kept, Complete(call, id, receipt), env, 8, 15, Outcome(after, Returned(call, receipt)));
    SoloRests(after, Returned(call, receipt), Part(env, 9, 15));
  }

  lemma {:induction false} AcceptedSolo(db: Db, call: Call, env: nat -> Env, providerId: string)
    requires Fresh(db, call) && env(6).reply == SendAccepted(providerId)
    ensures var o := Solo(db, Lookup(call), Part(env, 0, 15)); Free(o.pc) && UnusedAnswer(db, o.db, call, o.pc, env)
  {
    var id := StableId(Contact, call.key, call.hash);
    var sent := SentDb(db, call, env(2).now, env(5).now, env(6).reply);
    var done := SentRow(call, env(2).now).(state := Completed, updatedAt := env(8).now, outcome := Some(Delivered));
    SentCommits(call, env(2).now, env(5).now, env(8).now, 0.0);
    SendsSolo(db, call, env, 15);
    SentTables(db, call, env(2).now, env(5).now, env(6).reply, done);
    hide Solo, Advance, ValidOperation, Part, Fresh, InitialOperation, SentRow, SentDb;
    KeepsSolo(sent, call, env, id, providerId, done);
  }

  /** The sender proved that nothing was sent. */
  lemma {:induction false} FailsSolo(db: Db, call: Call, env: nat -> Env, id: OpId, failed: Operation)
    requires id in db.rows && Advance(db.rows[id], MarkFailedSafe(Some("hermes_send_failed_safe")), env(7).now) == Ok(failed)
    ensures Solo(db, Sent(call, id, SendFailedSafe), Part(env, 7, 15))
         == Outcome(db.(rows := db.rows[id := failed]), Raised(FreshDecisionRequired))
  {
    hide Solo, Advance, Part, Commit;
    var after := db.(rows := db.rows[id := failed]);
    CommitStep(db, id, MarkFailedSafe(Some("hermes_send_failed_safe")), env(7).now, Raised(FreshDecisionRequired), failed);
    OneStep(db, Sent(call, id, SendFailedSafe), env, 7, 15, Outcome(after, Raised(FreshDecisionRequired)));
    SoloRests(after, Raised(FreshDecisionRequired), Part(env, 8, 15));
  }

  lemma {:induction false} NotSentSolo(db: Db, call: Call, env: nat -> Env)
    requires Fresh(db, call) && env(6).reply == SendFailedSafe
    ensures var o := Solo(db, Lookup(call), Part(env, 0, 15)); Free(o.pc) && UnusedAnswer(db, o.db, call, o.pc, env)
  {
    var id := StableId(Contact, call.key, call.hash);
    var sent := SentDb(db, call, env(2).now, env(5).now, env(6).reply);
    var failed := SentRow(call, env(2).now).(state := FailedSafe, updatedAt := env(7).now,
                                             errorCode := Some("hermes_send_failed_safe"), outcome := Some(NotDelivered));
    SentCommits(call, env(2).now, env(5).now, env(7).now, 0.0);
    SendsSolo(db, call, env, 15);
    SentTables(db, call, env(2).now, env(5).now, env(6).reply, failed);
    hide Solo, Advance, ValidOperation, Part, Fresh, InitialOperation, SentRow, SentDb;
    FailsSolo(sent, call, env, id, failed);
  }

  /** The sender cannot tell; four reads later the probe is asked. */
  lemma {:induction false} AsksSolo(db: Db, call: Call, env: nat -> Env, id: OpId, unknown: Operation)
    requires id in db.rows && Advance(db.rows[id], MarkDeliveryUnknown(Some("hermes_send_outcome_unknown")), env(7).now) == Ok(unknown)
    requires unknown.state == DeliveryUnknown && unknown.kind == Contact && unknown.id == id && unknown.key == call.key
    requires call.key !in db.receipts && call.key !in db.reconciliations
    ensures Solo(db, Sent(call, id, SendUnknown), Part(env, 7, 15))
         == Solo(db.(rows := db.rows[id := unknown]), Probe(Some(call), unknown), Part(env, 11, 15))
  {
    hide Solo, Advance, Part, Commit;
    var asked := db.(rows := db.rows[id := unknown]);
    CommitStep(db, id, MarkDeliveryUnknown(Some("hermes_send_outcome_unknown")), env(7).now, Reconcile(Some(call), id), unknown);
    OneStep(db, Sent(call, id, SendUnknown), env, 7, 15, Outcome(asked, Reconcile(Some(call), id)));
    ThreeSteps(asked, Reconcile(Some(call), id), env, 8, 15, Outcome(asked, ReadReceipt(Some(call), unknown)),
               Outcome(asked, ReadReconciliation(Some(call), unknown)), Outcome(asked, Probe(Some(call), unknown)));
  }

  /** What comes of asking it. */
  lemma {:induction false} ProbesSolo(db: Db, call: Call, env: nat -> Env, unknown: Operation)
    requires unknown.id in db.rows && db.rows[unknown.id] == unknown && unknown.key == call.key
    requires call.key !in db.reconciliations && Settles(unknown, env(13).now)
    ensures var o := Solo(db, Probe(Some(call), unknown), Part(env, 11, 15));
            && Free(o.pc) && o.db == db.(rows := o.db.rows, receipts := o.db.receipts, reconciliations := o.db.reconciliations)
            && ProbedAnswer(db, o.db, call, unknown, o.pc, env(11).probe, env(12).canonical, env(13).now)
  {
    var probe := env(11).probe;
    hide Solo, Part, ValidEvidence, Settles;
    assert db.rows[unknown.id := unknown] == db.rows;
    var next := ProbeNext(Some(call), unknown, probe);
    OneStep(db, Probe(Some(call), unknown), env, 11, 15, Outcome(db, next));
    if next.Raised? {
      SoloRests(db, next, Part(env, 12, 15));
    } else if !env(12).canonical {
      OneStep(db, next, env, 12, 15, Outcome(db, Raised(StoreRefused(InvalidValue))));
      SoloRests(db, Raised(StoreRefused(InvalidValue)), Part(env, 13, 15));
    } else {
      SettlesSolo(db, call, env, unknown, probe.value);
    }
  }

  /** An unknown contact takes either settlement. */
  ghost predicate Settles(unknown: Operation, at: real) {
    && Advance(unknown, MarkCompleted, at)
         == Ok(unknown.(state := Completed, updatedAt := at, errorCode := None, outcome := Some(Delivered)))
    && Advance(unknown, MarkFailedSafe(Some("reconciled_authoritative_non_delivery")), at)
         == Ok(unknown.(state := FailedSafe, updatedAt := at,
                        errorCode := Some("reconciled_authoritative_non_delivery"), outcome := Some(NotDelivered)))
  }

  lemma {:induction false} UnknownSolo(db: Db, call: Call, env: nat -> Env)
    requires Unused(db, call) && env(6).reply == SendUnknown
    ensures var o := Solo(db, Lookup(call), Part(env, 0, 15)); Free(o.pc) && UnusedAnswer(db, o.db, call, o.pc, env)
  {
    var id := StableId(Contact, call.key, call.hash);
    var sent := SentDb(db, call, env(2).now, env(5).now, SendUnknown);
    var unknown := UnknownRow(call, env(2).now, env(7).now);
    var asked := sent.(rows := sent.rows[id := unknown]);
    SentCommits(call, env(2).now, env(5).now, env(7).now, env(13).now);
    SendsSolo(db, call, env, 15);
    SentTables(db, call, env(2).now, env(5).now, SendUnknown, unknown);
    hide Solo, Advance, ValidOperation, Part, Fresh, InitialOperation, ValidEvidence;
    assert Settles(unknown, env(13).now);
    hide Settles, SentRow, SentDb;
    AsksSolo(sent, call, env, id, unknown);
    ProbesSolo(asked, call, env, unknown);
    var o := Solo(asked, Probe(Some(call), unknown), Part(env, 11, 15));
    ProbedFrom(db, asked, o.db, call, unknown, o.pc, env(11).probe, env(12).canonical, env(13).now);
    hide ProbedAnswer, UnknownRow;
  }

  lemma SentTables(db: Db, call: Call, created: real, begun: real, reply: SendOutcome, row: Operation)
    ensures var id := StableId(Contact, call.key, call.hash);
            var sent := SentDb(db, call, created, begun, reply);
            && id in sent.rows && sent.rows[id] == SentRow(call, created).(state := InFlight, updatedAt := begun)
            && sent.rows[id := row] == db.rows[id := row] && sent.enabled == db.enabled
            && sent.receipts == db.receipts && sent.reconciliations == db.reconciliations
            && sent.requests == db.requests[call.key := call.hash] && sent.sends == db.sends + [SendRecord(call.key, reply)]
  {
  }

  lemma OverWritten(rows: Rows, unknown: Operation, row: Operation)
    ensures rows[unknown.id := unknown][unknown.id := row] == rows[unknown.id := row]
  {
  }

  /** The answer speaks of the tables as they were before the row was started. */
  lemma ProbedFrom(a: Db, asked: Db, b: Db, call: Call, unknown: Operation, pc: Pc, probe: Option<Evidence>,
                   canonical: bool, at: real)
    requires asked.rows == a.rows[unknown.id := unknown]
    requires asked.receipts == a.receipts && asked.reconciliations == a.reconciliations
    requires ProbedAnswer(asked, b, call, unknown, pc, probe, canonical, at)
    ensures ProbedAnswer(a, b, call, unknown, pc, probe, canonical, at)
  {
    hide ValidEvidence;
    OverWritten(a.rows, unknown, unknown);
    OverWritten(a.rows, unknown, unknown.(state := Completed, updatedAt := at, errorCode := None, outcome := Some(Delivered)));
    OverWritten(a.rows, unknown, unknown.(state := FailedSafe, updatedAt := at,
                                          errorCode := Some("reconciled_authoritative_non_delivery"),
                                          outcome := Some(NotDelivered)));
  }

  /** A conclusive probe is recorded, and settles the contact. */
  lemma {:induction false} SettlesSolo(db: Db, call: Call, env: nat -> Env, unknown: Operation, e: Evidence)
    requires unknown.id in db.rows && db.rows[unknown.id] == unknown && unknown.key == call.key
    requires e.outcome != ProvesNothing && env(12).canonical && unknown.key !in db.reconciliations
    requires Settles(unknown, env(13).now)
    requires ValidEvidence(e)
    ensures var o := Solo(db, SaveReconciliation(Some(call), unknown, e), Part(env, 12, 15));
            && Free(o.pc) && o.db == db.(rows := o.db.rows, receipts := o.db.receipts, reconciliations := o.db.reconciliations)
            && ProbedAnswer(db, o.db, call, unknown, o.pc, Some(e), true, env(13).now)
  {
    hide Solo, Advance, Part, ValidEvidence, Commit;
    var saved := db.(reconciliations := db.reconciliations[call.key := e]);
    OneStep(db, SaveReconciliation(Some(call), unknown, e), env, 12, 15, Outcome(saved, Resolve(Some(call), unknown, e)));
    if e.outcome == ProvesDelivery {
      var row := unknown.(state := Completed, updatedAt := env(13).now, errorCode := None, outcome := Some(Delivered));
      var db14 := saved.(rows := db.rows[unknown.id := row]);
      var receipt := Receipt(SentReceipt, e.providerId);
      var db15 := db14.(receipts := db.receipts[call.key := receipt]);
      CommitStep(saved, unknown.id, MarkCompleted, env(13).now, Rebuild(call, e.providerId), row);
      OneStep(saved, Resolve(Some(call), unknown, e), env, 13, 15, Outcome(db14, Rebuild(call, e.providerId)));
      OneStep(db14, Rebuild(call, e.providerId), env, 14, 15, Outcome(db15, Returned(call, receipt)));
      SoloRests(db15, Returned(call, receipt), Part(env, 15, 15));
    } else {
      var row := unknown.(state := FailedSafe, updatedAt := env(13).now,
                          errorCode := Some("reconciled_authoritative_non_delivery"), outcome := Some(NotDelivered));
      var db14 := saved.(rows := db.rows[unknown.id := row]);
      CommitStep(saved, unknown.id, MarkFailedSafe(Some("reconciled_authoritative_non_delivery")), env(13).now,
                 Raised(FreshDecisionRequired), row);
      OneStep(saved, Resolve(Some(call), unknown, e), env, 13, 15, Outcome(db14, Raised(FreshDecisionRequired)));
      SoloRests(db14, Raised(FreshDecisionRequired), Part(env, 14, 15));
    }
  }

  /** The whole answer, whatever the sender and the probe say. */
  lemma {:induction false} UnusedSolo(db: Db, call: Call, env: nat -> Env)
    requires Unused(db, call)
    ensures var o := Solo(db, Lookup(call), Part(env, 0, 15)); Free(o.pc) && UnusedAnswer(db, o.db, call, o.pc, env)
  {
    hide Solo, Part, Fresh, UnusedAnswer;
    match env(6).reply
    case SendAccepted(providerId) => AcceptedSolo(db, call, env, providerId);
    case SendFailedSafe => NotSentSolo(db, call, env);
    case SendUnknown => UnknownSolo(db, call, env);
  }
}
