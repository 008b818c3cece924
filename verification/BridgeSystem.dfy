/**
  All services at once on one operation table: contact, percept and cognition
  workers interleave freely, and every service keeps the promises it keeps
  alone.
*/
module BridgeSystem {
  import opened Basics
  import opened ReliabilityContract
  import opened OperationStore
  import C = ContactProtocol
  import CS = ContactSafety
  import P = PerceptProtocol
  import PS = PerceptSafety
  import G = CognitionProtocol
  import GS = CognitionSafety

  datatype State = State(contact: C.State, percept: P.State, cognition: G.State)

  datatype Event =
    | OnContact(contact: C.Event)
    | OnPercept(percept: P.Event)
    | OnCognition(cognition: G.Event)

  /** The three services see the same operation table. */
  function WithRows(s: State, rows: Rows): State {
    State(s.contact.(db := s.contact.db.(rows := rows)), s.percept.(db := s.percept.db.(rows := rows)),
          s.cognition.(db := s.cognition.db.(rows := rows)))
  }

  ghost function Apply(s: State, e: Event): State {
    match e
    case OnContact(f) =>
      var t := C.Apply(s.contact, f);
      WithRows(s.(contact := t), t.db.rows)
    case OnPercept(f) =>
      var t := P.Apply(s.percept, f);
      WithRows(s.(percept := t), t.db.rows)
    case OnCognition(f) =>
      var t := G.Apply(s.cognition, f);
      WithRows(s.(cognition := t), t.db.rows)
  }

  ghost function Run(s: State, es: seq<Event>): State {
    if es == [] then s else Apply(Run(s, es[..|es| - 1]), es[|es| - 1])
  }

  function Init(enabled: bool, percept: RetryPolicy, cognition: RetryPolicy): State {
    State(C.Init(enabled), P.Init(percept), G.Init(cognition))
  }

  // --------------------------------------------------- each step's own rows

  /** The table changes in rows of one class only. */
  ghost predicate Only(kind: RetryClass, a: Rows, b: Rows) {
    && (forall id | id in a && a[id].kind != kind :: id in b && b[id] == a[id])
    && (forall id | id in b && b[id].kind != kind :: id in a && a[id] == b[id])
  }

  ghost predicate Clean(kind: RetryClass, a: Rows, b: Rows) {
    Only(kind, a, b) && NamedRows(b)
  }

  lemma TransactIsClean(rows: Rows, id: OpId, cmd: Command, now: real, kind: RetryClass)
    requires NamedRows(rows) && (id in rows ==> rows[id].kind == kind)
    ensures Clean(kind, rows, After(rows, id, Transact(rows, id, cmd, now)))
  {
  }

  lemma OwnIsClean(rows: Rows, id: OpId, cmd: Command, now: real, kind: RetryClass)
    requires NamedRows(rows) && id.kind == kind
    ensures Clean(kind, rows, After(rows, id, Transact(rows, id, cmd, now)))
  {
    hide Clean, Transact;
    TransactIsClean(rows, id, cmd, now, kind);
  }

  lemma ReserveIsClean(rows: Rows, op: Operation)
    requires ValidRows(rows) && NamedRows(rows)
    requires op.id == StableId(op.kind, op.key, op.requestHash)
    ensures Clean(op.kind, rows, AfterReserve(rows, op))
  {
    ReserveKeepsRows(rows, op);
    hide ValidRows, HasKey;
  }

  lemma ContactStepIsClean(db: C.Db, pc: C.Pc, env: C.Env)
    requires CS.DbOk(db) && CS.Knows(db, pc) && NamedRows(db.rows)
    ensures Clean(Contact, db.rows, C.Perform(db, pc, env).db.rows)
  {
    ContactRows(db);
    hide CS.DbOk, Transact, Clean, AfterReserve, Reserved, ValidRows, NamedRows, C.Commit, C.SentStep, C.ResolveStep,
         C.CompleteStep, C.ValidEvidence, CS.Durable, CS.Logged;
    SameIsClean(Contact, db.rows);
    match pc
    case ReserveOperation(call) => ReserveIsClean(db.rows, C.InitialContact(call, env.now));
    case BeginCommit(call, id) => CommitIsClean(db, id, StartAttempt, env.now, C.Send(call, id));
    case Sent(call, id, reply) => SentIsClean(db, call, id, reply, env.now);
    case Complete(call, id, receipt) => CompleteIsClean(db, call, id, receipt, env.now);
    case Resolve(from, op, e) => ResolveIsClean(db, from, op, e, env.now);
    case _ =>
  }

  lemma CommitIsClean(db: C.Db, id: OpId, cmd: Command, now: real, next: C.Pc)
    requires NamedRows(db.rows) && CS.IsContact(db.rows, id)
    ensures Clean(Contact, db.rows, C.Commit(db, id, cmd, now, next).db.rows)
  {
    hide Transact, Clean, NamedRows;
    TransactIsClean(db.rows, id, cmd, now, Contact);
  }

  lemma SentIsClean(db: C.Db, call: C.Call, id: OpId, reply: C.SendOutcome, now: real)
    requires NamedRows(db.rows) && CS.IsContact(db.rows, id)
    ensures Clean(Contact, db.rows, C.SentStep(db, call, id, reply, now).db.rows)
  {
    hide Transact, Clean, NamedRows;
    SameIsClean(Contact, db.rows);
    TransactIsClean(db.rows, id, MarkFailedSafe(Some("hermes_send_failed_safe")), now, Contact);
    TransactIsClean(db.rows, id, MarkDeliveryUnknown(Some("hermes_send_outcome_unknown")), now, Contact);
  }

  lemma CompleteIsClean(db: C.Db, call: C.Call, id: OpId, receipt: C.Receipt, now: real)
    requires NamedRows(db.rows) && CS.IsContact(db.rows, id)
    ensures Clean(Contact, db.rows, C.CompleteStep(db, call, id, receipt, now).db.rows)
  {
    hide Transact, Clean, NamedRows;
    SameIsClean(Contact, db.rows);
    TransactIsClean(db.rows, id, MarkCompleted, now, Contact);
  }

  lemma ResolveIsClean(db: C.Db, from: Option<C.Call>, op: Operation, e: C.Evidence, now: real)
    requires NamedRows(db.rows) && CS.IsContact(db.rows, op.id)
    ensures Clean(Contact, db.rows, C.ResolveStep(db, from, op, e, now).db.rows)
  {
    hide Transact, Clean, NamedRows;
    SameIsClean(Contact, db.rows);
    TransactIsClean(db.rows, op.id, MarkCompleted, now, Contact);
    TransactIsClean(db.rows, op.id, MarkFailedSafe(Some("reconciled_authoritative_non_delivery")), now, Contact);
  }

  lemma SameIsClean(kind: RetryClass, rows: Rows)
    requires NamedRows(rows)
    ensures Clean(kind, rows, rows)
  {
  }

  lemma ContactRows(db: C.Db)
    requires CS.DbOk(db)
    ensures ValidRows(db.rows)
  {
  }

  lemma ContactIsClean(s: C.State, e: C.Event)
    requires CS.Inv(s) && NamedRows(s.db.rows)
    ensures Clean(Contact, s.db.rows, C.Apply(s, e).db.rows)
  {
    SameIsClean(Contact, s.db.rows);
    if e.Step? {
      CS.IdleKnows(s, e.w);
      ContactStepIsClean(s.db, C.At(s, e.w), e.env);
    } else if e.Sweep? {
      SweepIsClean(s.db.rows, e.now);
    }
    hide C.Perform, Clean, CS.Inv;
  }

  lemma SweepIsClean(rows: Rows, at: real)
    requires NamedRows(rows)
    ensures Clean(Contact, rows, Swept(rows, at))
  {
  }

  lemma PerceptStepIsClean(db: P.Db, pc: P.Pc, env: P.Env)
    requires PS.DbOk(db) && PS.Knows(db, pc)
    ensures Clean(Percept, db.rows, P.Perform(db, pc, env).db.rows)
  {
    PS.NamesOf(db);
    hide PS.DbOk, Transact, Clean, AfterReserve, ReservedPercept, OutboxAfterReserve, ValidRows, NamedRows,
         PS.Finished, PS.Faithful, PS.OutOfAttempts;
    SameIsClean(Percept, db.rows);
    match pc
    case Reserve(event, hash) => ReserveIsClean(db.rows, P.InitialPercept(event, hash, env.now));
    case Release(id, thenBegin) => OwnIsClean(db.rows, id, MakeRetryReady, env.now, Percept);
    case BeginCommit(id) => OwnIsClean(db.rows, id, StartAttempt, env.now, Percept);
    case Complete(id) => OwnIsClean(db.rows, id, MarkCompleted, env.now, Percept);
    case FailCommit(id, code) => OwnIsClean(db.rows, id, MarkFailedSafe(Some(code)), env.now, Percept);
    case ScheduleCommit(id, at) => OwnIsClean(db.rows, id, ScheduleRetry(at), env.now, Percept);
    case ExhaustCommit(id) => OwnIsClean(db.rows, id, MarkExhausted, env.now, Percept);
    case _ =>
  }

  lemma PurgeIsClean(rows: Rows, gone: set<OpId>, kind: RetryClass)
    requires NamedRows(rows) && forall id | id in gone :: id.kind == kind
    ensures Clean(kind, rows, rows - gone)
  {
  }

  lemma PerceptIsClean(s: P.State, e: P.Event)
    requires PS.Inv(s)
    ensures Clean(Percept, s.db.rows, P.Apply(s, e).db.rows)
  {
    PS.NamesOf(s.db);
    SameIsClean(Percept, s.db.rows);
    if e.Step? {
      PS.IdleKnows(s, e.w);
      PerceptStepIsClean(s.db, P.At(s, e.w), e.env);
    } else if e.PurgeDelete? {
      assert forall id | id in s.db.doomed :: id.kind == Percept;
      PurgeIsClean(s.db.rows, e.ids * s.db.doomed, Percept);
    }
    hide P.Perform, Clean, PS.Inv;
  }

  /** A cognition commit, whether a conflict is tolerated or not. */
  lemma CognitionCommitIsClean(db: G.Db, id: OpId, cmd: Command, now: real, next: G.Pc, otherwise: G.Pc)
    requires NamedRows(db.rows) && id.kind == Cognition
    ensures Clean(Cognition, db.rows, G.Commit(db, id, cmd, now, next).db.rows)
    ensures Clean(Cognition, db.rows, G.Tolerate(G.Commit(db, id, cmd, now, next), otherwise).db.rows)
  {
    hide Transact, Clean, NamedRows;
    OwnIsClean(db.rows, id, cmd, now, Cognition);
  }

  lemma ReadyIsClean(db: G.Db, task: G.Task, id: OpId, now: real)
    requires NamedRows(db.rows) && id.kind == Cognition
    ensures Clean(Cognition, db.rows, G.ReadyStep(db, task, id, now).db.rows)
  {
    hide Transact, Clean, NamedRows;
    OwnIsClean(db.rows, id, MakeRetryReady, now, Cognition);
  }

  /** The row a cognition worker is about to commit to. */
  function Target(pc: G.Pc): Option<OpId> {
    match pc
    case AcceptCommit(id, _) => Some(id)
    case ScheduleCommit(id, _, _) => Some(id)
    case ExhaustCommit(id, _) => Some(id)
    case SweepCommit(_, _, other) => Some(other)
    case BeginCommit(_, id) => Some(id)
    case FailCommit(_, id) => Some(id)
    case ReadyCommit(_, id) => Some(id)
    case Complete(_, id, _) => Some(id)
    case RecoverFail(id) => Some(id)
    case _ => None
  }

  lemma KnowsTarget(db: G.Db, pc: G.Pc, owner: GS.Owner)
    requires GS.Knows(db, pc, owner)
    ensures Target(pc).Some? ==> Target(pc).value.kind == Cognition
  {
  }

  lemma CognitionStepIsClean(db: G.Db, pc: G.Pc, env: G.Env, owner: GS.Owner)
    requires GS.DbOk(db, owner) && GS.Knows(db, pc, owner)
    ensures Clean(Cognition, db.rows, G.Perform(db, pc, env).db.rows)
  {
    GS.NamesOf(db, owner);
    KnowsTarget(db, pc, owner);
    hide GS.DbOk, GS.Knows, Clean, AfterReserve, Reserved, ValidRows, NamedRows, GS.OutOfAttempts, GS.Reading,
         G.Commit, G.Tolerate, G.ReadyStep, G.RefreshNext, G.ScheduleNext, G.ReconcileNext, G.RereadNext,
         G.BeginNext, G.HasReceipt;
    SameIsClean(Cognition, db.rows);
    match pc
    case BeginCommit(_, _) | FailCommit(_, _) | ReadyCommit(_, _) | Complete(_, _, _) =>
      CognitionAttemptIsClean(db, pc, env, owner);
    case Reserve(task) => ReserveIsClean(db.rows, G.InitialCognition(task, env.now));
    case AcceptCommit(id, who) =>
      CognitionCommitIsClean(db, id, MarkCompleted, env.now, G.AcceptedNext(who), G.AcceptedNext(who));
    case ScheduleCommit(id, at, who) =>
      CognitionCommitIsClean(db, id, ScheduleRetry(at), env.now, G.ScheduledNext(who, id), G.Idle);
    case ExhaustCommit(id, who) =>
      CognitionCommitIsClean(db, id, MarkExhausted, env.now, if who.InRecovery? then G.Idle else G.Raised(G.RetryExhausted), G.Idle);
    case SweepCommit(task, id, other) =>
      CognitionCommitIsClean(db, other, MakeRetryReady, env.now, G.Sweep(task, id), G.Sweep(task, id));
    case RecoverFail(id) =>
      CognitionCommitIsClean(db, id, MarkFailedSafe(Some(G.NO_RECEIPT)), env.now, G.Schedule(id, G.InRecovery), G.Idle);
    case _ =>
  }

  lemma CognitionAttemptIsClean(db: G.Db, pc: G.Pc, env: G.Env, owner: GS.Owner)
    requires GS.DbOk(db, owner) && GS.Knows(db, pc, owner)
    requires pc.BeginCommit? || pc.FailCommit? || pc.ReadyCommit? || pc.Complete?
    ensures Clean(Cognition, db.rows, G.Perform(db, pc, env).db.rows)
  {
    GS.NamesOf(db, owner);
    KnowsTarget(db, pc, owner);
    hide GS.DbOk, GS.Knows, Clean, AfterReserve, Reserved, ValidRows, NamedRows, GS.OutOfAttempts, GS.Reading,
         G.Commit, G.Tolerate, G.ReadyStep, G.RefreshNext, G.ScheduleNext, G.ReconcileNext, G.RereadNext,
         G.BeginNext, G.HasReceipt;
    match pc
    case BeginCommit(task, id) => CognitionCommitIsClean(db, id, StartAttempt, env.now, G.CallApi(task, id), G.Idle);
    case FailCommit(task, id) =>
      CognitionCommitIsClean(db, id, MarkFailedSafe(Some(G.API_FAILED)), env.now, G.Schedule(id, G.InLoop(task)), G.Idle);
    case ReadyCommit(task, id) => ReadyIsClean(db, task, id, env.now);
    case Complete(task, id, receipt) =>
      CognitionCommitIsClean(db, id, MarkCompleted, env.now, G.Returned(task, receipt), G.Returned(task, receipt));
  }

  lemma CognitionIsClean(s: G.State, e: G.Event, owner: GS.Owner)
    requires GS.Inv(s, owner)
    ensures Clean(Cognition, s.db.rows, G.Apply(s, e).db.rows)
  {
    GS.NamesOf(s.db, owner);
    SameIsClean(Cognition, s.db.rows);
    if e.Step? {
      GS.IdleKnows(s, e.w, owner);
      CognitionStepIsClean(s.db, G.At(s, e.w), e.env, owner);
    } else if e.PurgeDelete? {
      assert forall id | id in s.db.doomed :: id.kind == Cognition;
      PurgeIsClean(s.db.rows, e.ids * s.db.doomed, Cognition);
    }
    hide G.Perform, Clean, GS.Inv;
  }

  // --------------------------------------- the others' rows do not matter

  /** The rows of one class are the same in both tables. */
  ghost predicate Same(kind: RetryClass, a: Rows, b: Rows) {
    SameRowsOf(kind, a, b) && ValidRows(b) && NamedRows(b)
  }

  lemma OnlyIsSame(kind: RetryClass, other: RetryClass, a: Rows, b: Rows)
    requires Clean(other, a, b) && ValidRows(b) && kind != other
    ensures Same(kind, a, b)
  {
    hide ValidOperation;
  }

  lemma ContactUnmoved(s: C.State, rows: Rows)
    requires CS.Inv(s) && Same(Contact, s.db.rows, rows)
    ensures CS.Inv(s.(db := s.db.(rows := rows)))
  {
    var t := s.(db := s.db.(rows := rows));
    assert forall id :: CS.IsContact(rows, id) <==> CS.IsContact(s.db.rows, id);
    assert forall w :: C.At(t, w) == C.At(s, w);
    ContactTablesUnmoved(s.db, rows);
    forall w | w in t.pcs ensures CS.Knows(t.db, t.pcs[w]) {
      ContactKnowsUnmoved(s.db, rows, s.pcs[w]);
    }
    hide CS.DbOk, CS.Knows, Same;
  }

  lemma ContactTablesUnmoved(db: C.Db, rows: Rows)
    requires CS.DbOk(db) && Same(Contact, db.rows, rows)
    ensures CS.DbOk(db.(rows := rows))
  {
    hide ValidOperation, NamedRows, CS.ContactRow;
    var b := db.(rows := rows);
    forall i | 0 <= i < |b.sends| ensures HasKey(b.rows, Contact, b.sends[i].key) {
      assert HasKey(db.rows, Contact, db.sends[i].key);
      var j :| j in db.rows && db.rows[j].kind == Contact && db.rows[j].key == db.sends[i].key;
      assert CS.IsContact(b.rows, j) && b.rows[j] == db.rows[j];
    }
  }

  lemma ContactKnowsUnmoved(db: C.Db, rows: Rows, pc: C.Pc)
    requires CS.Knows(db, pc) && Same(Contact, db.rows, rows)
    ensures CS.Knows(db.(rows := rows), pc)
  {
    hide ValidRows, NamedRows;
  }

  lemma PerceptUnmoved(s: P.State, rows: Rows)
    requires PS.Inv(s) && Same(Percept, s.db.rows, rows)
    ensures PS.Inv(s.(db := s.db.(rows := rows)))
  {
    var b := s.db.(rows := rows);
    PS.NamesOf(s.db);
    PerceptTablesUnmoved(s.db, rows);
    hide PS.DbOk, PS.Knows, Same, PS.Grows;
    PS.TablesMove(s, b);
  }

  lemma PerceptTablesUnmoved(db: P.Db, rows: Rows)
    requires PS.DbOk(db) && Same(Percept, db.rows, rows)
    ensures PS.DbOk(db.(rows := rows)) && PS.Grows(db, db.(rows := rows))
  {
    hide ValidOperation, PS.Spent;
    var b := db.(rows := rows);
    assert forall id :: PS.IsPercept(rows, id) <==> PS.IsPercept(db.rows, id);
    assert forall id: OpId | id.kind == Percept && id in db.rows :: PS.IsPercept(db.rows, id);
    assert forall id :: PS.Kept(b, id) == PS.Kept(db, id);
    forall id | PS.IsPercept(b.rows, id) ensures PS.RowOk(b, id) {
      assert PS.RowOk(db, id);
    }
    hide PS.RowOk, PS.Kept;
  }

  lemma CognitionUnmoved(s: G.State, rows: Rows, owner: GS.Owner)
    requires GS.Inv(s, owner) && Same(Cognition, s.db.rows, rows)
    ensures GS.Inv(s.(db := s.db.(rows := rows)), owner)
  {
    var b := s.db.(rows := rows);
    GS.NamesOf(s.db, owner);
    CognitionTablesUnmoved(s.db, rows, owner);
    hide GS.DbOk, GS.Knows, Same, GS.Grows;
    GS.TablesMove(s, b, owner);
  }

  lemma CognitionTablesUnmoved(db: G.Db, rows: Rows, owner: GS.Owner)
    requires GS.DbOk(db, owner) && Same(Cognition, db.rows, rows)
    ensures GS.DbOk(db.(rows := rows), owner) && GS.Grows(db, db.(rows := rows))
  {
    hide ValidOperation, GS.Spent, G.HasReceipt, GS.ReceiptsOk;
    var b := db.(rows := rows);
    assert forall id :: GS.IsCognition(rows, id) <==> GS.IsCognition(db.rows, id);
    assert forall id: OpId | id.kind == Cognition && id in db.rows :: GS.IsCognition(db.rows, id);
    forall id | GS.IsCognition(b.rows, id) ensures GS.RowOk(b, id) {
      assert GS.RowOk(db, id);
    }
    hide GS.RowOk;
  }

  // ------------------------------------------------------------- every run

  predicate OwnedEvent(e: Event, owner: GS.Owner) {
    e.OnCognition? ==> GS.OwnedEvent(e.cognition, owner)
  }

  /** Every service's own invariant, on the one table. */
  ghost predicate Inv(s: State, owner: GS.Owner) {
    && CS.Inv(s.contact) && PS.Inv(s.percept) && GS.Inv(s.cognition, owner)
    && s.contact.db.rows == s.percept.db.rows == s.cognition.db.rows
  }

  lemma ContactKeeps(s: State, e: C.Event, owner: GS.Owner)
    requires Inv(s, owner)
    ensures Inv(Apply(s, OnContact(e)), owner)
  {
    var rows := C.Apply(s.contact, e).db.rows;
    PS.NamesOf(s.percept.db);
    CS.ApplyKeeps(s.contact, e);
    ContactIsClean(s.contact, e);
    ContactRows(C.Apply(s.contact, e).db);
    hide CS.Inv, PS.Inv, GS.Inv, C.Apply, Clean, Same, ValidRows, NamedRows, CS.Grows;
    OnlyIsSame(Percept, Contact, s.contact.db.rows, rows);
    OnlyIsSame(Cognition, Contact, s.contact.db.rows, rows);
    PerceptUnmoved(s.percept, rows);
    CognitionUnmoved(s.cognition, rows, owner);
    assert C.Apply(s.contact, e).(db := C.Apply(s.contact, e).db.(rows := rows)) == C.Apply(s.contact, e);
  }

  lemma PerceptKeeps(s: State, e: P.Event, owner: GS.Owner)
    requires Inv(s, owner)
    ensures Inv(Apply(s, OnPercept(e)), owner)
  {
    var rows := P.Apply(s.percept, e).db.rows;
    PS.ApplyKeeps(s.percept, e);
    PerceptIsClean(s.percept, e);
    PS.NamesOf(P.Apply(s.percept, e).db);
    hide CS.Inv, PS.Inv, GS.Inv, P.Apply, Clean, Same, ValidRows, NamedRows, PS.Grows;
    OnlyIsSame(Contact, Percept, s.contact.db.rows, rows);
    OnlyIsSame(Cognition, Percept, s.contact.db.rows, rows);
    ContactUnmoved(s.contact, rows);
    CognitionUnmoved(s.cognition, rows, owner);
    assert P.Apply(s.percept, e).(db := P.Apply(s.percept, e).db.(rows := rows)) == P.Apply(s.percept, e);
  }

  lemma CognitionKeeps(s: State, e: G.Event, owner: GS.Owner)
    requires Inv(s, owner) && GS.OwnedEvent(e, owner)
    ensures Inv(Apply(s, OnCognition(e)), owner)
  {
    var rows := G.Apply(s.cognition, e).db.rows;
    GS.ApplyKeeps(s.cognition, e, owner);
    CognitionIsClean(s.cognition, e, owner);
    GS.NamesOf(G.Apply(s.cognition, e).db, owner);
    hide CS.Inv, PS.Inv, GS.Inv, G.Apply, Clean, Same, ValidRows, NamedRows, GS.Grows;
    OnlyIsSame(Contact, Cognition, s.contact.db.rows, rows);
    OnlyIsSame(Percept, Cognition, s.contact.db.rows, rows);
    ContactUnmoved(s.contact, rows);
    PerceptUnmoved(s.percept, rows);
    assert G.Apply(s.cognition, e).(db := G.Apply(s.cognition, e).db.(rows := rows)) == G.Apply(s.cognition, e);
  }

  lemma EventKeeps(s: State, e: Event, owner: GS.Owner)
    requires Inv(s, owner) && OwnedEvent(e, owner)
    ensures Inv(Apply(s, e), owner)
  {
    hide Inv, Apply;
    match e
    case OnContact(f) => ContactKeeps(s, f, owner);
    case OnPercept(f) => PerceptKeeps(s, f, owner);
    case OnCognition(f) => CognitionKeeps(s, f, owner);
  }

  lemma {:induction false} RunKeeps(enabled: bool, percept: RetryPolicy, cognition: RetryPolicy, es: seq<Event>, owner: GS.Owner)
    requires forall e | e in es :: OwnedEvent(e, owner)
    ensures Inv(Run(Init(enabled, percept, cognition), es), owner)
  {
    var s := Init(enabled, percept, cognition);
    if es == [] {
      CS.RunKeeps(enabled, []);
      PS.RunKeeps(percept, []);
      GS.RunKeeps(cognition, [], owner);
    } else {
      var before, e := es[..|es| - 1], es[|es| - 1];
      assert e in es && forall f | f in before :: f in es;
      RunKeeps(enabled, percept, cognition, before, owner);
      hide Inv, Apply;
      EventKeeps(Run(s, before), e, owner);
    }
  }
}
