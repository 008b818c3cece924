/**
  What the three services promise while they share one operation table: the
  promises each keeps alone, all at once, in every interleaving of their
  workers, crashes, sweeps and purges.
*/
module BridgePromises {
  import opened ReliabilityContract
  import opened OperationStore
  import opened Budget
  import opened BridgeSystem
  import C = ContactProtocol
  import CS = ContactSafety
  import CT = ContactTheorems
  import P = PerceptProtocol
  import PS = PerceptSafety
  import PT = PerceptTheorems
  import G = CognitionProtocol
  import GS = CognitionSafety
  import GT = CognitionTheorems

  // -------------------------------------------------------------- promises

  /** Each key is sent once, receipts carry ids on record, no row is tried twice, and completions are proved. */
  ghost predicate ContactPromises(s: C.State) {
    && (forall i, j | 0 <= i < j < |s.db.sends| :: s.db.sends[i].key != s.db.sends[j].key)
    && (!s.db.enabled ==> s.db.sends == [])
    && (forall key | key in s.db.receipts :: CS.Genuine(s.db, key, s.db.receipts[key]))
    && (forall w | C.At(s, w).Returned? :: CS.Genuine(s.db, C.At(s, w).call.key, C.At(s, w).receipt))
    && forall id | CS.IsContact(s.db.rows, id) :: ContactPromise(s.db, s.db.rows[id])
  }

  ghost predicate ContactPromise(db: C.Db, op: Operation) {
    && op.attempt <= 1 && op.state != RetryWait && op.state != Exhausted
    && (op.state == Completed ==> CS.Durable(db, op.key) && CS.Proven(db, op.key))
  }

  /** No percept is lost or altered, and attempts are bounded. */
  ghost predicate PerceptPromises(s: P.State, workers: nat) {
    && (forall id | PS.IsPercept(s.db.rows, id) :: PerceptPromise(s.db, id, workers))
    && (forall w | P.At(s, w).Send? :: PS.Faithful(s.db, P.At(s, w).id, P.At(s, w).event))
  }

  ghost predicate PerceptPromise(db: P.Db, id: OpId, workers: nat)
    requires id in db.rows
  {
    var op := db.rows[id];
    && op.attempt <= Cap(Allowance(db.policy), workers)
    && (op.state == Completed ==> op.key in db.acked)
    && (id !in db.purged && op.state != Completed ==> PS.Kept(db, id))
    && (id !in db.purged && op.state == Exhausted ==> PS.Spent(db.policy, op))
  }

  /** Completions are backed, calls are within the attempts, and those are bounded. */
  ghost predicate CognitionPromises(s: G.State, workers: nat) {
    && (forall id | GS.IsCognition(s.db.rows, id) :: CognitionPromise(s.db, id, workers))
    && (forall w :: G.At(s, w) != G.Raised(G.ReceiptMissing))
    && (forall w | G.At(s, w).Returned? ::
          G.At(s, w).receipt.key == G.At(s, w).task.key && G.HasReceipt(s.db.receipts, G.At(s, w).task.key))
  }

  ghost predicate CognitionPromise(db: G.Db, id: OpId, workers: nat)
    requires id in db.rows
  {
    var op := db.rows[id];
    && op.attempt <= Cap(Allowance(db.policy), workers)
    && (op.state == Completed ==> G.HasReceipt(db.receipts, op.key))
    && (id !in db.purged ==> db.calls[id] <= op.attempt)
    && (id !in db.purged && op.state == Exhausted ==> GS.Spent(db.policy, op))
  }

  // ------------------------------------------------ one service's event moves only it

  /** An event changes its own service, and for the others only rows that are not theirs. */
  lemma OthersUnmoved(s: State, e: Event, owner: GS.Owner)
    requires Inv(s, owner) && OwnedEvent(e, owner)
    ensures var t := Apply(s, e);
            var rows := t.contact.db.rows;
            && Inv(t, owner)
            && (if e.OnContact? then t.contact == C.Apply(s.contact, e.contact)
                else t.contact == s.contact.(db := s.contact.db.(rows := rows)) && Same(Contact, s.contact.db.rows, rows))
            && (if e.OnPercept? then t.percept == P.Apply(s.percept, e.percept)
                else t.percept == s.percept.(db := s.percept.db.(rows := rows)) && Same(Percept, s.contact.db.rows, rows))
            && (if e.OnCognition? then t.cognition == G.Apply(s.cognition, e.cognition)
                else t.cognition == s.cognition.(db := s.cognition.db.(rows := rows)) && Same(Cognition, s.contact.db.rows, rows))
  {
    EventKeeps(s, e, owner);
    var t := Apply(s, e);
    PS.NamesOf(s.percept.db);
    PS.NamesOf(t.percept.db);
    hide C.Apply, P.Apply, G.Apply, CS.Inv, PS.Inv, GS.Inv, ValidRows, NamedRows, Clean, Same, OwnedEvent;
    match e
    case OnContact(f) =>
      ContactIsClean(s.contact, f);
      OnlyIsSame(Percept, Contact, s.contact.db.rows, t.contact.db.rows);
      OnlyIsSame(Cognition, Contact, s.contact.db.rows, t.contact.db.rows);
    case OnPercept(f) =>
      PerceptIsClean(s.percept, f);
      OnlyIsSame(Contact, Percept, s.contact.db.rows, t.contact.db.rows);
      OnlyIsSame(Cognition, Percept, s.contact.db.rows, t.contact.db.rows);
    case OnCognition(f) =>
      CognitionIsClean(s.cognition, f, owner);
      OnlyIsSame(Contact, Cognition, s.contact.db.rows, t.contact.db.rows);
      OnlyIsSame(Percept, Cognition, s.contact.db.rows, t.contact.db.rows);
  }

  // ---------------------------------------------------------------- budgets

  /** Percept and cognition events come from so many workers. */
  predicate Staffed(e: Event, percepts: nat, cognitions: nat) {
    && (e.OnPercept? ==> P.ByWorkers([e.percept], percepts))
    && (e.OnCognition? ==> G.ByWorkers([e.cognition], cognitions))
  }

  ghost predicate Budgets(s: State, percepts: nat, cognitions: nat) {
    && PT.Crew(s.percept, percepts) && GT.Crew(s.cognition, cognitions)
    && (forall id: OpId | id.kind == Percept :: PT.RowInBudget(s.percept, percepts, id))
    && (forall id: OpId | id.kind == Cognition :: GT.RowInBudget(s.cognition, cognitions, id))
  }

  lemma PerceptBudgetUnmoved(s: P.State, rows: Rows, workers: nat, id: OpId)
    requires id.kind == Percept && NamedRows(s.db.rows) && Same(Percept, s.db.rows, rows)
    requires PT.RowInBudget(s, workers, id)
    ensures PT.RowInBudget(s.(db := s.db.(rows := rows)), workers, id)
  {
    hide ValidRows;
    assert RowAt(rows, id) == RowAt(s.db.rows, id);
    assert PT.Holders(s.(db := s.db.(rows := rows)), id) == PT.Holders(s, id);
  }

  lemma CognitionBudgetUnmoved(s: G.State, rows: Rows, workers: nat, id: OpId)
    requires id.kind == Cognition && NamedRows(s.db.rows) && Same(Cognition, s.db.rows, rows)
    requires GT.RowInBudget(s, workers, id)
    ensures GT.RowInBudget(s.(db := s.db.(rows := rows)), workers, id)
  {
    hide ValidRows, GT.Permit;
    assert RowAt(rows, id) == RowAt(s.db.rows, id);
    assert GT.Holders(s.(db := s.db.(rows := rows)), id) == GT.Holders(s, id);
    assert GT.Callers(s.(db := s.db.(rows := rows)), id) == GT.Callers(s, id);
  }

  lemma PerceptBudgetStays(s: State, e: Event, owner: GS.Owner, percepts: nat, id: OpId)
    requires Inv(s, owner) && OwnedEvent(e, owner) && (e.OnPercept? ==> P.ByWorkers([e.percept], percepts))
    requires percepts >= 1 && ValidPolicy(s.percept.db.policy) && id.kind == Percept
    requires PT.Crew(s.percept, percepts) && PT.RowInBudget(s.percept, percepts, id)
    ensures var t := Apply(s, e);
            PT.Crew(t.percept, percepts) && PT.RowInBudget(t.percept, percepts, id) && t.percept.db.policy == s.percept.db.policy
  {
    OthersUnmoved(s, e, owner);
    PS.NamesOf(s.percept.db);
    hide Apply, P.Apply, C.Apply, G.Apply, CS.Inv, PS.Inv, GS.Inv, PT.RowInBudget, Same, NamedRows, ValidRows,
         P.ByWorkers;
    if e.OnPercept? {
      PT.RowBudgetStays(s.percept, e.percept, percepts, id);
      PT.EventMoves(s.percept, e.percept, id);
    } else {
      PerceptBudgetUnmoved(s.percept, Apply(s, e).contact.db.rows, percepts, id);
    }
  }

  lemma CognitionBudgetStays(s: State, e: Event, owner: GS.Owner, cognitions: nat, id: OpId)
    requires Inv(s, owner) && OwnedEvent(e, owner) && (e.OnCognition? ==> G.ByWorkers([e.cognition], cognitions))
    requires cognitions >= 1 && ValidPolicy(s.cognition.db.policy) && id.kind == Cognition
    requires GT.Crew(s.cognition, cognitions) && GT.RowInBudget(s.cognition, cognitions, id)
    ensures var t := Apply(s, e);
            && GT.Crew(t.cognition, cognitions) && GT.RowInBudget(t.cognition, cognitions, id)
            && t.cognition.db.policy == s.cognition.db.policy
  {
    OthersUnmoved(s, e, owner);
    PS.NamesOf(s.percept.db);
    hide Apply, P.Apply, C.Apply, G.Apply, CS.Inv, PS.Inv, GS.Inv, GT.RowInBudget, Same, NamedRows, ValidRows,
         G.ByWorkers, OwnedEvent;
    if e.OnCognition? {
      GT.RowBudgetStays(s.cognition, e.cognition, cognitions, id);
      GT.EventMoves(s.cognition, e.cognition, id);
    } else {
      CognitionBudgetUnmoved(s.cognition, Apply(s, e).contact.db.rows, cognitions, id);
    }
  }

  /** The shared table stays within both budgets in every run. */
  lemma {:induction false} RunInBudget(enabled: bool, percept: RetryPolicy, cognition: RetryPolicy, es: seq<Event>,
                                       owner: GS.Owner, percepts: nat, cognitions: nat)
    requires ValidPolicy(percept) && ValidPolicy(cognition) && percepts >= 1 && cognitions >= 1
    requires forall e | e in es :: OwnedEvent(e, owner) && Staffed(e, percepts, cognitions)
    ensures var s := Run(Init(enabled, percept, cognition), es);
            && Inv(s, owner) && Budgets(s, percepts, cognitions)
            && s.percept.db.policy == percept && s.cognition.db.policy == cognition
  {
    RunKeeps(enabled, percept, cognition, es, owner);
    var t := Run(Init(enabled, percept, cognition), es);
    if es == [] {
      NothingSpent(enabled, percept, cognition, percepts, cognitions);
    } else {
      var before, e := es[..|es| - 1], es[|es| - 1];
      assert e in es && forall f | f in before :: f in es;
      RunInBudget(enabled, percept, cognition, before, owner, percepts, cognitions);
      var s := Run(Init(enabled, percept, cognition), before);
      RunKeeps(enabled, percept, cognition, before, owner);
      assert t == Apply(s, e);
      hide Run, Apply, Inv, OwnedEvent, ValidPolicy;
      BudgetsStay(s, e, owner, percepts, cognitions);
    }
  }

  lemma BudgetsStay(s: State, e: Event, owner: GS.Owner, percepts: nat, cognitions: nat)
    requires Inv(s, owner) && OwnedEvent(e, owner) && Staffed(e, percepts, cognitions)
    requires percepts >= 1 && cognitions >= 1 && Budgets(s, percepts, cognitions)
    requires ValidPolicy(s.percept.db.policy) && ValidPolicy(s.cognition.db.policy)
    ensures var t := Apply(s, e);
            && Budgets(t, percepts, cognitions)
            && t.percept.db.policy == s.percept.db.policy && t.cognition.db.policy == s.cognition.db.policy
  {
    hide Apply, Inv, OwnedEvent, ValidPolicy, PT.Crew, GT.Crew, PT.RowInBudget, GT.RowInBudget;
    var t := Apply(s, e);
    forall id: OpId | id.kind == Percept ensures PT.RowInBudget(t.percept, percepts, id) {
      PerceptBudgetStays(s, e, owner, percepts, id);
    }
    forall id: OpId | id.kind == Cognition ensures GT.RowInBudget(t.cognition, cognitions, id) {
      CognitionBudgetStays(s, e, owner, cognitions, id);
    }
    PerceptBudgetStays(s, e, owner, percepts, StableId(Percept, "", ""));
    CognitionBudgetStays(s, e, owner, cognitions, StableId(Cognition, "", ""));
  }

  lemma NothingSpent(enabled: bool, percept: RetryPolicy, cognition: RetryPolicy, percepts: nat, cognitions: nat)
    requires ValidPolicy(percept) && ValidPolicy(cognition) && percepts >= 1 && cognitions >= 1
    ensures Budgets(Init(enabled, percept, cognition), percepts, cognitions)
  {
    var s := Init(enabled, percept, cognition);
    assert forall id :: PT.Holders(s.percept, id) == {};
    assert forall id :: GT.Holders(s.cognition, id) == {} && GT.Callers(s.cognition, id) == {};
  }

  // ----------------------------------------------------------- all together

  lemma ContactsKeepPromises(s: C.State)
    requires CS.Inv(s)
    ensures ContactPromises(s)
  {
    hide ValidOperation;
    if |s.db.sends| > 0 {
      CT.SendMeansEnabled(s.db, 0);
    }
    forall w | C.At(s, w).Returned? ensures CS.Genuine(s.db, C.At(s, w).call.key, C.At(s, w).receipt) {
      CS.IdleKnows(s, w);
    }
    forall id | CS.IsContact(s.db.rows, id) ensures ContactPromise(s.db, s.db.rows[id]) {
    }
  }

  lemma PerceptsKeepPromises(s: P.State, workers: nat)
    requires PS.Inv(s) && workers >= 1 && forall id: OpId | id.kind == Percept :: PT.RowInBudget(s, workers, id)
    ensures PerceptPromises(s, workers)
  {
    PS.NamesOf(s.db);
    forall id | PS.IsPercept(s.db.rows, id) ensures PerceptPromise(s.db, id, workers) {
      assert PT.RowInBudget(s, workers, id) && PS.RowOk(s.db, id);
      hide PS.Inv, PT.Holders, ValidRows, PS.Kept, PS.Spent;
      BudgetBoundsAttempts(s.db.rows[id], |PT.Holders(s, id)|, workers, Allowance(s.db.policy));
    }
    forall w | P.At(s, w).Send? ensures PS.Faithful(s.db, P.At(s, w).id, P.At(s, w).event) {
      PS.IdleKnows(s, w);
    }
  }

  lemma CognitionsKeepPromises(s: G.State, owner: GS.Owner, workers: nat)
    requires GS.Inv(s, owner) && workers >= 1 && forall id: OpId | id.kind == Cognition :: GT.RowInBudget(s, workers, id)
    ensures CognitionPromises(s, workers)
  {
    GS.NamesOf(s.db, owner);
    forall id | GS.IsCognition(s.db.rows, id) ensures CognitionPromise(s.db, id, workers) {
      assert GT.RowInBudget(s, workers, id) && GS.RowOk(s.db, id);
      hide GS.Inv, GT.Holders, GT.Callers, ValidRows, GS.Spent, G.HasReceipt;
      BudgetBoundsAttempts(s.db.rows[id], |GT.Holders(s, id)|, workers, Allowance(s.db.policy));
    }
    forall w ensures GS.Knows(s.db, G.At(s, w), owner) {
      GS.IdleKnows(s, w, owner);
    }
  }

  /**
    Whatever the three services, their crashes, sweeps and purges do to the
    shared table, each keeps every promise about its rows and its workers.
  */
  lemma PromisesHoldTogether(enabled: bool, percept: RetryPolicy, cognition: RetryPolicy, es: seq<Event>, owner: GS.Owner,
                             percepts: nat, cognitions: nat)
    requires ValidPolicy(percept) && ValidPolicy(cognition) && percepts >= 1 && cognitions >= 1
    requires forall e | e in es :: OwnedEvent(e, owner) && Staffed(e, percepts, cognitions)
    ensures var s := Run(Init(enabled, percept, cognition), es);
            && s.contact.db.rows == s.percept.db.rows == s.cognition.db.rows
            && ContactPromises(s.contact)
            && PerceptPromises(s.percept, percepts)
            && CognitionPromises(s.cognition, cognitions)
            && s.percept.db.policy == percept && s.cognition.db.policy == cognition
  {
    RunInBudget(enabled, percept, cognition, es, owner, percepts, cognitions);
    var s := Run(Init(enabled, percept, cognition), es);
    hide Run, Init, CS.Inv, PS.Inv, GS.Inv, PT.RowInBudget, GT.RowInBudget, ContactPromises, PerceptPromises,
         CognitionPromises;
    ContactsKeepPromises(s.contact);
    PerceptsKeepPromises(s.percept, percepts);
    CognitionsKeepPromises(s.cognition, owner, cognitions);
  }

  // ------------------------------------------------------- steps and answers

  /** On the shared table too a contact leaves DELIVERY_UNKNOWN only on evidence. */
  lemma UnknownLeavesOnEvidence(enabled: bool, percept: RetryPolicy, cognition: RetryPolicy, es: seq<Event>, e: Event,
                                owner: GS.Owner, id: OpId)
    requires forall f | f in es + [e] :: OwnedEvent(f, owner)
    requires var rows := Run(Init(enabled, percept, cognition), es).contact.db.rows;
             CS.IsContact(rows, id) && rows[id].state == DeliveryUnknown
    ensures var db := Run(Init(enabled, percept, cognition), es).contact.db;
            var rows := Apply(Run(Init(enabled, percept, cognition), es), e).contact.db.rows;
            id in rows && (rows[id] == db.rows[id] || CT.Justified(db, db.rows[id].key, rows[id].state))
  {
    assert e in es + [e] && forall f | f in es :: f in es + [e];
    RunKeeps(enabled, percept, cognition, es, owner);
    var s := Run(Init(enabled, percept, cognition), es);
    hide Run, Init, Apply, CS.Inv, PS.Inv, GS.Inv, C.Apply, P.Apply, G.Apply, CT.Justified;
    OthersUnmoved(s, e, owner);
    if e.OnContact? {
      CT.LeavesOnEvidence(s.contact, e.contact, id);
    }
  }

  /** No two workers ever answer calls for one contact key at once. */
  ghost predicate NeverOverlaps(s: State, es: seq<Event>) {
    forall n | 0 <= n <= |es| :: CT.Alone(Run(s, es[..n]).contact)
  }

  /** On the shared table too no call ends unanswered if calls do not overlap. */
  lemma {:induction false} CompletedIsAnswered(enabled: bool, percept: RetryPolicy, cognition: RetryPolicy, es: seq<Event>,
                                               owner: GS.Owner)
    requires forall e | e in es :: OwnedEvent(e, owner)
    requires NeverOverlaps(Init(enabled, percept, cognition), es)
    ensures var s := Run(Init(enabled, percept, cognition), es).contact;
            forall w :: CT.Answers(s.db, C.At(s, w)) && C.At(s, w) != C.Raised(C.ReceiptUnavailable)
  {
    var init := Init(enabled, percept, cognition);
    if es != [] {
      var before, e := es[..|es| - 1], es[|es| - 1];
      assert e in es && forall f | f in before :: f in es;
      assert forall n | 0 <= n <= |before| :: before[..n] == es[..n];
      CompletedIsAnswered(enabled, percept, cognition, before, owner);
      RunKeeps(enabled, percept, cognition, before, owner);
      var s := Run(init, before);
      assert CT.Alone(s.contact);
      assert Run(init, es) == Apply(s, e);
      hide Run, Apply, CT.Alone, CS.Inv, PS.Inv, GS.Inv, C.Apply, P.Apply, G.Apply, NeverOverlaps, OwnedEvent;
      OthersUnmoved(s, e, owner);
      if e.OnContact? {
        CT.AnswersStay(s.contact, e.contact);
      } else {
        AnswersUnmoved(s.contact, Apply(s, e).contact.db.rows);
      }
    }
  }

  lemma AnswersUnmoved(s: C.State, rows: Rows)
    requires forall w :: CT.Answers(s.db, C.At(s, w))
    ensures var t := s.(db := s.db.(rows := rows));
            forall w :: CT.Answers(t.db, C.At(t, w))
  {
    var t := s.(db := s.db.(rows := rows));
    forall w ensures CT.Answers(t.db, C.At(t, w)) {
      assert CT.Answers(s.db, C.At(s, w));
    }
  }
}
