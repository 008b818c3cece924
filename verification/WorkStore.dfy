/**
  The work ledger: four tables kept in step by three transactions, and proved
  to be a function of the calls the store has received.
  (src/hermes_life_bridge/work_store.py)
*/
module WorkStore {
  import opened Basics
  import opened SqlOrder
  import opened MapSums
  import opened WorkHistory
  import opened WorkMetrics

  datatype LedgerRow = LedgerRow(key: string, digest: string, session: string, acceptedEpoch: nat, disposition: Fate)
  datatype OutboxRow = OutboxRow(key: string, session: string, acceptedEpoch: nat, dueAt: int, state: Fate)
  datatype EpochRow = EpochRow(epoch: nat, observer: bool, lastActivityAt: Option<int>)

  datatype Acceptance = Acceptance(duplicate: bool, fact: string, epoch: nat, state: Fate)
  datatype Evaluation = Evaluation(fact: string, session: string, acceptedEpoch: nat, currentEpoch: int, state: Fate)

  // -------------------------------------------------- the tables as a function

  type Ledger = map<string, LedgerRow>
  type Outbox = map<string, OutboxRow>
  type Epochs = map<string, EpochRow>
  type Positions = map<string, nat>

  /** The rows of the fact brought by call `i`. */
  ghost predicate RowsFit(rank: Rank, es: seq<Event>, i: nat, l: LedgerRow, o: OutboxRow) {
    && i < |es| && AcceptedAt(es, i)
    && var f := es[i].fact;
       var epoch := Activities(es[..i], f.session);
       && l == LedgerRow(f.key, f.digest, f.session, epoch, FateOf(rank, es, i))
       && o == OutboxRow(f.key, f.session, epoch, DueAt(es[i]), FateOf(rank, es, i))
  }

  /** `came` finds the accepted facts by their ids. */
  ghost predicate Finds(es: seq<Event>, came: Positions) {
    && (forall id | id in came :: came[id] < |es| && AcceptedAt(es, came[id]) && es[came[id]].fact.id == id)
    && (forall i: nat | i < |es| && AcceptedAt(es, i) :: es[i].fact.id in came && came[es[i].fact.id] == i)
  }

  /** Ledger and outbox hold exactly the accepted facts, each with its fate. */
  ghost predicate FactsFit(rank: Rank, es: seq<Event>, came: Positions, ledger: Ledger, outbox: Outbox) {
    && Finds(es, came) && ledger.Keys == came.Keys && outbox.Keys == came.Keys
    && forall id | id in came :: RowsFit(rank, es, came[id], ledger[id], outbox[id])
  }

  /** `at` is the time the session's last activity carried. */
  ghost predicate LastSeen(es: seq<Event>, s: string, at: Option<int>) {
    match at
    case None => forall k: nat :: !ActiveAt(es, k, s)
    case Some(t) => exists k: nat :: ActiveAt(es, k, s) && es[k].at == t && forall m: nat | k < m :: !ActiveAt(es, m, s)
  }

  /** An epoch is the number of activities of its session, in order of arrival. */
  ghost predicate EpochsFit(es: seq<Event>, outbox: Outbox, epochs: Epochs) {
    && (forall s | s in epochs ::
          && epochs[s].epoch == Activities(es, s) && epochs[s].observer == (Activities(es, s) >= 1)
          && LastSeen(es, s, epochs[s].lastActivityAt))
    && (forall s | s !in epochs :: Activities(es, s) == 0)
    && (forall id | id in outbox :: outbox[id].session in epochs)
  }

  lemma SeenStill(es: seq<Event>, e: Event, s: string, at: Option<int>)
    requires LastSeen(es, s, at) && !(e.Activity? && e.session == s)
    ensures LastSeen(es + [e], s, at)
  {
    forall k: nat ensures ActiveAt(es + [e], k, s) <==> ActiveAt(es, k, s) {
      assert k < |es| ==> (es + [e])[k] == es[k];
    }
    if at.Some? {
      var k: nat :| ActiveAt(es, k, s) && es[k].at == at.value && forall m: nat | k < m :: !ActiveAt(es, m, s);
      assert ActiveAt(es + [e], k, s) && (es + [e])[k].at == at.value;
    }
  }

  lemma SeenNow(es: seq<Event>, s: string, at: int)
    ensures LastSeen(es + [Activity(s, at)], s, Some(at))
  {
    assert ActiveAt(es + [Activity(s, at)], |es|, s);
  }

  lemma {:induction false} NeverSeen(es: seq<Event>, s: string)
    requires Activities(es, s) == 0
    ensures LastSeen(es, s, None)
  {
    if es != [] {
      var before := es[..|es| - 1];
      NeverSeen(before, s);
      SeenStill(before, es[|es| - 1], s, None);
      assert before + [es[|es| - 1]] == es;
    }
  }

  function InState(outbox: Outbox, fate: Fate): set<string> {
    set id | id in outbox && outbox[id].state == fate
  }

  function EpochCounts(epochs: Epochs): map<string, nat> {
    map s | s in epochs :: epochs[s].epoch
  }

  ghost function EpochSum(epochs: Epochs): nat {
    MapSum(EpochCounts(epochs))
  }

  ghost predicate FatesCounted(outbox: Outbox, metrics: Metrics) {
    forall fate | fate != PendingIdle :: Total(metrics, FateMetric(fate)) == |InState(outbox, fate)|
  }

  ghost predicate MetricsFit(ledger: Ledger, outbox: Outbox, epochs: Epochs, metrics: Metrics) {
    && Total(metrics, AcceptedMetric) == |ledger|
    && Total(metrics, ActivityMetric) == EpochSum(epochs)
    && FatesCounted(outbox, metrics)
  }

  lemma StatesPartition(outbox: Outbox)
    ensures |outbox.Keys| == |InState(outbox, PendingIdle)| + |InState(outbox, Invalidated)|
                             + |InState(outbox, Suppressed)| + |InState(outbox, ShadowCandidate)|
  {
    var p, i := InState(outbox, PendingIdle), InState(outbox, Invalidated);
    var s, c := InState(outbox, Suppressed), InState(outbox, ShadowCandidate);
    assert outbox.Keys == p + i + s + c;
    assert p !! i && p + i !! s && p + i + s !! c;
  }

  // ------------------------------------------------------ one call on the rows

  /** The fate one more call gives the fact of call `i`. */
  ghost function NextFate(rank: Rank, es: seq<Event>, e: Event, i: nat): Fate {
    if i < |es| && es[i].Accept? then FateOf(rank, es + [e], i) else PendingIdle
  }

  lemma RowsFollow(rank: Rank, es: seq<Event>, e: Event, i: nat, l: LedgerRow, o: OutboxRow)
    requires RowsFit(rank, es, i, l, o)
    ensures var fate := NextFate(rank, es, e, i);
            RowsFit(rank, es + [e], i, l.(disposition := fate), o.(state := fate))
  {
    Appended(es, e);
    hide FateOf;
  }

  lemma FindsStill(es: seq<Event>, e: Event, came: Positions)
    requires Finds(es, came) && !AcceptedAt(es + [e], |es|)
    ensures Finds(es + [e], came)
  {
    Appended(es, e);
    forall i: nat | i < |es + [e]| && AcceptedAt(es + [e], i)
      ensures (es + [e])[i].fact.id in came && came[(es + [e])[i].fact.id] == i
    {
      assert i != |es|;
      assert AcceptedAt(es, i) && (es + [e])[i] == es[i];
    }
  }

  lemma FindsNew(es: seq<Event>, e: Event, came: Positions)
    requires Finds(es, came) && AcceptedAt(es + [e], |es|)
    ensures e.fact.id !in came && Finds(es + [e], came[e.fact.id := |es|])
  {
    Appended(es, e);
    forall id | id in came ensures id != e.fact.id {
      assert !Clash((es + [e])[came[id]].fact, e.fact);
    }
    hide AcceptedAt, Activities;
  }

  /** A call that brings no fact only moves fates. */
  lemma FactsFollow(rank: Rank, es: seq<Event>, e: Event, came: Positions, ledger: Ledger, outbox: Outbox,
                    after: Ledger, sent: Outbox)
    requires FactsFit(rank, es, came, ledger, outbox) && !AcceptedAt(es + [e], |es|)
    requires after.Keys == ledger.Keys && sent.Keys == outbox.Keys
    requires forall id | id in came ::
               && after[id] == ledger[id].(disposition := NextFate(rank, es, e, came[id]))
               && sent[id] == outbox[id].(state := NextFate(rank, es, e, came[id]))
    ensures FactsFit(rank, es + [e], came, after, sent)
  {
    FindsStill(es, e, came);
    hide RowsFit, NextFate, AcceptedAt, Finds;
    forall id | id in came ensures RowsFit(rank, es + [e], came[id], after[id], sent[id]) {
      RowsFollow(rank, es, e, came[id], ledger[id], outbox[id]);
    }
  }

  /** What the rows of an accepted fact say of it. */
  lemma RowsSay(rank: Rank, es: seq<Event>, i: nat, l: LedgerRow, o: OutboxRow)
    requires RowsFit(rank, es, i, l, o)
    ensures es[i].fact.session == o.session == l.session && l.key == o.key == es[i].fact.key
    ensures l.disposition == o.state == FateOf(rank, es, i) && l.digest == es[i].fact.digest
    ensures l.acceptedEpoch == o.acceptedEpoch == Activities(es[..i], o.session) && o.dueAt == DueAt(es[i])
    ensures o.state == PendingIdle ==> o.acceptedEpoch == Activities(es, o.session)
  {
    if o.state == PendingIdle {
      WaitingIsUndisturbed(rank, es, i);
    }
  }

  lemma NextFateIs(rank: Rank, es: seq<Event>, e: Event, i: nat, l: LedgerRow, o: OutboxRow)
    requires RowsFit(rank, es, i, l, o)
    ensures NextFate(rank, es, e, i) ==
            if o.state != PendingIdle then o.state
            else if e.Activity? && e.session == o.session then Invalidated
            else if e.Evaluate? && GoodLimit(e.limit) && Selects(rank, es, e.now, e.limit, i) then
              if o.acceptedEpoch > 0 then ShadowCandidate else Suppressed
            else PendingIdle
  {
    FateAfter(rank, es, e, i);
    hide FateOf, Selects;
  }

  /** A refused or repeated fact, or a batch out of range, moves nothing. */
  lemma NothingNew(rank: Rank, es: seq<Event>, e: Event, came: Positions, ledger: Ledger, outbox: Outbox)
    requires FactsFit(rank, es, came, ledger, outbox) && !AcceptedAt(es + [e], |es|)
    requires !e.Activity? && !(e.Evaluate? && GoodLimit(e.limit))
    ensures FactsFit(rank, es + [e], came, ledger, outbox)
  {
    hide RowsFit, NextFate, AcceptedAt, Finds;
    forall id | id in came
      ensures NextFate(rank, es, e, came[id]) == outbox[id].state == ledger[id].disposition
    {
      NextFateIs(rank, es, e, came[id], ledger[id], outbox[id]);
      RowsSay(rank, es, came[id], ledger[id], outbox[id]);
    }
    FactsFollow(rank, es, e, came, ledger, outbox, ledger, outbox);
  }

  /** A fact clashes with an accepted one exactly when the ledger says so. */
  lemma ClashIsInLedger(rank: Rank, es: seq<Event>, e: Event, came: Positions, ledger: Ledger, outbox: Outbox)
    requires FactsFit(rank, es, came, ledger, outbox) && e.Accept?
    ensures AcceptedAt(es + [e], |es|) <==>
              && GoodDelay(e.delay) && e.fact.id !in ledger
              && forall id | id in ledger :: ledger[id].key != e.fact.key
  {
    Appended(es, e);
    forall id | id in came ensures ledger[id].key == es[came[id]].fact.key {
      RowsSay(rank, es, came[id], ledger[id], outbox[id]);
    }
    if AcceptedAt(es + [e], |es|) {
      forall id | id in ledger ensures ledger[id].key != e.fact.key && id != e.fact.id {
        assert !Clash((es + [e])[came[id]].fact, e.fact);
      }
    }
    hide RowsFit;
  }

  function NewLedgerRow(f: Fact, epoch: nat): LedgerRow {
    LedgerRow(f.key, f.digest, f.session, epoch, PendingIdle)
  }

  function NewOutboxRow(f: Fact, epoch: nat, dueAt: int): OutboxRow {
    OutboxRow(f.key, f.session, epoch, dueAt, PendingIdle)
  }

  /** A new fact waits, at the epoch of its session. */
  lemma FactComes(rank: Rank, es: seq<Event>, e: Event, came: Positions, ledger: Ledger, outbox: Outbox)
    requires FactsFit(rank, es, came, ledger, outbox) && e.Accept? && AcceptedAt(es + [e], |es|)
    ensures var epoch := Activities(es, e.fact.session);
            FactsFit(rank, es + [e], came[e.fact.id := |es|],
                     ledger[e.fact.id := NewLedgerRow(e.fact, epoch)],
                     outbox[e.fact.id := NewOutboxRow(e.fact, epoch, DueAt(e))])
  {
    var epoch := Activities(es, e.fact.session);
    hide RowsFit, AcceptedAt, Finds, NextFate, Activities, NewLedgerRow, NewOutboxRow;
    FindsNew(es, e, came);
    NewRowsFit(rank, es, e);
    forall id | id in came ensures RowsFit(rank, es + [e], came[id], ledger[id], outbox[id]) {
      RowsStay(rank, es, e, came[id], ledger[id], outbox[id]);
    }
  }

  lemma NewRowsFit(rank: Rank, es: seq<Event>, e: Event)
    requires e.Accept? && AcceptedAt(es + [e], |es|)
    ensures var epoch := Activities(es, e.fact.session);
            RowsFit(rank, es + [e], |es|, NewLedgerRow(e.fact, epoch), NewOutboxRow(e.fact, epoch, DueAt(e)))
  {
    Appended(es, e);
    hide AcceptedAt, Activities;
  }

  lemma RowsStay(rank: Rank, es: seq<Event>, e: Event, i: nat, l: LedgerRow, o: OutboxRow)
    requires RowsFit(rank, es, i, l, o) && e.Accept?
    ensures RowsFit(rank, es + [e], i, l, o)
  {
    NextFateIs(rank, es, e, i, l, o);
    RowsSay(rank, es, i, l, o);
    RowsFollow(rank, es, e, i, l, o);
    hide RowsFit, NextFate, AcceptedAt, Activities, FateOf;
  }

  lemma BringsNoFact(es: seq<Event>, e: Event)
    requires !e.Accept?
    ensures !AcceptedAt(es + [e], |es|) && !RepeatedAt(es + [e], |es|)
  {
  }

  // ------------------------------------------------------------------ activity

  /** The waiting facts of a session whose epoch is older. */
  function Stale(outbox: Outbox, session: string, epoch: nat): set<string> {
    set id | id in outbox && outbox[id].session == session && outbox[id].acceptedEpoch < epoch
             && outbox[id].state == PendingIdle
  }

  function Waiting(outbox: Outbox, session: string): set<string> {
    set id | id in outbox && outbox[id].session == session && outbox[id].state == PendingIdle
  }

  function MarkedOutbox(outbox: Outbox, ids: set<string>, fate: Fate): Outbox {
    map id | id in outbox :: if id in ids then outbox[id].(state := fate) else outbox[id]
  }

  function MarkedLedger(ledger: Ledger, ids: set<string>, fate: Fate): Ledger {
    map id | id in ledger :: if id in ids then ledger[id].(disposition := fate) else ledger[id]
  }

  /** A waiting fact has the epoch of its session, so a new activity finds it stale. */
  lemma FactFits(rank: Rank, es: seq<Event>, came: Positions, ledger: Ledger, outbox: Outbox, id: string)
    requires FactsFit(rank, es, came, ledger, outbox) && id in came
    ensures id in ledger && id in outbox && RowsFit(rank, es, came[id], ledger[id], outbox[id])
  {
    hide RowsFit, Finds;
  }

  lemma OneStale(rank: Rank, es: seq<Event>, e: Event, came: Positions, ledger: Ledger, outbox: Outbox, id: string)
    requires FactsFit(rank, es, came, ledger, outbox) && e.Activity? && id in came
    ensures var hit := Stale(outbox, e.session, Activities(es, e.session) + 1);
            && (id in hit <==> id in Waiting(outbox, e.session))
            && NextFate(rank, es, e, came[id]) == (if id in hit then Invalidated else outbox[id].state)
            && ledger[id].disposition == outbox[id].state
  {
    hide FactsFit, RowsFit, NextFate, AcceptedAt, Activities;
    FactFits(rank, es, came, ledger, outbox, id);
    StaleRow(rank, es, e, came[id], ledger[id], outbox[id]);
  }

  lemma StaleRow(rank: Rank, es: seq<Event>, e: Event, i: nat, l: LedgerRow, o: OutboxRow)
    requires RowsFit(rank, es, i, l, o) && e.Activity?
    ensures o.state == PendingIdle ==> o.acceptedEpoch == Activities(es, o.session)
    ensures l.disposition == o.state
    ensures NextFate(rank, es, e, i) == if o.state == PendingIdle && o.session == e.session then Invalidated else o.state
  {
    hide RowsFit, NextFate, AcceptedAt, Activities;
    RowsSay(rank, es, i, l, o);
    NextFateIs(rank, es, e, i, l, o);
  }

  /** Marking `hit` is what the fates do. */
  lemma MarkingFollows(rank: Rank, es: seq<Event>, e: Event, came: Positions, ledger: Ledger, outbox: Outbox, hit: set<string>)
    requires FactsFit(rank, es, came, ledger, outbox) && !AcceptedAt(es + [e], |es|)
    requires forall id | id in came ::
               && NextFate(rank, es, e, came[id]) == (if id in hit then Invalidated else outbox[id].state)
               && ledger[id].disposition == outbox[id].state
    ensures FactsFit(rank, es + [e], came, MarkedLedger(ledger, hit, Invalidated), MarkedOutbox(outbox, hit, Invalidated))
  {
    hide RowsFit, NextFate, AcceptedAt, Finds;
    FactsFollow(rank, es, e, came, ledger, outbox,
                MarkedLedger(ledger, hit, Invalidated), MarkedOutbox(outbox, hit, Invalidated));
  }

  /** An activity invalidates every waiting fact of its session. */
  lemma ActivityInvalidates(rank: Rank, es: seq<Event>, e: Event, came: Positions, ledger: Ledger, outbox: Outbox)
    requires FactsFit(rank, es, came, ledger, outbox) && e.Activity?
    ensures var hit := Stale(outbox, e.session, Activities(es, e.session) + 1);
            && hit == Waiting(outbox, e.session)
            && FactsFit(rank, es + [e], came, MarkedLedger(ledger, hit, Invalidated), MarkedOutbox(outbox, hit, Invalidated))
  {
    var hit := Stale(outbox, e.session, Activities(es, e.session) + 1);
    BringsNoFact(es, e);
    forall id | id in came
      ensures id in hit <==> id in Waiting(outbox, e.session)
      ensures NextFate(rank, es, e, came[id]) == if id in hit then Invalidated else outbox[id].state
      ensures ledger[id].disposition == outbox[id].state
    {
      OneStale(rank, es, e, came, ledger, outbox, id);
    }
    assert hit == Waiting(outbox, e.session);
    hide RowsFit, NextFate, AcceptedAt, Finds, Activities, Stale, Waiting, MarkedLedger, MarkedOutbox;
    MarkingFollows(rank, es, e, came, ledger, outbox, hit);
  }

  // ------------------------------------------------------------------- batches

  function DueIds(outbox: Outbox, now: int): set<string> {
    set id | id in outbox && outbox[id].state == PendingIdle && outbox[id].dueAt <= now
  }

  function IdKey(rank: Rank, outbox: Outbox): string -> SortKey {
    (id: string) => SortKey(if id in outbox then outbox[id].dueAt as real else 0.0, rank(id))
  }

  /** SELECT ... ORDER BY due_at_us, fact_id LIMIT limit */
  function HeadIds(rank: Rank, outbox: Outbox, now: int, limit: nat): seq<string>
    requires Ranked(rank)
  {
    Take(OrderBy(DueIds(outbox, now), IdKey(rank, outbox)), limit)
  }

  lemma {:induction false} HeadIsCounted(rank: Rank, outbox: Outbox, now: int, limit: nat)
    requires Ranked(rank)
    ensures var ids := HeadIds(rank, outbox, now, limit);
            var due := DueIds(outbox, now);
            && |ids| == Min(limit, |due|) && Sorted(ids, IdKey(rank, outbox))
            && (forall i, j | 0 <= i < j < |ids| :: ids[i] != ids[j])
            && (forall id | id in due :: id in ids <==> |AheadOf(due, IdKey(rank, outbox), id)| < limit)
            && (forall id | id in ids :: id in due)
  {
    var due, key := DueIds(outbox, now), IdKey(rank, outbox);
    OrderByLists(due, key);
    var q := OrderBy(due, key);
    hide OrderBy, IdKey, DueIds, AheadOf;
    forall id | id in due ensures id in Take(q, limit) <==> |AheadOf(due, key, id)| < limit {
      assert id in q;
      var k :| 0 <= k < |q| && q[k] == id;
      PlaceCountsAhead(q, due, key, k);
      PlaceInHead(q, limit, k);
    }
    forall id | id in Take(q, limit) ensures id in due {
      assert id in q;
    }
  }

  ghost function PlaceOf(came: Positions): string -> nat {
    (id: string) => if id in came then came[id] else 0
  }

  /** The due facts, by position and by id. */
  lemma DueByIds(rank: Rank, es: seq<Event>, came: Positions, ledger: Ledger, outbox: Outbox, now: int)
    requires FactsFit(rank, es, came, ledger, outbox)
    ensures DueSet(rank, es, now) == Image(DueIds(outbox, now), PlaceOf(came))
    ensures forall a, b | a in came && b in came && PlaceOf(came)(a) == PlaceOf(came)(b) :: a == b
    ensures forall id | id in came :: KeyFunction(rank, es)(came[id]) == IdKey(rank, outbox)(id)
  {
    forall id | id in came
      ensures outbox[id].state == FateOf(rank, es, came[id]) && outbox[id].dueAt == DueAt(es[came[id]])
      ensures id in DueIds(outbox, now) <==> came[id] in DueSet(rank, es, now)
    {
      RowsSay(rank, es, came[id], ledger[id], outbox[id]);
      assert came[id] in DueSet(rank, es, now) <==> Due(rank, es, now, came[id]);
    }
    forall i | i in DueSet(rank, es, now) ensures i in Image(DueIds(outbox, now), PlaceOf(came)) {
      assert Due(rank, es, now, i);
      assert PlaceOf(came)(es[i].fact.id) == i;
    }
    hide RowsFit;
  }

  /** The batch query selects the facts the history selects. */
  lemma HeadMatches(rank: Rank, es: seq<Event>, came: Positions, ledger: Ledger, outbox: Outbox,
                    now: int, limit: nat, id: string)
    requires FactsFit(rank, es, came, ledger, outbox) && Ranked(rank) && id in came
    ensures id in HeadIds(rank, outbox, now, limit) <==> Selects(rank, es, now, limit, came[id])
  {
    DueByIds(rank, es, came, ledger, outbox, now);
    HeadIsCounted(rank, outbox, now, limit);
    var due, place := DueIds(outbox, now), PlaceOf(came);
    assert came[id] in DueSet(rank, es, now) <==> Due(rank, es, now, came[id]);
    assert id in due <==> came[id] in DueSet(rank, es, now);
    if id in due {
      var ahead := AheadOf(due, IdKey(rank, outbox), id);
      assert AheadOf(DueSet(rank, es, now), KeyFunction(rank, es), came[id]) == Image(ahead, place);
      ImageSize(ahead, place);
    }
  }

  /** What a batch decides: does anyone watch the session? */
  function Verdict(epochs: Epochs, session: string): Fate {
    if session in epochs && epochs[session].observer then ShadowCandidate else Suppressed
  }

  function SettledOutbox(outbox: Outbox, ids: set<string>, epochs: Epochs): Outbox {
    map id | id in outbox ::
      if id in ids then outbox[id].(state := Verdict(epochs, outbox[id].session)) else outbox[id]
  }

  function SettledLedger(ledger: Ledger, ids: set<string>, epochs: Epochs): Ledger {
    map id | id in ledger ::
      if id in ids then ledger[id].(disposition := Verdict(epochs, ledger[id].session)) else ledger[id]
  }

  /** A waiting fact finds its session's epoch row, at the epoch it was accepted. */
  lemma WaitingMatchesEpoch(rank: Rank, es: seq<Event>, came: Positions, ledger: Ledger, outbox: Outbox,
                            epochs: Epochs, id: string)
    requires FactsFit(rank, es, came, ledger, outbox) && EpochsFit(es, outbox, epochs)
    requires id in outbox && outbox[id].state == PendingIdle
    ensures outbox[id].session in epochs && epochs[outbox[id].session].epoch == outbox[id].acceptedEpoch
    ensures epochs[outbox[id].session].observer <==> outbox[id].acceptedEpoch >= 1
  {
    RowsSay(rank, es, came[id], ledger[id], outbox[id]);
    hide RowsFit;
  }

  /** Settling the head of the queue is what the history says a batch does. */
  lemma BatchSettles(rank: Rank, es: seq<Event>, e: Event, came: Positions, ledger: Ledger, outbox: Outbox, epochs: Epochs)
    requires FactsFit(rank, es, came, ledger, outbox) && EpochsFit(es, outbox, epochs) && Ranked(rank)
    requires e.Evaluate? && GoodLimit(e.limit)
    ensures var ids := Elements(HeadIds(rank, outbox, e.now, e.limit));
            FactsFit(rank, es + [e], came, SettledLedger(ledger, ids, epochs), SettledOutbox(outbox, ids, epochs))
  {
    hide RowsFit, NextFate, AcceptedAt, Finds, HeadIds, Selects, AheadOf, IdKey, LastSeen, Activities, EpochsFit,
         FateOf, RepeatedAt;
    var head := HeadIds(rank, outbox, e.now, e.limit);
    HeadIsCounted(rank, outbox, e.now, e.limit);
    BringsNoFact(es, e);
    forall id | id in came
      ensures outbox[id].session == ledger[id].session && ledger[id].disposition == outbox[id].state
      ensures NextFate(rank, es, e, came[id]) == if id in head then Verdict(epochs, outbox[id].session) else outbox[id].state
    {
      RowsSay(rank, es, came[id], ledger[id], outbox[id]);
      NextFateIs(rank, es, e, came[id], ledger[id], outbox[id]);
      HeadMatches(rank, es, came, ledger, outbox, e.now, e.limit, id);
      if outbox[id].state == PendingIdle {
        WaitingMatchesEpoch(rank, es, came, ledger, outbox, epochs, id);
      }
    }
    hide DueIds;
    FactsFollow(rank, es, e, came, ledger, outbox,
                SettledLedger(ledger, Elements(head), epochs), SettledOutbox(outbox, Elements(head), epochs));
  }

  // ------------------------------------------------------------ counting fates

  lemma StateMoves(outbox: Outbox, id: string, fate: Fate, f: Fate)
    requires id in outbox && outbox[id].state == PendingIdle && fate != PendingIdle && f != PendingIdle
    ensures |InState(outbox[id := outbox[id].(state := fate)], f)| == |InState(outbox, f)| + if f == fate then 1 else 0
  {
    var before, after := InState(outbox, f), InState(outbox[id := outbox[id].(state := fate)], f);
    assert id !in before;
    if f == fate {
      assert after == before + {id};
    } else {
      assert after == before;
    }
  }

  lemma OneSettles(outbox: Outbox, metrics: Metrics, id: string, fate: Fate, at: int)
    requires FatesCounted(outbox, metrics) && id in outbox && outbox[id].state == PendingIdle && fate != PendingIdle
    ensures FatesCounted(outbox[id := outbox[id].(state := fate)], Bumped(metrics, FateMetric(fate), at, 1))
  {
    hide Total, Bumped, InState;
    forall f | f != PendingIdle
      ensures Total(Bumped(metrics, FateMetric(fate), at, 1), FateMetric(f))
           == |InState(outbox[id := outbox[id].(state := fate)], f)|
    {
      BumpAdds(metrics, FateMetric(fate), at, 1, FateMetric(f));
      StateMoves(outbox, id, fate, f);
    }
  }

  lemma ManyInvalidated(outbox: Outbox, metrics: Metrics, ids: set<string>, at: int)
    requires FatesCounted(outbox, metrics)
    requires forall id | id in ids :: id in outbox && outbox[id].state == PendingIdle
    ensures FatesCounted(MarkedOutbox(outbox, ids, Invalidated), Bumped(metrics, FateMetric(Invalidated), at, |ids|))
  {
    var after := MarkedOutbox(outbox, ids, Invalidated);
    hide Total, Bumped;
    forall f | f != PendingIdle
      ensures Total(Bumped(metrics, FateMetric(Invalidated), at, |ids|), FateMetric(f)) == |InState(after, f)|
    {
      BumpAdds(metrics, FateMetric(Invalidated), at, |ids|, FateMetric(f));
      assert InState(after, f) == if f == Invalidated then InState(outbox, f) + ids else InState(outbox, f);
      assert InState(outbox, f) * ids == {};
    }
  }

  lemma OtherBump(outbox: Outbox, metrics: Metrics, name: Metric, at: int, n: nat)
    requires FatesCounted(outbox, metrics) && !name.FateMetric?
    ensures FatesCounted(outbox, Bumped(metrics, name, at, n))
  {
    hide Total, Bumped;
    forall f | f != PendingIdle
      ensures Total(Bumped(metrics, name, at, n), FateMetric(f)) == |InState(outbox, f)|
    {
      BumpAdds(metrics, name, at, n, FateMetric(f));
    }
  }

  // ------------------------------------------------------------- whole metrics

  lemma MetricsAfterAccept(ledger: Ledger, outbox: Outbox, epochs: Epochs, metrics: Metrics, f: Fact, epoch: nat, dueAt: int)
    requires MetricsFit(ledger, outbox, epochs, metrics) && f.id !in ledger && f.id !in outbox
    ensures MetricsFit(ledger[f.id := NewLedgerRow(f, epoch)], outbox[f.id := NewOutboxRow(f, epoch, dueAt)],
                       epochs, Bumped(metrics, AcceptedMetric, f.observedAt, 1))
  {
    var sent := outbox[f.id := NewOutboxRow(f, epoch, dueAt)];
    assert forall fate | fate != PendingIdle :: InState(sent, fate) == InState(outbox, fate);
    assert FatesCounted(sent, metrics);
    OtherBump(sent, metrics, AcceptedMetric, f.observedAt, 1);
    BumpAdds(metrics, AcceptedMetric, f.observedAt, 1, AcceptedMetric);
    BumpAdds(metrics, AcceptedMetric, f.observedAt, 1, ActivityMetric);
    hide FatesCounted, Total, Bumped;
  }

  lemma MetricsAfterDuplicate(ledger: Ledger, outbox: Outbox, epochs: Epochs, metrics: Metrics, at: int)
    requires MetricsFit(ledger, outbox, epochs, metrics)
    ensures MetricsFit(ledger, outbox, epochs, Bumped(metrics, DuplicateMetric, at, 1))
  {
    OtherBump(outbox, metrics, DuplicateMetric, at, 1);
    BumpAdds(metrics, DuplicateMetric, at, 1, AcceptedMetric);
    BumpAdds(metrics, DuplicateMetric, at, 1, ActivityMetric);
    hide FatesCounted, Total, Bumped;
  }

  /** A new epoch row counts for nothing. */
  lemma EpochRowCountsNothing(epochs: Epochs, session: string)
    requires session !in epochs
    ensures EpochSum(epochs[session := EpochRow(0, false, None)]) == EpochSum(epochs)
  {
    assert EpochCounts(epochs[session := EpochRow(0, false, None)]) == EpochCounts(epochs)[session := 0];
    SumUpdates(EpochCounts(epochs), session, 0);
  }

  function NextEpoch(epochs: Epochs, session: string, at: int): EpochRow {
    EpochRow(if session in epochs then epochs[session].epoch + 1 else 1, true, Some(at))
  }

  lemma EpochSumGrows(epochs: Epochs, session: string, at: int)
    ensures EpochSum(epochs[session := NextEpoch(epochs, session, at)]) == EpochSum(epochs) + 1
  {
    var row := NextEpoch(epochs, session, at);
    assert EpochCounts(epochs[session := row]) == EpochCounts(epochs)[session := row.epoch];
    SumUpdates(EpochCounts(epochs), session, row.epoch);
  }

  lemma MetricsAfterActivity(ledger: Ledger, outbox: Outbox, epochs: Epochs, metrics: Metrics, session: string,
                             hit: set<string>, at: int)
    requires MetricsFit(ledger, outbox, epochs, metrics)
    requires forall id | id in hit :: id in outbox && outbox[id].state == PendingIdle
    ensures MetricsFit(MarkedLedger(ledger, hit, Invalidated), MarkedOutbox(outbox, hit, Invalidated),
                       epochs[session := NextEpoch(epochs, session, at)],
                       Bumped(Bumped(metrics, ActivityMetric, at, 1), FateMetric(Invalidated), at, |hit|))
  {
    var counted := Bumped(metrics, ActivityMetric, at, 1);
    OtherBump(outbox, metrics, ActivityMetric, at, 1);
    BumpAdds(metrics, ActivityMetric, at, 1, AcceptedMetric);
    BumpAdds(metrics, ActivityMetric, at, 1, ActivityMetric);
    ManyInvalidated(outbox, counted, hit, at);
    BumpAdds(counted, FateMetric(Invalidated), at, |hit|, AcceptedMetric);
    BumpAdds(counted, FateMetric(Invalidated), at, |hit|, ActivityMetric);
    EpochSumGrows(epochs, session, at);
    assert MarkedLedger(ledger, hit, Invalidated).Keys == ledger.Keys;
    SameSize(MarkedLedger(ledger, hit, Invalidated), ledger);
    hide FatesCounted, Total, Bumped, MarkedLedger, MarkedOutbox, EpochSum, NextEpoch;
  }

  lemma SameSize(a: Ledger, b: Ledger)
    requires a.Keys == b.Keys
    ensures |a| == |b|
  {
    assert |a| == |a.Keys| && |b| == |b.Keys|;
  }

  lemma MetricsAfterSettling(ledger: Ledger, outbox: Outbox, epochs: Epochs, metrics: Metrics, id: string,
                             fate: Fate, at: int)
    requires MetricsFit(ledger, outbox, epochs, metrics) && id in outbox && id in ledger
    requires outbox[id].state == PendingIdle && fate != PendingIdle
    ensures MetricsFit(ledger[id := ledger[id].(disposition := fate)], outbox[id := outbox[id].(state := fate)],
                       epochs, Bumped(metrics, FateMetric(fate), at, 1))
  {
    OneSettles(outbox, metrics, id, fate, at);
    BumpAdds(metrics, FateMetric(fate), at, 1, AcceptedMetric);
    BumpAdds(metrics, FateMetric(fate), at, 1, ActivityMetric);
    hide FatesCounted, Total, Bumped;
  }

  // ------------------------------------------------------- the tables together

  datatype Tables = Tables(ledger: Ledger, outbox: Outbox, epochs: Epochs, metrics: Metrics)

  /** The four tables are what the calls make them. */
  ghost predicate Fit(rank: Rank, es: seq<Event>, came: Positions, t: Tables) {
    && Ranked(rank)
    && FactsFit(rank, es, came, t.ledger, t.outbox)
    && EpochsFit(es, t.outbox, t.epochs)
    && MetricsFit(t.ledger, t.outbox, t.epochs, t.metrics)
    && Daily(rank, es, t.metrics)
  }

  lemma FitAtFirst(rank: Rank)
    requires Ranked(rank)
    ensures Fit(rank, [], map[], Tables(map[], map[], map[], map[]))
  {
    assert forall name :: Named(map[], name) == map[];
    assert forall fate :: InState(map[], fate) == {};
    assert EpochCounts(map[]) == map[];
    forall c ensures CountedOn(rank, [], c) == {} {
      NothingCountedYet(rank, c);
    }
  }

  lemma FitAfterRefusal(rank: Rank, es: seq<Event>, e: Event, came: Positions, t: Tables)
    requires Fit(rank, es, came, t) && !AcceptedAt(es + [e], |es|) && !RepeatedAt(es + [e], |es|)
    requires !e.Activity? && !(e.Evaluate? && GoodLimit(e.limit))
    ensures Fit(rank, es + [e], came, t)
  {
    NothingNew(rank, es, e, came, t.ledger, t.outbox);
    EpochsStay(es, e, t.outbox, t.epochs);
    DailyStays(rank, es, e, t.metrics);
    hide FactsFit, EpochsFit, MetricsFit, Daily, AcceptedAt, RepeatedAt;
  }

  lemma EpochsStay(es: seq<Event>, e: Event, outbox: Outbox, epochs: Epochs)
    requires EpochsFit(es, outbox, epochs) && !e.Activity?
    ensures EpochsFit(es + [e], outbox, epochs)
  {
    Appended(es, e);
    hide Activities, AcceptedAt, LastSeen;
    forall s | s in epochs ensures LastSeen(es + [e], s, epochs[s].lastActivityAt) {
      SeenStill(es, e, s, epochs[s].lastActivityAt);
    }
  }

  lemma FitAfterDuplicate(rank: Rank, es: seq<Event>, e: Event, came: Positions, t: Tables)
    requires Fit(rank, es, came, t) && e.Accept? && !AcceptedAt(es + [e], |es|) && RepeatedAt(es + [e], |es|)
    ensures Fit(rank, es + [e], came, t.(metrics := Bumped(t.metrics, DuplicateMetric, e.fact.observedAt, 1)))
  {
    NothingNew(rank, es, e, came, t.ledger, t.outbox);
    EpochsStay(es, e, t.outbox, t.epochs);
    MetricsAfterDuplicate(t.ledger, t.outbox, t.epochs, t.metrics, e.fact.observedAt);
    DailyOnce(rank, es, e, t.metrics, DuplicateMetric);
    hide FactsFit, MetricsFit, EpochsFit, Daily, Bumped, AcceptedAt, RepeatedAt;
  }

  /** INSERT OR IGNORE of the session's epoch row. */
  function WithEpochRow(epochs: Epochs, session: string): Epochs {
    if session in epochs then epochs else epochs[session := EpochRow(0, false, None)]
  }

  function Accepted(t: Tables, f: Fact, dueAt: int): Tables {
    var epochs := WithEpochRow(t.epochs, f.session);
    var epoch := epochs[f.session].epoch;
    Tables(t.ledger[f.id := NewLedgerRow(f, epoch)], t.outbox[f.id := NewOutboxRow(f, epoch, dueAt)],
           epochs, Bumped(t.metrics, AcceptedMetric, f.observedAt, 1))
  }

  lemma FitAfterAccept(rank: Rank, es: seq<Event>, e: Event, came: Positions, t: Tables)
    requires Fit(rank, es, came, t) && e.Accept? && AcceptedAt(es + [e], |es|)
    ensures Fit(rank, es + [e], came[e.fact.id := |es|], Accepted(t, e.fact, DueAt(e)))
    ensures Accepted(t, e.fact, DueAt(e)).epochs[e.fact.session].epoch == Activities(es, e.fact.session)
  {
    var f := e.fact;
    NewIsNoRepeat(es, e);
    DailyOnce(rank, es, e, t.metrics, AcceptedMetric);
    hide Daily, RepeatedAt, Bumped;
    var epochs := WithEpochRow(t.epochs, f.session);
    EpochsAfterAccept(es, e, t.outbox, t.epochs);
    FactComes(rank, es, e, came, t.ledger, t.outbox);
    ClashIsInLedger(rank, es, e, came, t.ledger, t.outbox);
    assert f.id !in t.outbox;
    if f.session !in t.epochs {
      EpochRowCountsNothing(t.epochs, f.session);
    }
    hide FactsFit, EpochsFit, Activities, AcceptedAt, EpochSum, FatesCounted, Total;
    assert MetricsFit(t.ledger, t.outbox, epochs, t.metrics);
    hide MetricsFit;
    MetricsAfterAccept(t.ledger, t.outbox, epochs, t.metrics, f, epochs[f.session].epoch, DueAt(e));
  }

  lemma NewIsNoRepeat(es: seq<Event>, e: Event)
    requires e.Accept? && AcceptedAt(es + [e], |es|)
    ensures !RepeatedAt(es + [e], |es|)
  {
  }

  lemma EpochsAfterAccept(es: seq<Event>, e: Event, outbox: Outbox, epochs: Epochs)
    requires EpochsFit(es, outbox, epochs) && e.Accept?
    ensures var after := WithEpochRow(epochs, e.fact.session);
            && after[e.fact.session].epoch == Activities(es, e.fact.session)
            && EpochsFit(es + [e], outbox[e.fact.id := NewOutboxRow(e.fact, after[e.fact.session].epoch, DueAt(e))], after)
  {
    var session := e.fact.session;
    if session !in epochs {
      NeverSeen(es, session);
    }
    hide Activities, AcceptedAt, LastSeen;
    assert EpochsFit(es, outbox, WithEpochRow(epochs, session));
    EpochsStay(es, e, outbox, WithEpochRow(epochs, session));
    Appended(es, e);
  }

  function Disturbed(t: Tables, session: string, at: int): Tables {
    var row := NextEpoch(t.epochs, session, at);
    var hit := Stale(t.outbox, session, row.epoch);
    Tables(MarkedLedger(t.ledger, hit, Invalidated), MarkedOutbox(t.outbox, hit, Invalidated),
           t.epochs[session := row],
           Bumped(Bumped(t.metrics, ActivityMetric, at, 1), FateMetric(Invalidated), at, |hit|))
  }

  lemma FitAfterActivity(rank: Rank, es: seq<Event>, session: string, at: int, came: Positions, t: Tables)
    requires Fit(rank, es, came, t)
    ensures var e := Activity(session, at);
            var epoch := NextEpoch(t.epochs, session, at).epoch;
            && Fit(rank, es + [e], came, Disturbed(t, session, at))
            && epoch == Activities(es + [e], session) && Stale(t.outbox, session, epoch) == Waiting(t.outbox, session)
  {
    EpochGrows(es, session, at, t.outbox, t.epochs);
    DisturbedFacts(rank, es, session, at, came, t);
    DisturbedMetrics(t, session, at);
    WaitingIsCounted(rank, es, session, at, came, t.ledger, t.outbox);
    DailyActivity(rank, es, session, at, t.metrics, |Waiting(t.outbox, session)|);
    hide Daily, NewFates;
    EpochsAfterActivity(es, session, at, t.outbox, t.epochs, Stale(t.outbox, session, NextEpoch(t.epochs, session, at).epoch));
    assert Disturbed(t, session, at).epochs == t.epochs[session := NextEpoch(t.epochs, session, at)];
    hide FactsFit, EpochsFit, MetricsFit, Activities, NextEpoch, Stale, Waiting, Bumped, MarkedLedger, MarkedOutbox;
  }

  /** The facts an activity invalidates are the waiting ones of its session. */
  lemma WaitingIsCounted(rank: Rank, es: seq<Event>, session: string, at: int, came: Positions, ledger: Ledger, outbox: Outbox)
    requires FactsFit(rank, es, came, ledger, outbox)
    ensures |NewFates(rank, es, Activity(session, at), Invalidated)| == |Waiting(outbox, session)|
  {
    var e := Activity(session, at);
    var ids := Waiting(outbox, session);
    forall id | id in came ensures came[id] in NewFates(rank, es, e, Invalidated) <==> id in ids {
      RowsSay(rank, es, came[id], ledger[id], outbox[id]);
      FateAfter(rank, es, e, came[id]);
    }
    hide RowsFit, FateOf, AcceptedAt;
    assert NewFates(rank, es, e, Invalidated) == Image(ids, PlaceOf(came)) by {
      forall i | i in NewFates(rank, es, e, Invalidated) ensures i in Image(ids, PlaceOf(came)) {
        assert PlaceOf(came)(es[i].fact.id) == i && es[i].fact.id in ids;
      }
    }
    ImageSize(ids, PlaceOf(came));
  }

  lemma DisturbedFacts(rank: Rank, es: seq<Event>, session: string, at: int, came: Positions, t: Tables)
    requires FactsFit(rank, es, came, t.ledger, t.outbox)
    requires NextEpoch(t.epochs, session, at).epoch == Activities(es, session) + 1
    ensures var after := Disturbed(t, session, at);
            && FactsFit(rank, es + [Activity(session, at)], came, after.ledger, after.outbox)
            && Stale(t.outbox, session, NextEpoch(t.epochs, session, at).epoch) == Waiting(t.outbox, session)
  {
    hide FactsFit, Activities, NextEpoch, Stale, Waiting, Bumped, MarkedLedger, MarkedOutbox;
    ActivityInvalidates(rank, es, Activity(session, at), came, t.ledger, t.outbox);
  }

  lemma DisturbedMetrics(t: Tables, session: string, at: int)
    requires MetricsFit(t.ledger, t.outbox, t.epochs, t.metrics)
    ensures var after := Disturbed(t, session, at);
            MetricsFit(after.ledger, after.outbox, after.epochs, after.metrics)
  {
    var hit := Stale(t.outbox, session, NextEpoch(t.epochs, session, at).epoch);
    StaleIsPending(t.outbox, session, NextEpoch(t.epochs, session, at).epoch);
    hide MetricsFit, NextEpoch, Stale, Bumped, MarkedLedger, MarkedOutbox;
    MetricsAfterActivity(t.ledger, t.outbox, t.epochs, t.metrics, session, hit, at);
  }

  lemma StaleIsPending(outbox: Outbox, session: string, epoch: nat)
    ensures forall id | id in Stale(outbox, session, epoch) :: id in outbox && outbox[id].state == PendingIdle
  {
  }

  lemma EpochGrows(es: seq<Event>, session: string, at: int, outbox: Outbox, epochs: Epochs)
    requires EpochsFit(es, outbox, epochs)
    ensures NextEpoch(epochs, session, at).epoch == Activities(es, session) + 1 == Activities(es + [Activity(session, at)], session)
  {
    Appended(es, Activity(session, at));
    hide Activities;
  }

  lemma EpochsAfterActivity(es: seq<Event>, session: string, at: int, outbox: Outbox, epochs: Epochs, hit: set<string>)
    requires EpochsFit(es, outbox, epochs)
    ensures EpochsFit(es + [Activity(session, at)], MarkedOutbox(outbox, hit, Invalidated),
                      epochs[session := NextEpoch(epochs, session, at)])
  {
    var e := Activity(session, at);
    Appended(es, e);
    SeenNow(es, session, at);
    hide Activities, LastSeen, AcceptedAt;
    forall s | s in epochs && s != session ensures LastSeen(es + [e], s, epochs[s].lastActivityAt) {
      SeenStill(es, e, s, epochs[s].lastActivityAt);
    }
  }

  /** The accepted calls whose fact has the given fate. */
  ghost function WithFate(rank: Rank, es: seq<Event>, fate: Fate): set<nat> {
    set i: nat | i < |es| && AcceptedAt(es, i) && FateOf(rank, es, i) == fate
  }

  /** Each state holds as many rows as there are accepted calls with that fate. */
  lemma StatesCountCalls(rank: Rank, es: seq<Event>, came: Positions, t: Tables, fate: Fate)
    requires Fit(rank, es, came, t)
    ensures |InState(t.outbox, fate)| == |WithFate(rank, es, fate)|
  {
    var ids := InState(t.outbox, fate);
    forall id | id in came ensures came[id] in WithFate(rank, es, fate) <==> id in ids {
      RowsSay(rank, es, came[id], t.ledger[id], t.outbox[id]);
    }
    assert WithFate(rank, es, fate) == Image(ids, PlaceOf(came)) by {
      forall i | i in WithFate(rank, es, fate) ensures i in Image(ids, PlaceOf(came)) {
        assert PlaceOf(came)(es[i].fact.id) == i && es[i].fact.id in ids;
      }
    }
    assert forall a, b | a in came && b in came && came[a] == came[b] :: a == b;
    ImageSize(ids, PlaceOf(came));
  }

  /**
    Facts are conserved: over all dates the accepted ones are those still
    waiting plus those the other three metrics counted, and each metric counts
    the calls with that fate. Activity is the sum of the session epochs, and each
    epoch the number of activities of its session.
  */
  lemma FactsAreConserved(rank: Rank, es: seq<Event>, came: Positions, t: Tables)
    requires Fit(rank, es, came, t)
    ensures Total(t.metrics, AcceptedMetric) == |t.ledger|
         == |WithFate(rank, es, PendingIdle)| + Total(t.metrics, FateMetric(Invalidated))
            + Total(t.metrics, FateMetric(Suppressed)) + Total(t.metrics, FateMetric(ShadowCandidate))
    ensures forall fate | fate != PendingIdle :: Total(t.metrics, FateMetric(fate)) == |WithFate(rank, es, fate)|
    ensures Total(t.metrics, ActivityMetric) == EpochSum(t.epochs)
    ensures forall session | session in t.epochs :: t.epochs[session].epoch == Activities(es, session)
  {
    forall fate ensures |InState(t.outbox, fate)| == |WithFate(rank, es, fate)| {
      StatesCountCalls(rank, es, came, t, fate);
    }
    FitMeans(rank, es, came, t);
    assert FatesCounted(t.outbox, t.metrics);
    StatesPartition(t.outbox);
    assert |t.ledger| == |t.ledger.Keys|;
    hide Fit, WithFate, InState, Total;
  }

  // --------------------------------------------------------------- batch loop

  function Settled(t: Tables, ids: set<string>, metrics: Metrics): Tables {
    Tables(SettledLedger(t.ledger, ids, t.epochs), SettledOutbox(t.outbox, ids, t.epochs), t.epochs, metrics)
  }

  lemma FitAfterBatch(rank: Rank, es: seq<Event>, now: int, limit: int, came: Positions, t: Tables, metrics: Metrics)
    requires Fit(rank, es, came, t) && GoodLimit(limit)
    requires var after := Settled(t, Elements(HeadIds(rank, t.outbox, now, limit)), metrics);
             MetricsFit(after.ledger, after.outbox, after.epochs, after.metrics)
    requires Daily(rank, es + [Evaluate(now, limit)], metrics)
    ensures Fit(rank, es + [Evaluate(now, limit)], came,
                Settled(t, Elements(HeadIds(rank, t.outbox, now, limit)), metrics))
  {
    var e := Evaluate(now, limit);
    BatchSettles(rank, es, e, came, t.ledger, t.outbox, t.epochs);
    EpochsAfterBatch(es, e, t.outbox, t.epochs, Elements(HeadIds(rank, t.outbox, now, limit)));
    hide FactsFit, EpochsFit, MetricsFit, Daily, HeadIds, SettledLedger, SettledOutbox;
  }

  lemma EpochsAfterBatch(es: seq<Event>, e: Event, outbox: Outbox, epochs: Epochs, ids: set<string>)
    requires EpochsFit(es, outbox, epochs) && e.Evaluate?
    ensures EpochsFit(es + [e], SettledOutbox(outbox, ids, epochs), epochs)
  {
    EpochsStay(es, e, outbox, epochs);
    hide Activities, Verdict, LastSeen;
  }

  lemma OneMoreSettled(t: Tables, ids: seq<string>, n: nat)
    requires n < |ids| && t.ledger.Keys == t.outbox.Keys && ids[n] in t.outbox
    requires t.ledger[ids[n]].session == t.outbox[ids[n]].session
    requires forall i, j | 0 <= i < j < |ids| :: ids[i] != ids[j]
    ensures var before, after := Settled(t, Elements(ids[..n]), t.metrics), Settled(t, Elements(ids[..n + 1]), t.metrics);
            var state := Verdict(t.epochs, t.outbox[ids[n]].session);
            && ids[n] in before.outbox && before.outbox[ids[n]] == t.outbox[ids[n]]
            && ids[n] in before.ledger && before.ledger[ids[n]] == t.ledger[ids[n]]
            && after.outbox == before.outbox[ids[n] := t.outbox[ids[n]].(state := state)]
            && after.ledger == before.ledger[ids[n] := t.ledger[ids[n]].(disposition := state)]
  {
    assert ids[..n + 1] == ids[..n] + [ids[n]];
    assert Elements(ids[..n + 1]) == Elements(ids[..n]) + {ids[n]};
    assert ids[n] !in Elements(ids[..n]);
    hide Verdict, Elements;
  }

  lemma NoneSettled(t: Tables, ids: seq<string>)
    ensures Settled(t, Elements(ids[..0]), t.metrics) == t
  {
    assert Elements(ids[..0]) == {};
  }

  /** What a batch says of one fact it settles. */
  ghost predicate Reports(rank: Rank, es: seq<Event>, e: Event, came: Positions, v: Evaluation)
    requires e.Evaluate?
  {
    && v.fact in came && came[v.fact] < |es| && AcceptedAt(es, came[v.fact]) && Selects(rank, es, e.now, e.limit, came[v.fact])
    && v.session == es[came[v.fact]].fact.session
    && v.state == FateOf(rank, es + [e], came[v.fact])
    && v.acceptedEpoch == v.currentEpoch == Activities(es, v.session)
  }

  /** A fact at the head of the queue, as the batch loop meets it. */
  lemma HeadRow(rank: Rank, es: seq<Event>, now: int, limit: int, came: Positions, t: Tables, id: string)
    requires Fit(rank, es, came, t) && GoodLimit(limit) && id in HeadIds(rank, t.outbox, now, limit)
    ensures id in t.outbox && id in t.ledger && id in came && t.outbox[id].state == PendingIdle
    ensures t.ledger.Keys == t.outbox.Keys && t.ledger[id].session == t.outbox[id].session
    ensures t.outbox[id].session in t.epochs
            && t.epochs[t.outbox[id].session].epoch == t.outbox[id].acceptedEpoch
    ensures Reports(rank, es, Evaluate(now, limit), came,
                    Evaluation(id, t.outbox[id].session, t.outbox[id].acceptedEpoch, t.outbox[id].acceptedEpoch,
                               Verdict(t.epochs, t.outbox[id].session)))
  {
    var e := Evaluate(now, limit);
    HeadIsCounted(rank, t.outbox, now, limit);
    assert id in DueIds(t.outbox, now);
    hide RowsFit, NextFate, HeadIds, Selects, AheadOf, IdKey, MetricsFit;
    WaitingMatchesEpoch(rank, es, came, t.ledger, t.outbox, t.epochs, id);
    RowsSay(rank, es, came[id], t.ledger[id], t.outbox[id]);
    HeadMatches(rank, es, came, t.ledger, t.outbox, now, limit, id);
    NextFateIs(rank, es, e, came[id], t.ledger[id], t.outbox[id]);
    assert NextFate(rank, es, e, came[id]) == FateOf(rank, es + [e], came[id]) by { NextFateMeans(rank, es, e, came[id]); }
    hide FateOf, AcceptedAt, Finds;
  }

  lemma NextFateMeans(rank: Rank, es: seq<Event>, e: Event, i: nat)
    requires i < |es| && es[i].Accept?
    ensures NextFate(rank, es, e, i) == FateOf(rank, es + [e], i)
  {
    hide FateOf;
  }

  /** The batch is as long as it can be. */
  lemma HeadIsFull(rank: Rank, es: seq<Event>, now: int, limit: int, came: Positions, t: Tables)
    requires Fit(rank, es, came, t) && GoodLimit(limit)
    ensures |HeadIds(rank, t.outbox, now, limit)| == Min(limit, |DueSet(rank, es, now)|)
  {
    HeadIsCounted(rank, t.outbox, now, limit);
    DueByIds(rank, es, came, t.ledger, t.outbox, now);
    assert forall id | id in DueIds(t.outbox, now) :: id in came;
    hide IdKey, KeyFunction, HeadIds, DueSet;
    ImageSize(DueIds(t.outbox, now), PlaceOf(came));
  }

  /** The places of the evaluations with the given verdict. */
  ghost function Verdicts(vs: seq<Evaluation>, fate: Fate): set<nat> {
    set k: nat | k < |vs| && vs[k].state == fate
  }

  /** The cells of the day rose by the verdicts of the batch; no other cell moved. */
  ghost predicate Booked(before: Metrics, after: Metrics, now: int, vs: seq<Evaluation>) {
    forall c :: ValueOf(after, c) == ValueOf(before, c)
                  + if c.day == now / DAY && c.name.FateMetric? then |Verdicts(vs, c.name.fate)| else 0
  }

  lemma NothingBooked(metrics: Metrics, now: int)
    ensures Booked(metrics, metrics, now, [])
  {
    assert forall fate :: Verdicts([], fate) == {};
  }

  lemma OneMoreVerdict(vs: seq<Evaluation>, v: Evaluation, fate: Fate)
    ensures |Verdicts(vs + [v], fate)| == |Verdicts(vs, fate)| + if v.state == fate then 1 else 0
  {
    assert Verdicts(vs + [v], fate) == Verdicts(vs, fate) + if v.state == fate then {|vs|} else {};
  }

  lemma OneMoreBooked(before: Metrics, metrics: Metrics, now: int, vs: seq<Evaluation>, v: Evaluation)
    requires Booked(before, metrics, now, vs)
    ensures Booked(before, Bumped(metrics, FateMetric(v.state), now, 1), now, vs + [v])
  {
    hide Bumped, ValueOf, Verdicts;
    var after := Bumped(metrics, FateMetric(v.state), now, 1);
    forall c ensures ValueOf(after, c) == ValueOf(before, c)
                       + if c.day == now / DAY && c.name.FateMetric? then |Verdicts(vs + [v], c.name.fate)| else 0
    {
      BumpedCell(metrics, FateMetric(v.state), now, 1, c);
      if c.name.FateMetric? {
        OneMoreVerdict(vs, v, c.name.fate);
      }
    }
  }

  /** The evaluations are those of the facts at the head of the queue. */
  ghost predicate ReportsHead(rank: Rank, es: seq<Event>, now: int, limit: int, came: Positions, ids: seq<string>,
                              vs: seq<Evaluation>) {
    && |vs| == |ids|
    && forall k | 0 <= k < |vs| :: vs[k].fact == ids[k] && Reports(rank, es, Evaluate(now, limit), came, vs[k])
  }

  /** A batch gives as many facts a fate as it returns with that verdict. */
  lemma VerdictsAreFates(rank: Rank, es: seq<Event>, now: int, limit: int, came: Positions, t: Tables,
                         vs: seq<Evaluation>, fate: Fate)
    requires Fit(rank, es, came, t) && GoodLimit(limit)
    requires ReportsHead(rank, es, now, limit, came, HeadIds(rank, t.outbox, now, limit), vs)
    ensures |NewFates(rank, es, Evaluate(now, limit), fate)| == |Verdicts(vs, fate)|
  {
    var ids := HeadIds(rank, t.outbox, now, limit);
    VerdictsAreImage(rank, es, now, limit, came, t, ids, vs, fate);
    HeadIsCounted(rank, t.outbox, now, limit);
    hide Fit, HeadIds, IdKey, DueIds, AheadOf, NewFates;
    forall k | 0 <= k < |vs| ensures vs[k].fact == ids[k] && ids[k] in came {
      assert Reports(rank, es, Evaluate(now, limit), came, vs[k]);
    }
    hide ReportsHead, Reports;
    PlacesApart(rank, es, came, t, ids, vs, fate);
    hide PlaceAt, Verdicts;
    ImageSize(Verdicts(vs, fate), PlaceAt(came, vs));
  }

  lemma VerdictsAreImage(rank: Rank, es: seq<Event>, now: int, limit: int, came: Positions, t: Tables,
                         ids: seq<string>, vs: seq<Evaluation>, fate: Fate)
    requires Ranked(rank) && GoodLimit(limit) && ids == HeadIds(rank, t.outbox, now, limit)
    requires ReportsHead(rank, es, now, limit, came, ids, vs) && Fit(rank, es, came, t)
    ensures NewFates(rank, es, Evaluate(now, limit), fate) == Image(Verdicts(vs, fate), PlaceAt(came, vs))
  {
    var e := Evaluate(now, limit);
    var place := PlaceAt(came, vs);
    hide Ranked, Fit, HeadIds, NewFates, ReportsHead, RowsFit, AheadOf, IdKey, DueIds, FateOf, AcceptedAt, Selects;
    HeadLength(rank, es, now, limit, came, ids, vs);
    forall k: nat | k < |vs| ensures vs[k].fact == ids[k] && ids[k] in came
      ensures place(k) in NewFates(rank, es, e, fate) <==> k in Verdicts(vs, fate)
    {
      HeadFate(rank, es, now, limit, came, ids, vs, fate, k);
    }
    forall i | i in NewFates(rank, es, e, fate) ensures i in Image(Verdicts(vs, fate), place) {
      var k := FateInHead(rank, es, now, limit, came, t, fate, i);
      assert vs[k].fact == ids[k] && place(k) == i;
    }
  }

  lemma HeadLength(rank: Rank, es: seq<Event>, now: int, limit: int, came: Positions, ids: seq<string>, vs: seq<Evaluation>)
    requires ReportsHead(rank, es, now, limit, came, ids, vs)
    ensures |vs| == |ids|
  {
    hide Reports;
  }

  lemma HeadFate(rank: Rank, es: seq<Event>, now: int, limit: int, came: Positions, ids: seq<string>,
                 vs: seq<Evaluation>, fate: Fate, k: nat)
    requires ReportsHead(rank, es, now, limit, came, ids, vs) && GoodLimit(limit) && k < |vs|
    ensures k < |ids| && vs[k].fact == ids[k] && ids[k] in came
    ensures came[ids[k]] in NewFates(rank, es, Evaluate(now, limit), fate) <==> k in Verdicts(vs, fate)
  {
    hide Reports, NewFates;
    SelectedFate(rank, es, now, limit, came, vs[k], fate);
  }

  ghost function PlaceAt(came: Positions, vs: seq<Evaluation>): nat -> nat {
    (k: nat) => if k < |vs| && vs[k].fact in came then came[vs[k].fact] else 0
  }

  lemma PlacesApart(rank: Rank, es: seq<Event>, came: Positions, t: Tables, ids: seq<string>, vs: seq<Evaluation>, fate: Fate)
    requires Fit(rank, es, came, t) && |vs| == |ids|
    requires forall k | 0 <= k < |vs| :: vs[k].fact == ids[k] && ids[k] in came
    requires forall i, j | 0 <= i < j < |ids| :: ids[i] != ids[j]
    ensures var place := PlaceAt(came, vs);
            forall a, b | a in Verdicts(vs, fate) && b in Verdicts(vs, fate) && place(a) == place(b) :: a == b
  {
  }

  /** A fact whose fate the batch decides is at the head of the queue. */
  lemma FateInHead(rank: Rank, es: seq<Event>, now: int, limit: int, came: Positions, t: Tables, fate: Fate, i: nat)
    returns (k: nat)
    requires Fit(rank, es, came, t) && GoodLimit(limit) && i in NewFates(rank, es, Evaluate(now, limit), fate)
    ensures var ids := HeadIds(rank, t.outbox, now, limit);
            k < |ids| && ids[k] in came && came[ids[k]] == i
  {
    var ids := HeadIds(rank, t.outbox, now, limit);
    hide EpochsFit, MetricsFit, Daily, HeadIds, RowsFit, Selects;
    var id := es[i].fact.id;
    assert id in came && came[id] == i;
    FateAfter(rank, es, Evaluate(now, limit), i);
    HeadMatches(rank, es, came, t.ledger, t.outbox, now, limit, id);
    hide FateOf, AcceptedAt;
    k :| k < |ids| && ids[k] == id;
  }

  lemma SelectedFate(rank: Rank, es: seq<Event>, now: int, limit: int, came: Positions, v: Evaluation, fate: Fate)
    requires Reports(rank, es, Evaluate(now, limit), came, v) && GoodLimit(limit)
    ensures v.fact in came
    ensures came[v.fact] in NewFates(rank, es, Evaluate(now, limit), fate) <==> v.state == fate
  {
    assert Due(rank, es, now, came[v.fact]);
    FateAfter(rank, es, Evaluate(now, limit), came[v.fact]);
    hide FateOf;
  }

  lemma DailyBatch(rank: Rank, es: seq<Event>, now: int, limit: int, came: Positions, t: Tables, metrics: Metrics,
                   vs: seq<Evaluation>)
    requires Fit(rank, es, came, t) && GoodLimit(limit)
    requires ReportsHead(rank, es, now, limit, came, HeadIds(rank, t.outbox, now, limit), vs)
    requires Booked(t.metrics, metrics, now, vs) && NoneEmpty(metrics)
    ensures Daily(rank, es + [Evaluate(now, limit)], metrics)
  {
    var e := Evaluate(now, limit);
    hide HeadIds, ReportsHead, Fit, NoneEmpty, NewFates, Verdicts, ValueOf;
    BringsNoFact(es, e);
    forall c ensures ValueOf(metrics, c)
        == ValueOf(t.metrics, c) + if TimeOf(e) / DAY == c.day then |NewlyCounted(rank, es, e, c.name)| else 0
    {
      if c.name.FateMetric? {
        VerdictsAreFates(rank, es, now, limit, came, t, vs, c.name.fate);
      }
    }
    hide NewlyCounted;
    FitMeans(rank, es, came, t);
    DailyGrows(rank, es, e, t.metrics, metrics);
  }

  // ----------------------------------------------------- which facts a batch takes

  /** The fact `id` waits and its idle delay has run out. */
  ghost predicate Overdue(rank: Rank, es: seq<Event>, came: Positions, now: int, id: string) {
    && id in came && came[id] < |es| && AcceptedAt(es, came[id]) && FateOf(rank, es, came[id]) == PendingIdle
    && es[came[id]].fact.observedAt + es[came[id]].delay <= now
  }

  /** By deadline, and by id within the same deadline. */
  ghost predicate Sooner(rank: Rank, es: seq<Event>, came: Positions, a: string, b: string)
    requires a in came && came[a] < |es| && es[came[a]].Accept?
    requires b in came && came[b] < |es| && es[came[b]].Accept?
  {
    var x, y := es[came[a]], es[came[b]];
    var dx, dy := x.fact.observedAt + x.delay, y.fact.observedAt + y.delay;
    dx < dy || (dx == dy && rank(a) < rank(b))
  }

  /** The batch holds overdue facts in order, and leaves one only for `limit` sooner ones. */
  ghost predicate RightBatch(rank: Rank, es: seq<Event>, came: Positions, now: int, limit: int, ids: seq<string>) {
    && |ids| <= limit
    && (forall k | 0 <= k < |ids| :: Overdue(rank, es, came, now, ids[k]))
    && (forall j, k | 0 <= j < k < |ids| :: Sooner(rank, es, came, ids[j], ids[k]))
    && (forall id | Overdue(rank, es, came, now, id) && id !in ids ::
          |ids| == limit && forall k | 0 <= k < |ids| :: Sooner(rank, es, came, ids[k], id))
  }

  lemma HeadIsSoonest(rank: Rank, outbox: Outbox, now: int, limit: nat, id: string)
    requires Ranked(rank) && id in DueIds(outbox, now) && id !in HeadIds(rank, outbox, now, limit)
    ensures var ids := HeadIds(rank, outbox, now, limit);
            |ids| == limit && forall k | 0 <= k < |ids| :: Before(IdKey(rank, outbox)(ids[k]), IdKey(rank, outbox)(id))
  {
    var due, key := DueIds(outbox, now), IdKey(rank, outbox);
    OrderByLists(due, key);
    var q := OrderBy(due, key);
    hide OrderBy, IdKey, DueIds;
    var k: nat :| k < |q| && q[k] == id;
    PlaceInHead(q, limit, k);
  }

  lemma OverdueIsDue(rank: Rank, es: seq<Event>, came: Positions, ledger: Ledger, outbox: Outbox, now: int, id: string)
    requires FactsFit(rank, es, came, ledger, outbox)
    ensures Overdue(rank, es, came, now, id) <==> id in DueIds(outbox, now)
    ensures id in came ==> id in outbox && came[id] < |es| && es[came[id]].Accept?
                           && outbox[id].dueAt == es[came[id]].fact.observedAt + es[came[id]].delay
  {
    if id in came {
      RowsSay(rank, es, came[id], ledger[id], outbox[id]);
    }
    hide RowsFit, FateOf;
  }

  lemma SoonerIsBefore(rank: Rank, es: seq<Event>, came: Positions, ledger: Ledger, outbox: Outbox, a: string, b: string)
    requires FactsFit(rank, es, came, ledger, outbox) && a in came && b in came
    ensures es[came[a]].Accept? && es[came[b]].Accept?
    ensures Sooner(rank, es, came, a, b) <==> Before(IdKey(rank, outbox)(a), IdKey(rank, outbox)(b))
  {
    OverdueIsDue(rank, es, came, ledger, outbox, 0, a);
    OverdueIsDue(rank, es, came, ledger, outbox, 0, b);
    hide RowsFit, FateOf, AcceptedAt;
  }

  lemma HeadIsRight(rank: Rank, es: seq<Event>, came: Positions, ledger: Ledger, outbox: Outbox, now: int, limit: nat)
    requires FactsFit(rank, es, came, ledger, outbox) && Ranked(rank)
    ensures RightBatch(rank, es, came, now, limit, HeadIds(rank, outbox, now, limit))
  {
    var ids := HeadIds(rank, outbox, now, limit);
    HeadIsCounted(rank, outbox, now, limit);
    hide HeadIds, IdKey, Sooner, AheadOf;
    forall id ensures Overdue(rank, es, came, now, id) <==> id in DueIds(outbox, now) {
      OverdueIsDue(rank, es, came, ledger, outbox, now, id);
    }
    hide DueIds, FactsFit;
    forall k | 0 <= k < |ids| ensures Overdue(rank, es, came, now, ids[k]) {
      assert ids[k] in ids;
    }
    forall j, k | 0 <= j < k < |ids| ensures Sooner(rank, es, came, ids[j], ids[k]) {
      SoonerIsBefore(rank, es, came, ledger, outbox, ids[j], ids[k]);
    }
    forall id | Overdue(rank, es, came, now, id) && id !in ids
      ensures |ids| == limit && forall k | 0 <= k < |ids| :: Sooner(rank, es, came, ids[k], id)
    {
      HeadIsSoonest(rank, outbox, now, limit, id);
      forall k | 0 <= k < |ids| ensures Sooner(rank, es, came, ids[k], id) {
        SoonerIsBefore(rank, es, came, ledger, outbox, ids[k], id);
      }
    }
  }

  function FactsIn(vs: seq<Evaluation>): seq<string> {
    seq(|vs|, k requires 0 <= k < |vs| => vs[k].fact)
  }

  // ------------------------------------------------------------------ the store

  /** An accepted fact with the same idempotency key. */
  ghost predicate Repeats(es: seq<Event>, i: nat, fact: Fact) {
    i < |es| && AcceptedAt(es, i) && es[i].fact.key == fact.key
  }

  ghost function AcceptanceOf(rank: Rank, es: seq<Event>, i: nat): Acceptance
    requires i < |es| && AcceptedAt(es, i)
  {
    Acceptance(true, es[i].fact.id, Activities(es[..i], es[i].fact.session), FateOf(rank, es, i))
  }

  /** How `accept` must answer, given the calls before it. */
  ghost predicate Answers(rank: Rank, es: seq<Event>, fact: Fact, delay: int, r: Result<Acceptance>) {
    if !GoodDelay(delay) then r == Err(InvalidValue)
    else if exists i: nat :: Repeats(es, i, fact) then
      exists i: nat :: Repeats(es, i, fact)
        && r == if es[i].fact.digest != fact.digest then Err(IdempotencyConflict) else Ok(AcceptanceOf(rank, es, i))
    else if exists i: nat | i < |es| && AcceptedAt(es, i) :: es[i].fact.id == fact.id then r == Err(IdReused)
    else r == Ok(Acceptance(false, fact.id, Activities(es, fact.session), PendingIdle))
  }

  lemma LedgerAnswersRepeat(rank: Rank, es: seq<Event>, came: Positions, t: Tables, id: string, fact: Fact, delay: int)
    requires Fit(rank, es, came, t) && id in t.ledger && t.ledger[id].key == fact.key && GoodDelay(delay)
    ensures Answers(rank, es, fact, delay,
                    if t.ledger[id].digest != fact.digest then Err(IdempotencyConflict)
                    else Ok(Acceptance(true, id, t.ledger[id].acceptedEpoch, t.ledger[id].disposition)))
    ensures !AcceptedAt(es + [Accept(fact, delay)], |es|)
    ensures RepeatedAt(es + [Accept(fact, delay)], |es|) <==> t.ledger[id].digest == fact.digest
  {
    hide RepeatedAt, EpochsFit, MetricsFit, Daily, LastSeen, Activities, RowsFit, FateOf;
    ClashIsInLedger(rank, es, Accept(fact, delay), came, t.ledger, t.outbox);
    RowsSay(rank, es, came[id], t.ledger[id], t.outbox[id]);
    RepeatsOnly(es, Accept(fact, delay), came[id]);
    var i := came[id];
    assert Repeats(es, i, fact) && es[i].fact.digest == t.ledger[id].digest;
    assert AcceptanceOf(rank, es, i) == Acceptance(true, id, t.ledger[id].acceptedEpoch, t.ledger[id].disposition);
    hide Fit, FactsFit, Finds, AcceptedAt, AcceptanceOf, Repeats;
  }

  /** Only one accepted fact has the key, so a repetition is of that fact. */
  lemma RepeatsOnly(es: seq<Event>, e: Event, i: nat)
    requires e.Accept? && GoodDelay(e.delay) && Repeats(es, i, e.fact)
    ensures RepeatedAt(es + [e], |es|) <==> es[i].fact.digest == e.fact.digest
  {
    Appended(es, e);
    forall j: nat | j < |es| && AcceptedAt(es, j) && es[j].fact.key == e.fact.key ensures j == i {
      if j != i {
        AcceptedApart(es, i, j);
      }
    }
    hide Activities, AcceptedAt;
  }

  lemma NoneRepeated(es: seq<Event>, e: Event)
    requires e.Accept? && forall i: nat :: !Repeats(es, i, e.fact)
    ensures !RepeatedAt(es + [e], |es|)
  {
    Appended(es, e);
    forall j: nat | j < |es| && AcceptedAt(es, j) ensures es[j].fact.key != e.fact.key {
      assert !Repeats(es, j, e.fact);
    }
    hide Activities, AcceptedAt;
  }

  lemma LedgerAnswersNew(rank: Rank, es: seq<Event>, came: Positions, t: Tables, fact: Fact, delay: int)
    requires Fit(rank, es, came, t) && GoodDelay(delay) && forall id | id in t.ledger :: t.ledger[id].key != fact.key
    ensures Answers(rank, es, fact, delay,
                    if fact.id in t.ledger then Err(IdReused)
                    else Ok(Acceptance(false, fact.id, Activities(es, fact.session), PendingIdle)))
    ensures AcceptedAt(es + [Accept(fact, delay)], |es|) <==> fact.id !in t.ledger
    ensures !RepeatedAt(es + [Accept(fact, delay)], |es|)
  {
    NoRepeats(rank, es, came, t.ledger, t.outbox, fact);
    NoneRepeated(es, Accept(fact, delay));
    hide RepeatedAt;
    ClashIsInLedger(rank, es, Accept(fact, delay), came, t.ledger, t.outbox);
    hide RowsFit, FateOf, EpochsFit, MetricsFit, Repeats;
  }

  lemma NoRepeats(rank: Rank, es: seq<Event>, came: Positions, ledger: Ledger, outbox: Outbox, fact: Fact)
    requires FactsFit(rank, es, came, ledger, outbox) && forall id | id in ledger :: ledger[id].key != fact.key
    ensures forall i: nat :: !Repeats(es, i, fact)
  {
    forall i: nat ensures !Repeats(es, i, fact) {
      if i < |es| && AcceptedAt(es, i) {
        RowsSay(rank, es, i, ledger[es[i].fact.id], outbox[es[i].fact.id]);
      }
    }
  }

  class Store {
    var ledger: Ledger
    var outbox: Outbox
    var epochs: Epochs
    var metrics: Metrics
    /** The text order of fact ids in the database. */
    const rank: Rank
    /** Every call so far, and which of them brought each fact. */
    ghost var history: seq<Event>
    ghost var came: Positions

    ghost function All(): Tables
      reads this
    {
      Tables(ledger, outbox, epochs, metrics)
    }

    ghost predicate Valid()
      reads this
    {
      Fit(rank, history, came, All())
    }

    constructor (rank: Rank)
      requires Ranked(rank)
      ensures Valid() && history == [] && this.rank == rank
    {
      ledger, outbox, epochs, metrics := map[], map[], map[], map[];
      history, came := [], map[];
      this.rank := rank;
      new;
      FitAtFirst(rank);
    }

    method Accept(fact: Fact, delay: int) returns (r: Result<Acceptance>)
      requires Valid()
      modifies this
      ensures Valid() && history == old(history) + [Event.Accept(fact, delay)]
      ensures Answers(rank, old(history), fact, delay, r)
      ensures r == Err(InvalidValue) <==> !(0 <= delay <= 604_800_000_000)
      ensures All() == match r
                       case Err(_) => old(All())
                       case Ok(a) =>
                         if a.duplicate then
                           old(All()).(metrics := Bumped(old(metrics), DuplicateMetric, fact.observedAt, 1))
                         else Accepted(old(All()), fact, fact.observedAt + delay)
    {
      hide Fit, Answers, AcceptedAt, RepeatedAt;
      ghost var es, e, t := history, Event.Accept(fact, delay), All();
      history := es + [e];
      if !GoodDelay(delay) {
        BadDelayIsRefused(rank, es, fact, delay);
        FitAfterRefusal(rank, es, e, came, t);
        return Err(InvalidValue);
      }
      if id :| id in ledger && ledger[id].key == fact.key {
        LedgerAnswersRepeat(rank, es, came, t, id, fact, delay);
        if ledger[id].digest != fact.digest {
          FitAfterRefusal(rank, es, e, came, t);
          return Err(IdempotencyConflict);
        }
        FitAfterDuplicate(rank, es, e, came, t);
        metrics := Bumped(metrics, DuplicateMetric, fact.observedAt, 1);
        return Ok(Acceptance(true, id, ledger[id].acceptedEpoch, ledger[id].disposition));
      }
      LedgerAnswersNew(rank, es, came, t, fact, delay);
      if fact.id in ledger {
        FitAfterRefusal(rank, es, e, came, t);
        return Err(IdReused);
      }
      FitAfterAccept(rank, es, e, came, t);
      came := came[fact.id := |es|];
      epochs := WithEpochRow(epochs, fact.session);
      var epoch := epochs[fact.session].epoch;
      ledger := ledger[fact.id := NewLedgerRow(fact, epoch)];
      outbox := outbox[fact.id := NewOutboxRow(fact, epoch, fact.observedAt + delay)];
      metrics := Bumped(metrics, AcceptedMetric, fact.observedAt, 1);
      return Ok(Acceptance(false, fact.id, epoch, PendingIdle));
    }

    method NoteActivity(session: string, at: int) returns (epoch: nat, invalidated: nat)
      requires Valid()
      modifies this
      ensures Valid() && history == old(history) + [Activity(session, at)]
      ensures epoch == Activities(history, session)
      ensures invalidated == |Waiting(old(outbox), session)|
      ensures All() == Disturbed(old(All()), session, at)
    {
      hide Fit;
      ghost var es, t := history, All();
      FitAfterActivity(rank, es, session, at, came, t);
      epochs := epochs[session := NextEpoch(epochs, session, at)];
      epoch := epochs[session].epoch;
      var hit := Stale(outbox, session, epoch);
      outbox := MarkedOutbox(outbox, hit, Invalidated);
      ledger := MarkedLedger(ledger, hit, Invalidated);
      metrics := Bumped(metrics, ActivityMetric, at, 1);
      metrics := Bumped(metrics, FateMetric(Invalidated), at, |hit|);
      history := es + [Activity(session, at)];
      return epoch, |hit|;
    }

    method EvaluateDue(now: int, limit: int) returns (r: Result<seq<Evaluation>>)
      requires Valid()
      modifies this
      ensures Valid() && history == old(history) + [Evaluate(now, limit)] && came == old(came)
      ensures !(1 <= limit <= 1000) ==> r == Err(InvalidValue) && All() == old(All())
      ensures 1 <= limit <= 1000 ==> r.Ok? && |r.value| == Min(limit, |DueSet(rank, old(history), now)|)
      // the overdue facts by deadline and id, up to the limit, each with the fate the history gives it
      ensures r.Ok? ==>
                && RightBatch(rank, old(history), came, now, limit, FactsIn(r.value))
                && (forall v | v in r.value :: Reports(rank, old(history), Evaluate(now, limit), came, v))
      // the day of the batch counts its verdicts; every other cell stays
      ensures r.Ok? ==> Booked(old(metrics), metrics, now, r.value)
    {
      hide Fit, HeadIds, Reports, Settled, Bumped, MetricsFit, DueSet, Selects, AcceptedAt, RepeatedAt, Booked,
           NoneEmpty, RightBatch, FactsFit, Daily;
      ghost var es, e, t := history, Evaluate(now, limit), All();
      if !GoodLimit(limit) {
        BringsNoFact(es, e);
        FitAfterRefusal(rank, es, e, came, t);
        history := es + [e];
        return Err(InvalidValue);
      }
      FitMeans(rank, es, came, t);
      HeadIsFull(rank, es, now, limit, came, t);
      HeadIsRight(rank, es, came, ledger, outbox, now, limit);
      NoneSettled(t, HeadIds(rank, outbox, now, limit));
      NothingBooked(metrics, now);
      var ids := HeadIds(rank, outbox, now, limit);
      var results: seq<Evaluation> := [];
      for n := 0 to |ids|
        invariant epochs == t.epochs && history == es && came == old(came)
        invariant All() == Settled(t, Elements(ids[..n]), metrics)
        invariant MetricsFit(ledger, outbox, epochs, metrics) && NoneEmpty(metrics)
        invariant Booked(t.metrics, metrics, now, results)
        invariant |results| == n
        invariant forall k | 0 <= k < n :: results[k].fact == ids[k] && Reports(rank, es, e, came, results[k])
      {
        var evaluation := Settle(now, ids[n], limit, t, ids, n, results);
        results := results + [evaluation];
      }
      assert ids[..|ids|] == ids;
      assert FactsIn(results) == ids;
      DailyBatch(rank, es, now, limit, came, t, metrics, results);
      FitAfterBatch(rank, es, now, limit, came, t, metrics);
      history := es + [e];
      return Ok(results);
    }

    /** One turn of the batch loop: the fact `id`, the head `ids[n]` of the queue. */
    method Settle(now: int, id: string, ghost limit: int, ghost t: Tables, ghost ids: seq<string>, ghost n: nat,
                  ghost done: seq<Evaluation>)
      returns (v: Evaluation)
      requires n < |ids| && id == ids[n] && t.epochs == epochs
      requires Ranked(rank) && GoodLimit(limit) && ids == HeadIds(rank, t.outbox, now, limit)
      requires Fit(rank, history, came, t)
      requires All() == Settled(t, Elements(ids[..n]), metrics) && MetricsFit(ledger, outbox, epochs, metrics)
      requires Booked(t.metrics, metrics, now, done) && NoneEmpty(metrics)
      modifies this`ledger, this`outbox, this`metrics
      ensures All() == Settled(t, Elements(ids[..n + 1]), metrics) && MetricsFit(ledger, outbox, epochs, metrics)
      ensures v.fact == id && Reports(rank, history, Evaluate(now, limit), came, v)
      ensures Booked(t.metrics, metrics, now, done + [v]) && NoneEmpty(metrics)
    {
      hide Booked, NoneEmpty, Fit, HeadIds, Reports, Bumped, MetricsFit, IdKey, DueSet, Selects, AcceptedAt,
           SettledLedger, SettledOutbox, Elements;
      HeadIsCounted(rank, t.outbox, now, limit);
      HeadRow(rank, history, now, limit, came, t, id);
      OneMoreSettled(t, ids, n);
      var row := outbox[id];
      var current := if row.session in epochs then epochs[row.session].epoch else -1;
      var observer := row.session in epochs && epochs[row.session].observer;
      var state: Fate;
      if !observer {
        state := Suppressed;
      } else if current != row.acceptedEpoch {
        assert false;
        state := Invalidated;
      } else {
        state := ShadowCandidate;
      }
      MetricsAfterSettling(ledger, outbox, epochs, metrics, id, state, now);
      outbox := outbox[id := row.(state := state)];
      ledger := ledger[id := ledger[id].(disposition := state)];
      v := Evaluation(id, row.session, row.acceptedEpoch, current, state);
      OneMoreBooked(t.metrics, metrics, now, done, v);
      BumpedNoneEmpty(metrics, FateMetric(state), now, 1);
      metrics := Bumped(metrics, FateMetric(state), now, 1);
    }
  }

  lemma FitMeans(rank: Rank, es: seq<Event>, came: Positions, t: Tables)
    requires Fit(rank, es, came, t)
    ensures Ranked(rank) && MetricsFit(t.ledger, t.outbox, t.epochs, t.metrics) && Daily(rank, es, t.metrics)
    ensures FactsFit(rank, es, came, t.ledger, t.outbox) && NoneEmpty(t.metrics) && t.ledger.Keys == t.outbox.Keys == came.Keys
  {
  }

  lemma BadDelayIsRefused(rank: Rank, es: seq<Event>, fact: Fact, delay: int)
    requires !GoodDelay(delay)
    ensures !AcceptedAt(es + [Accept(fact, delay)], |es|)
    ensures !RepeatedAt(es + [Accept(fact, delay)], |es|)
    ensures Answers(rank, es, fact, delay, Err(InvalidValue))
  {
  }
}
