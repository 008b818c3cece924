/**
  What becomes of a work fact, read off the list of calls alone: no epochs, no
  tables. (src/hermes_life_bridge/work_store.py)
*/
module WorkHistory {
  import opened Basics
  import opened SqlOrder

  /** A work fact; `digest` stands for its whole content. Times are microseconds. */
  datatype Fact = Fact(id: string, key: string, digest: string, session: string, observedAt: int)

  /** The calls a work store can receive, in order of arrival. */
  datatype Event =
    | Accept(fact: Fact, delay: int)
    | Activity(session: string, at: int)
    | Evaluate(now: int, limit: int)

  datatype Fate = PendingIdle | Invalidated | Suppressed | ShadowCandidate

  /** The text order of fact ids. */
  type Rank = string -> real

  const MAX_IDLE_DELAY := 604800 * 1_000_000

  predicate GoodDelay(delay: int) {
    0 <= delay <= MAX_IDLE_DELAY
  }

  predicate GoodLimit(limit: int) {
    1 <= limit <= 1000
  }

  predicate Clash(a: Fact, b: Fact) {
    a.key == b.key || a.id == b.id
  }

  /** Call `i` brought a new fact: no accepted one before it has its key or id. */
  predicate AcceptedAt(es: seq<Event>, i: nat)
    requires i < |es|
    decreases i
  {
    && es[i].Accept? && GoodDelay(es[i].delay)
    && forall j: nat | j < i && AcceptedAt(es, j) :: !Clash(es[j].fact, es[i].fact)
  }

  /** How often the session has been active. */
  function Activities(es: seq<Event>, session: string): nat {
    if es == [] then 0
    else
      var e := es[|es| - 1];
      Activities(es[..|es| - 1], session) + if e.Activity? && e.session == session then 1 else 0
  }

  function DueAt(e: Event): int
    requires e.Accept?
  {
    e.fact.observedAt + e.delay
  }

  ghost function KeyFunction(rank: Rank, es: seq<Event>): nat -> SortKey {
    (i: nat) =>
      if i < |es| && es[i].Accept? then SortKey(DueAt(es[i]) as real, rank(es[i].fact.id)) else SortKey(0.0, 0.0)
  }

  /** The state of the fact brought by call `i`. */
  ghost function FateOf(rank: Rank, es: seq<Event>, i: nat): Fate
    requires i < |es| && es[i].Accept?
    decreases |es|, 0
  {
    if |es| == i + 1 then PendingIdle
    else
      var before := es[..|es| - 1];
      var e := es[|es| - 1];
      var session := es[i].fact.session;
      if FateOf(rank, before, i) != PendingIdle then FateOf(rank, before, i)
      else if e.Activity? && e.session == session then Invalidated
      else if e.Evaluate? && GoodLimit(e.limit) && Selects(rank, before, e.now, e.limit, i) then
        if Activities(es[..i], session) > 0 then ShadowCandidate else Suppressed
      else PendingIdle
  }

  /** The fact of call `i` is waiting and its idle deadline has passed. */
  ghost predicate Due(rank: Rank, es: seq<Event>, now: int, i: nat)
    decreases |es|, 1
  {
    i < |es| && AcceptedAt(es, i) && FateOf(rank, es, i) == PendingIdle && DueAt(es[i]) <= now
  }

  ghost function DueSet(rank: Rank, es: seq<Event>, now: int): set<nat>
    decreases |es|, 2
  {
    set i: nat | i < |es| && Due(rank, es, now, i)
  }

  /** Fewer than `limit` due facts come before it by deadline and id. */
  ghost predicate Selects(rank: Rank, es: seq<Event>, now: int, limit: int, i: nat)
    decreases |es|, 3
  {
    Due(rank, es, now, i) && |AheadOf(DueSet(rank, es, now), KeyFunction(rank, es), i)| < limit
  }

  // ------------------------------------------------------- one more call

  lemma {:induction false} AcceptedStays(es: seq<Event>, more: seq<Event>, i: nat)
    requires i < |es|
    ensures AcceptedAt(es + more, i) == AcceptedAt(es, i)
    decreases i
  {
    forall j: nat | j < i ensures AcceptedAt(es + more, j) == AcceptedAt(es, j) {
      AcceptedStays(es, more, j);
    }
  }

  lemma Appended(es: seq<Event>, e: Event)
    ensures (es + [e])[..|es|] == es
    ensures forall i: nat | i <= |es| :: (es + [e])[..i] == es[..i]
    ensures forall i: nat | i < |es| :: AcceptedAt(es + [e], i) == AcceptedAt(es, i)
    ensures forall s :: Activities(es + [e], s) == Activities(es, s) + if e.Activity? && e.session == s then 1 else 0
  {
    forall i: nat | i < |es| ensures AcceptedAt(es + [e], i) == AcceptedAt(es, i) {
      AcceptedStays(es, [e], i);
    }
    assert (es + [e])[..|es + [e]| - 1] == es;
  }

  /** No two accepted calls bring facts that clash. */
  lemma AcceptedApart(es: seq<Event>, i: nat, j: nat)
    requires i < |es| && j < |es| && i != j && AcceptedAt(es, i) && AcceptedAt(es, j)
    ensures !Clash(es[i].fact, es[j].fact)
  {
    if i < j {
      assert !Clash(es[i].fact, es[j].fact);
    } else {
      assert !Clash(es[j].fact, es[i].fact);
    }
  }

  /** A waiting fact has seen no activity of its session since it came. */
  lemma {:induction false} WaitingIsUndisturbed(rank: Rank, es: seq<Event>, i: nat)
    requires i < |es| && es[i].Accept? && FateOf(rank, es, i) == PendingIdle
    ensures Activities(es, es[i].fact.session) == Activities(es[..i], es[i].fact.session)
  {
    var before := es[..|es| - 1];
    if |es| == i + 1 {
      assert es[..i] == before;
    } else {
      assert before[..i] == es[..i];
      WaitingIsUndisturbed(rank, before, i);
    }
    hide FateOf;
  }

  // --------------------------------------------------- fate, by positions

  /** Call `k` selects the fact of call `i`. */
  ghost predicate SelectedAt(rank: Rank, es: seq<Event>, k: nat, i: nat) {
    && i < k < |es| && es[k].Evaluate? && GoodLimit(es[k].limit)
    && Selects(rank, es[..k], es[k].now, es[k].limit, i)
  }

  predicate ActiveAt(es: seq<Event>, k: nat, session: string) {
    k < |es| && es[k].Activity? && es[k].session == session
  }

  /** The first thing to happen to the fact of call `i` is an activity, at call `k`. */
  ghost predicate DisturbedAt(rank: Rank, es: seq<Event>, k: nat, i: nat)
    requires i < |es| && es[i].Accept?
  {
    && i < k && ActiveAt(es, k, es[i].fact.session)
    && forall m: nat | SelectedAt(rank, es, m, i) :: k < m
  }

  /** A fate once decided stays. */
  lemma {:induction false} FateStays(rank: Rank, es: seq<Event>, n: nat, i: nat)
    requires i < n <= |es| && es[i].Accept? && FateOf(rank, es[..n], i) != PendingIdle
    ensures FateOf(rank, es, i) == FateOf(rank, es[..n], i)
    decreases |es|
  {
    if n == |es| {
      assert es[..n] == es;
    } else {
      var before := es[..|es| - 1];
      assert before[..n] == es[..n];
      FateStays(rank, before, n, i);
    }
  }

  lemma SelectionDecides(rank: Rank, es: seq<Event>, k: nat, i: nat)
    requires SelectedAt(rank, es, k, i)
    ensures es[i].Accept? && FateOf(rank, es[..k], i) == PendingIdle
    ensures FateOf(rank, es, i) == if Activities(es[..i], es[i].fact.session) > 0 then ShadowCandidate else Suppressed
  {
    assert es[..k + 1][..k] == es[..k] && es[..k][i] == es[i] && es[..k + 1][..i] == es[..i];
    assert Due(rank, es[..k], es[k].now, i);
    assert es[..k + 1][k] == es[k];
    FateStays(rank, es, k + 1, i);
  }

  /** No fact is selected, and so returned, by two calls. */
  lemma SelectedOnce(rank: Rank, es: seq<Event>, j: nat, k: nat, i: nat)
    requires SelectedAt(rank, es, j, i) && SelectedAt(rank, es, k, i)
    ensures j == k
  {
    if j < k {
      assert SelectedAt(rank, es[..k], j, i) by { assert es[..k][..j] == es[..j]; }
      SelectionDecides(rank, es[..k], j, i);
      SelectionDecides(rank, es, k, i);
    } else if k < j {
      SelectedOnce(rank, es, k, j, i);
    }
  }

  /**
    A waiting fact was neither selected nor disturbed; any other was, and which
    came first tells its state.
  */
  lemma {:induction false} FateByPositions(rank: Rank, es: seq<Event>, i: nat)
    requires i < |es| && AcceptedAt(es, i)
    ensures var session := es[i].fact.session;
            && (FateOf(rank, es, i) == ShadowCandidate <==>
                  exists k: nat :: SelectedAt(rank, es, k, i) && Activities(es[..i], session) > 0)
            && (FateOf(rank, es, i) == Suppressed <==>
                  exists k: nat :: SelectedAt(rank, es, k, i) && Activities(es[..k], session) == 0)
            && (FateOf(rank, es, i) == Invalidated <==> exists k: nat :: DisturbedAt(rank, es, k, i))
            && (FateOf(rank, es, i) == PendingIdle <==>
                  && (forall k: nat :: !SelectedAt(rank, es, k, i))
                  && (forall k: nat | i < k :: !ActiveAt(es, k, session)))
  {
    forall k: nat | SelectedAt(rank, es, k, i) {
      SelectedUndisturbed(rank, es, k, i);
    }
    if exists k: nat :: SelectedAt(rank, es, k, i) {
      var k: nat :| SelectedAt(rank, es, k, i);
      forall m: nat ensures !DisturbedAt(rank, es, m, i) {
        if DisturbedAt(rank, es, m, i) {
          assert m < k && es[..k][m] == es[m];
          SelectionDecides(rank, es, k, i);
          ActiveDisturbs(rank, es[..k], m, i);
          assert false;
        }
      }
    } else if exists k: nat :: i < k && ActiveAt(es, k, es[i].fact.session) {
      var k: nat :| i < k && ActiveAt(es, k, es[i].fact.session);
      assert DisturbedAt(rank, es, k, i);
      Unselected(rank, es, i);
      ActiveDisturbs(rank, es, k, i);
    } else {
      Unselected(rank, es, i);
      Undisturbed(rank, es, i);
    }
  }

  lemma SelectedUndisturbed(rank: Rank, es: seq<Event>, k: nat, i: nat)
    requires SelectedAt(rank, es, k, i)
    ensures es[i].Accept? && Activities(es[..k], es[i].fact.session) == Activities(es[..i], es[i].fact.session)
    ensures FateOf(rank, es, i) == if Activities(es[..i], es[i].fact.session) > 0 then ShadowCandidate else Suppressed
  {
    SelectionDecides(rank, es, k, i);
    WaitingIsUndisturbed(rank, es[..k], i);
    assert es[..k][..i] == es[..i];
  }

  /** An activity after acceptance leaves no fact waiting. */
  lemma ActiveDisturbs(rank: Rank, es: seq<Event>, k: nat, i: nat)
    requires i < k && i < |es| && es[i].Accept? && ActiveAt(es, k, es[i].fact.session)
    ensures FateOf(rank, es, i) != PendingIdle
  {
    assert es[..k + 1][..k] == es[..k] && es[..k + 1][k] == es[k];
    if FateOf(rank, es[..k + 1], i) == PendingIdle {
      assert false;
    }
    FateStays(rank, es, k + 1, i);
  }

  /** Without a selection a fact is waiting or invalidated. */
  lemma {:induction false} Unselected(rank: Rank, es: seq<Event>, i: nat)
    requires i < |es| && es[i].Accept? && forall k: nat :: !SelectedAt(rank, es, k, i)
    ensures FateOf(rank, es, i) in {PendingIdle, Invalidated}
  {
    var before := es[..|es| - 1];
    if |es| > i + 1 {
      forall k: nat ensures !SelectedAt(rank, before, k, i) {
        if k < |before| {
          assert before[..k] == es[..k];
          assert !SelectedAt(rank, es, k, i);
        }
      }
      Unselected(rank, before, i);
      assert !SelectedAt(rank, es, |es| - 1, i);
    }
  }

  /** Without an activity after it, a fact is never invalidated. */
  lemma {:induction false} Undisturbed(rank: Rank, es: seq<Event>, i: nat)
    requires i < |es| && es[i].Accept? && forall k: nat | i < k :: !ActiveAt(es, k, es[i].fact.session)
    ensures FateOf(rank, es, i) != Invalidated
  {
    var before := es[..|es| - 1];
    if |es| > i + 1 {
      forall k: nat | i < k ensures !ActiveAt(before, k, es[i].fact.session) {
        assert !ActiveAt(es, k, es[i].fact.session);
      }
      Undisturbed(rank, before, i);
      assert !ActiveAt(es, |es| - 1, es[i].fact.session);
    }
  }

  // ------------------------------------------------------------- batches

  ghost predicate Ranked(rank: Rank) {
    forall a, b | rank(a) == rank(b) :: a == b
  }

  lemma KeysApart(rank: Rank, es: seq<Event>, now: int)
    requires Ranked(rank)
    ensures Distinct(DueSet(rank, es, now), KeyFunction(rank, es))
  {
    forall i, j | i in DueSet(rank, es, now) && j in DueSet(rank, es, now) && i != j
      ensures KeyFunction(rank, es)(i) != KeyFunction(rank, es)(j)
    {
      assert Due(rank, es, now, i) && Due(rank, es, now, j);
      AcceptedApart(es, i, j);
    }
  }

  /** The due facts in the order of their deadlines. */
  ghost function Queue(rank: Rank, es: seq<Event>, now: int): (q: seq<nat>)
    requires Ranked(rank)
    ensures Lists(q, DueSet(rank, es, now))
  {
    KeysApart(rank, es, now);
    OrderByLists(DueSet(rank, es, now), KeyFunction(rank, es));
    OrderBy(DueSet(rank, es, now), KeyFunction(rank, es))
  }

  lemma QueueIsSorted(rank: Rank, es: seq<Event>, now: int)
    requires Ranked(rank)
    ensures Sorted(Queue(rank, es, now), KeyFunction(rank, es))
  {
    KeysApart(rank, es, now);
    OrderByLists(DueSet(rank, es, now), KeyFunction(rank, es));
  }

  /** Selection by count is selection of the head of the queue. */
  lemma HeadIsSelected(rank: Rank, es: seq<Event>, now: int, limit: int, k: nat)
    requires Ranked(rank) && k < |Queue(rank, es, now)|
    ensures Selects(rank, es, now, limit, Queue(rank, es, now)[k]) <==> k < limit
  {
    var q := Queue(rank, es, now);
    QueueIsSorted(rank, es, now);
    assert q[k] in q && q[k] in DueSet(rank, es, now);
    assert Due(rank, es, now, q[k]);
    PlaceCountsAhead(q, DueSet(rank, es, now), KeyFunction(rank, es), k);
  }

  ghost function Chosen(rank: Rank, es: seq<Event>, now: int, limit: int): set<nat> {
    set i | i in DueSet(rank, es, now) && Selects(rank, es, now, limit, i)
  }

  /** A batch takes the head of the queue and leaves the rest due. */
  lemma BatchTakesHead(rank: Rank, es: seq<Event>, now: int, limit: int)
    requires Ranked(rank) && GoodLimit(limit)
    ensures DueSet(rank, es + [Evaluate(now, limit)], now) == DueSet(rank, es, now) - Chosen(rank, es, now, limit)
    ensures |Chosen(rank, es, now, limit)| == Min(limit, |DueSet(rank, es, now)|)
  {
    var e := Evaluate(now, limit);
    Appended(es, e);
    forall i: nat
      ensures i in DueSet(rank, es + [e], now) <==>
              i in DueSet(rank, es, now) && i !in Chosen(rank, es, now, limit)
    {
      if i < |es| && AcceptedAt(es, i) {
        assert FateOf(rank, es + [e], i) == PendingIdle <==>
               FateOf(rank, es, i) == PendingIdle && !Selects(rank, es, now, limit, i);
      }
    }
    ChosenIsHead(rank, es, now, limit);
  }

  lemma ChosenIsHead(rank: Rank, es: seq<Event>, now: int, limit: int)
    requires Ranked(rank) && GoodLimit(limit)
    ensures var q := Queue(rank, es, now);
            && Chosen(rank, es, now, limit) == Elements(Take(q, limit))
            && |Chosen(rank, es, now, limit)| == Min(limit, |DueSet(rank, es, now)|)
  {
    var q := Queue(rank, es, now);
    var head := Take(q, limit);
    var due := DueSet(rank, es, now);
    assert Lists(q, due);
    forall k: nat | k < |q| ensures Selects(rank, es, now, limit, q[k]) <==> k < limit {
      HeadIsSelected(rank, es, now, limit, k);
    }
    hide Queue, DueSet, Selects;
    forall i: nat ensures i in Chosen(rank, es, now, limit) <==> i in head {
      if i in q {
        var k: nat :| k < |q| && q[k] == i;
        PlaceInHead(q, limit, k);
      }
    }
    assert Chosen(rank, es, now, limit) == Elements(head);
    DistinctCount(head);
  }

  lemma PlaceInHead<T>(q: seq<T>, limit: nat, k: nat)
    requires k < |q| && forall i, j | 0 <= i < j < |q| :: q[i] != q[j]
    ensures q[k] in Take(q, limit) <==> k < limit
  {
    var head := Take(q, limit);
    if k < limit {
      assert head[k] == q[k];
    }
    if q[k] in head {
      var m :| 0 <= m < |head| && head[m] == q[k];
      assert q[m] == q[k];
    }
  }

  /** `n` batches with the same deadline and limit. */
  function Batches(now: int, limit: int, n: nat): seq<Event> {
    seq(n, _ => Evaluate(now, limit))
  }

  function Monus(a: int, b: int): nat {
    if a <= b then 0 else a - b
  }

  /** Every batch takes `limit` due facts until none is left. */
  lemma {:induction false} BatchesDrain(rank: Rank, es: seq<Event>, now: int, limit: int, n: nat)
    requires Ranked(rank) && GoodLimit(limit)
    ensures |DueSet(rank, es + Batches(now, limit, n), now)| == Monus(|DueSet(rank, es, now)|, n * limit)
    decreases n
  {
    hide DueSet, Chosen;
    if n == 0 {
      assert es + Batches(now, limit, 0) == es;
    } else {
      BatchesDrain(rank, es, now, limit, n - 1);
      var before := es + Batches(now, limit, n - 1);
      assert es + Batches(now, limit, n) == before + [Evaluate(now, limit)];
      hide Batches;
      OneBatch(rank, before, now, limit);
      Multiply(n, limit);
    }
  }

  lemma Multiply(n: nat, limit: int)
    requires n >= 1
    ensures n * limit == (n - 1) * limit + limit
  {
  }

  lemma OneBatch(rank: Rank, es: seq<Event>, now: int, limit: int)
    requires Ranked(rank) && GoodLimit(limit)
    ensures |DueSet(rank, es + [Evaluate(now, limit)], now)| == Monus(|DueSet(rank, es, now)|, limit)
  {
    assert Chosen(rank, es, now, limit) <= DueSet(rank, es, now);
    hide DueSet, Chosen;
    BatchTakesHead(rank, es, now, limit);
    Remaining(DueSet(rank, es, now), Chosen(rank, es, now, limit), limit);
  }

  lemma Remaining(due: set<nat>, taken: set<nat>, limit: nat)
    requires taken <= due && |taken| == Min(limit, |due|)
    ensures |due - taken| == Monus(|due|, limit)
  {
    assert due == taken + (due - taken);
  }

  /** The due set is empty after ceil(size / limit) batches, and not before. */
  lemma DrainedAfter(rank: Rank, es: seq<Event>, now: int, limit: int, n: nat)
    requires Ranked(rank) && GoodLimit(limit)
    ensures var size := |DueSet(rank, es, now)|;
            DueSet(rank, es + Batches(now, limit, n), now) == {} <==> n >= (size + limit - 1) / limit
  {
    BatchesDrain(rank, es, now, limit, n);
    var size := |DueSet(rank, es, now)|;
    CeilingMeans(size, limit, n);
    assert |DueSet(rank, es + Batches(now, limit, n), now)| == 0 <==> n * limit >= size;
  }

  lemma CeilingMeans(size: nat, limit: int, n: nat)
    requires limit >= 1
    ensures n * limit >= size <==> n >= (size + limit - 1) / limit
  {
    var c := (size + limit - 1) / limit;
    assert c * limit <= size + limit - 1 < c * limit + limit;
    if n >= c {
      assert n * limit >= c * limit;
    } else {
      assert n * limit <= (c - 1) * limit;
    }
  }

  // ------------------------------------------------- the last call of a list

  /** How one more call changes the fate of an accepted fact. */
  lemma FateAfter(rank: Rank, es: seq<Event>, e: Event, i: nat)
    requires i < |es| && es[i].Accept?
    ensures FateOf(rank, es + [e], i) ==
            if FateOf(rank, es, i) != PendingIdle then FateOf(rank, es, i)
            else if e.Activity? && e.session == es[i].fact.session then Invalidated
            else if e.Evaluate? && GoodLimit(e.limit) && Selects(rank, es, e.now, e.limit, i) then
              if Activities(es[..i], es[i].fact.session) > 0 then ShadowCandidate else Suppressed
            else PendingIdle
  {
    Appended(es, e);
  }
}
