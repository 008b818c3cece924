/**
  The daily metrics: how a cell is raised, and which calls and facts the list of
  calls makes it count. (src/hermes_life_bridge/work_store.py)
*/
module WorkMetrics {
  import opened MapSums
  import opened WorkHistory

  datatype Metric = AcceptedMetric | DuplicateMetric | ActivityMetric | FateMetric(fate: Fate)
  datatype Cell = Cell(day: int, name: Metric)
  type Metrics = map<Cell, nat>

  const DAY := 86_400_000_000

  function Bumped(metrics: Metrics, name: Metric, at: int, n: nat): Metrics {
    if n == 0 then metrics
    else
      var cell := Cell(at / DAY, name);
      metrics[cell := (if cell in metrics then metrics[cell] else 0) + n]
  }

  function Named(metrics: Metrics, name: Metric): map<Cell, nat> {
    map c | c in metrics && c.name == name :: metrics[c]
  }

  /** A metric summed over all dates. */
  ghost function Total(metrics: Metrics, name: Metric): nat {
    MapSum(Named(metrics, name))
  }

  lemma BumpAdds(metrics: Metrics, name: Metric, at: int, n: nat, other: Metric)
    ensures Total(Bumped(metrics, name, at, n), other) == Total(metrics, other) + if other == name then n else 0
  {
    if n > 0 {
      var cell := Cell(at / DAY, name);
      var v := (if cell in metrics then metrics[cell] else 0) + n;
      if other == name {
        assert Named(metrics[cell := v], name) == Named(metrics, name)[cell := v];
        SumUpdates(Named(metrics, name), cell, v);
      } else {
        assert Named(metrics[cell := v], other) == Named(metrics, other);
      }
    }
  }

  function ValueOf(metrics: Metrics, c: Cell): nat {
    if c in metrics then metrics[c] else 0
  }

  lemma BumpedCell(metrics: Metrics, name: Metric, at: int, n: nat, c: Cell)
    ensures ValueOf(Bumped(metrics, name, at, n), c)
         == ValueOf(metrics, c) + if c.day == at / DAY && c.name == name then n else 0
  {
  }

  /** A cell is written only when it has something to count. */
  predicate NoneEmpty(metrics: Metrics) {
    forall c | c in metrics :: metrics[c] > 0
  }

  lemma BumpedNoneEmpty(metrics: Metrics, name: Metric, at: int, n: nat)
    requires NoneEmpty(metrics)
    ensures NoneEmpty(Bumped(metrics, name, at, n))
  {
  }

  // ------------------------------------------------------ what a call counts

  /** Call `k` repeats an accepted fact under its key, with the same content. */
  predicate RepeatedAt(es: seq<Event>, k: nat)
    requires k < |es|
  {
    && es[k].Accept? && GoodDelay(es[k].delay)
    && exists j: nat :: j < k && AcceptedAt(es, j)
         && es[j].fact.key == es[k].fact.key && es[j].fact.digest == es[k].fact.digest
  }

  function TimeOf(e: Event): int {
    match e
    case Accept(fact, _) => fact.observedAt
    case Activity(_, at) => at
    case Evaluate(now, _) => now
  }

  /** Call `k` gives the waiting fact of call `i` its fate. */
  ghost predicate SettlesAt(rank: Rank, es: seq<Event>, k: nat, i: nat, fate: Fate) {
    && i < k < |es| && AcceptedAt(es, i) && fate != PendingIdle
    && FateOf(rank, es[..k], i) == PendingIdle && FateOf(rank, es[..k + 1], i) == fate
  }

  /** `name` counts call `k`, or the fact of call `i` that call `k` settled. */
  ghost predicate Counts(rank: Rank, es: seq<Event>, name: Metric, k: nat, i: nat) {
    k < |es| &&
    match name
    case AcceptedMetric => i == k && AcceptedAt(es, k)
    case DuplicateMetric => i == k && RepeatedAt(es, k)
    case ActivityMetric => i == k && es[k].Activity?
    case FateMetric(fate) => SettlesAt(rank, es, k, i, fate)
  }

  /** What the cell counts: the calls on its day, with the facts they settled. */
  ghost function CountedOn(rank: Rank, es: seq<Event>, c: Cell): set<(nat, nat)> {
    set k: nat, i: nat | k < |es| && i <= k && TimeOf(es[k]) / DAY == c.day && Counts(rank, es, c.name, k, i) :: (k, i)
  }

  /** The law of the daily metrics. */
  ghost predicate Daily(rank: Rank, es: seq<Event>, metrics: Metrics) {
    NoneEmpty(metrics) && forall c :: ValueOf(metrics, c) == |CountedOn(rank, es, c)|
  }

  /** What settles a waiting fact: an activity of its session, or the batch that selects it. */
  lemma SettledBy(rank: Rank, es: seq<Event>, k: nat, i: nat, fate: Fate)
    requires i < k < |es| && AcceptedAt(es, i)
    ensures var session := es[i].fact.session;
            SettlesAt(rank, es, k, i, fate) <==>
              && FateOf(rank, es[..k], i) == PendingIdle
              && match fate
                 case PendingIdle => false
                 case Invalidated => ActiveAt(es, k, session)
                 case ShadowCandidate => SelectedAt(rank, es, k, i) && Activities(es[..i], session) > 0
                 case Suppressed => SelectedAt(rank, es, k, i) && Activities(es[..i], session) == 0
  {
    assert es[..k] + [es[k]] == es[..k + 1] && es[..k][i] == es[i] && es[..k][..i] == es[..i];
    FateAfter(rank, es[..k], es[k], i);
    hide FateOf, Selects, Activities;
  }

  /** A fact is settled by one call, with the fate it has from then on. */
  lemma SettledOnce(rank: Rank, es: seq<Event>, j: nat, k: nat, i: nat, f: Fate, g: Fate)
    requires SettlesAt(rank, es, j, i, f) && SettlesAt(rank, es, k, i, g)
    ensures j == k && f == g == FateOf(rank, es, i)
  {
    FateStays(rank, es, j + 1, i);
    FateStays(rank, es, k + 1, i);
    if j < k {
      assert es[..k][..j + 1] == es[..j + 1];
      FateStays(rank, es[..k], j + 1, i);
    } else if k < j {
      assert es[..j][..k + 1] == es[..k + 1];
      FateStays(rank, es[..j], k + 1, i);
    }
    hide FateOf;
  }

  // ----------------------------------------------------------- one more call

  ghost function NewFates(rank: Rank, es: seq<Event>, e: Event, fate: Fate): set<nat> {
    set i: nat | i < |es| && AcceptedAt(es, i) && fate != PendingIdle
                 && FateOf(rank, es, i) == PendingIdle && FateOf(rank, es + [e], i) == fate
  }

  /** What one more call counts. */
  ghost function NewlyCounted(rank: Rank, es: seq<Event>, e: Event, name: Metric): set<nat> {
    match name
    case AcceptedMetric => if AcceptedAt(es + [e], |es|) then {|es|} else {}
    case DuplicateMetric => if RepeatedAt(es + [e], |es|) then {|es|} else {}
    case ActivityMetric => if e.Activity? then {|es|} else {}
    case FateMetric(fate) => NewFates(rank, es, e, fate)
  }

  lemma CountsStay(rank: Rank, es: seq<Event>, e: Event, name: Metric, k: nat, i: nat)
    requires k < |es|
    ensures Counts(rank, es + [e], name, k, i) <==> Counts(rank, es, name, k, i)
  {
    hide FateOf, AcceptedAt;
    Appended(es, e);
    assert (es + [e])[..k + 1] == es[..k + 1];
  }

  lemma CountsNow(rank: Rank, es: seq<Event>, e: Event, name: Metric, i: nat)
    ensures Counts(rank, es + [e], name, |es|, i) <==> i in NewlyCounted(rank, es, e, name)
  {
    hide FateOf, AcceptedAt;
    Appended(es, e);
    assert (es + [e])[..|es| + 1] == es + [e];
  }

  lemma CountedGrows(rank: Rank, es: seq<Event>, e: Event, c: Cell)
    ensures |CountedOn(rank, es + [e], c)|
         == |CountedOn(rank, es, c)| + if TimeOf(e) / DAY == c.day then |NewlyCounted(rank, es, e, c.name)| else 0
  {
    var before, after := CountedOn(rank, es, c), CountedOn(rank, es + [e], c);
    var added := if TimeOf(e) / DAY == c.day then NewlyCounted(rank, es, e, c.name) else {};
    var pair := (i: nat) => (|es|, i);
    forall k: nat, i: nat ensures (k, i) in after <==> (k, i) in before || (k, i) in Image(added, pair) {
      if k < |es| {
        CountsStay(rank, es, e, c.name, k, i);
      } else if k == |es| {
        CountsNow(rank, es, e, c.name, i);
        NewlyCountedIsOld(rank, es, e, c.name);
      }
    }
    hide Counts, NewlyCounted;
    assert after == before + Image(added, pair);
    ImageSize(added, pair);
  }

  lemma NewlyCountedIsOld(rank: Rank, es: seq<Event>, e: Event, name: Metric)
    ensures forall i | i in NewlyCounted(rank, es, e, name) :: i <= |es|
  {
    hide FateOf, AcceptedAt;
  }

  lemma NothingCountedYet(rank: Rank, c: Cell)
    ensures CountedOn(rank, [], c) == {}
  {
  }

  /** A metric that rose by what the call counts keeps the law. */
  lemma DailyGrows(rank: Rank, es: seq<Event>, e: Event, before: Metrics, after: Metrics)
    requires Daily(rank, es, before) && NoneEmpty(after)
    requires forall c :: ValueOf(after, c)
               == ValueOf(before, c) + if TimeOf(e) / DAY == c.day then |NewlyCounted(rank, es, e, c.name)| else 0
    ensures Daily(rank, es + [e], after)
  {
    hide NoneEmpty, CountedOn, NewlyCounted, ValueOf;
    forall c ensures ValueOf(after, c) == |CountedOn(rank, es + [e], c)| {
      CountedGrows(rank, es, e, c);
    }
  }

  /** A call that neither brings, repeats nor settles a fact, and is no activity, counts nowhere. */
  lemma DailyStays(rank: Rank, es: seq<Event>, e: Event, metrics: Metrics)
    requires Daily(rank, es, metrics) && !AcceptedAt(es + [e], |es|) && !RepeatedAt(es + [e], |es|)
    requires !e.Activity? && !(e.Evaluate? && GoodLimit(e.limit))
    ensures Daily(rank, es + [e], metrics)
  {
    forall name ensures NewlyCounted(rank, es, e, name) == {} {
      if name.FateMetric? {
        NoFates(rank, es, e, name.fate);
      }
    }
    hide Daily, NewlyCounted;
    assert NoneEmpty(metrics) by { DailyMeans(rank, es, metrics); }
    DailyGrows(rank, es, e, metrics, metrics);
  }

  lemma DailyMeans(rank: Rank, es: seq<Event>, metrics: Metrics)
    requires Daily(rank, es, metrics)
    ensures NoneEmpty(metrics)
  {
  }

  lemma NoFates(rank: Rank, es: seq<Event>, e: Event, fate: Fate)
    requires !e.Activity? && !(e.Evaluate? && GoodLimit(e.limit))
    ensures NewFates(rank, es, e, fate) == {}
  {
    forall i: nat | i < |es| && AcceptedAt(es, i) ensures FateOf(rank, es + [e], i) == FateOf(rank, es, i) {
      FateAfter(rank, es, e, i);
    }
    hide FateOf;
  }

  /** A call that only `name` counts, and counts once. */
  lemma DailyOnce(rank: Rank, es: seq<Event>, e: Event, metrics: Metrics, name: Metric)
    requires Daily(rank, es, metrics) && e.Accept?
    requires name in {AcceptedMetric, DuplicateMetric}
    requires AcceptedAt(es + [e], |es|) <==> name == AcceptedMetric
    requires RepeatedAt(es + [e], |es|) <==> name == DuplicateMetric
    ensures Daily(rank, es + [e], Bumped(metrics, name, e.fact.observedAt, 1))
  {
    var after := Bumped(metrics, name, e.fact.observedAt, 1);
    DailyMeans(rank, es, metrics);
    BumpedNoneEmpty(metrics, name, e.fact.observedAt, 1);
    forall c ensures ValueOf(after, c)
        == ValueOf(metrics, c) + if TimeOf(e) / DAY == c.day then |NewlyCounted(rank, es, e, c.name)| else 0
    {
      BumpedCell(metrics, name, e.fact.observedAt, 1, c);
      if c.name.FateMetric? {
        NoFates(rank, es, e, c.name.fate);
      }
    }
    hide Daily, NewlyCounted, Bumped, ValueOf;
    DailyGrows(rank, es, e, metrics, after);
  }

  /** An activity counts itself and the waiting facts of its session. */
  lemma DailyActivity(rank: Rank, es: seq<Event>, session: string, at: int, metrics: Metrics, n: nat)
    requires Daily(rank, es, metrics) && n == |NewFates(rank, es, Activity(session, at), Invalidated)|
    ensures Daily(rank, es + [Activity(session, at)],
                  Bumped(Bumped(metrics, ActivityMetric, at, 1), FateMetric(Invalidated), at, n))
  {
    var e := Activity(session, at);
    var counted := Bumped(metrics, ActivityMetric, at, 1);
    var after := Bumped(counted, FateMetric(Invalidated), at, n);
    DailyMeans(rank, es, metrics);
    BumpedNoneEmpty(metrics, ActivityMetric, at, 1);
    BumpedNoneEmpty(counted, FateMetric(Invalidated), at, n);
    hide Bumped, ValueOf, NewFates, Daily;
    forall c ensures ValueOf(after, c)
        == ValueOf(metrics, c) + if TimeOf(e) / DAY == c.day then |NewlyCounted(rank, es, e, c.name)| else 0
    {
      BumpedCell(metrics, ActivityMetric, at, 1, c);
      BumpedCell(counted, FateMetric(Invalidated), at, n, c);
      if c.name.FateMetric? && c.name.fate != Invalidated {
        ActivityOnlyInvalidates(rank, es, e, c.name.fate);
      }
    }
    hide NewlyCounted;
    DailyGrows(rank, es, e, metrics, after);
  }

  lemma ActivityOnlyInvalidates(rank: Rank, es: seq<Event>, e: Event, fate: Fate)
    requires e.Activity? && fate != Invalidated
    ensures NewFates(rank, es, e, fate) == {}
  {
    forall i: nat | i < |es| && AcceptedAt(es, i) && FateOf(rank, es, i) == PendingIdle
      ensures FateOf(rank, es + [e], i) in {PendingIdle, Invalidated}
    {
      FateAfter(rank, es, e, i);
    }
    hide FateOf;
  }
}
