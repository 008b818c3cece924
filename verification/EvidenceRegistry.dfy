/**
  The tool-evidence registry: least-recently-used contexts with an age limit,
  proved to show exactly a window over everything ever observed.
  (src/hermes_life_bridge/work_producer.py)
*/
module EvidenceRegistry {
  import opened Basics

  /** A terminal tool call, at a reading of the monotonic clock. */
  datatype Evidence = Evidence(ref: string, tool: string, status: string, at: real)

  /** One turn of one session. */
  datatype Key = Key(session: string, turn: string)

  datatype Observation = Observation(key: Key, evidence: Evidence)

  datatype Limits = Limits(contexts: nat, perContext: nat, ttl: real)

  // ---------------------------------------------------------------- sequences

  function Without<T(==)>(s: seq<T>, k: T): seq<T> {
    if s == [] then []
    else Without(s[..|s| - 1], k) + if s[|s| - 1] == k then [] else [s[|s| - 1]]
  }

  function Filter<T>(s: seq<T>, p: T -> bool): seq<T> {
    if s == [] then []
    else Filter(s[..|s| - 1], p) + if p(s[|s| - 1]) then [s[|s| - 1]] else []
  }

  ghost predicate IsSuffix<T>(a: seq<T>, b: seq<T>) {
    |a| <= |b| && b[|b| - |a|..] == a
  }

  ghost predicate Distinct<T>(s: seq<T>) {
    forall i, j | 0 <= i < j < |s| :: s[i] != s[j]
  }

  /** Once an element passes, every later one does. */
  ghost predicate Rising<T>(s: seq<T>, p: T -> bool) {
    forall i, j | 0 <= i < j < |s| && p(s[i]) :: p(s[j])
  }

  /** Then filtering keeps a suffix. */
  lemma {:induction false} RisingSuffix<T>(s: seq<T>, p: T -> bool)
    requires Rising(s, p)
    ensures IsSuffix(Filter(s, p), s)
    ensures s != [] && !p(s[|s| - 1]) ==> Filter(s, p) == []
    ensures s != [] && p(s[|s| - 1]) ==> Filter(s, p) != []
  {
    if s != [] {
      var before, x := s[..|s| - 1], s[|s| - 1];
      RisingSuffix(before, p);
      assert before != [] && !p(x) ==> !p(before[|before| - 1]);
      Snoc(s);
      hide Rising, Filter, IsSuffix;
      FilterSnoc(before, x, p);
      SuffixSnoc(Filter(before, p), before, x);
      PlusNone(Filter(before, p));
      if before == [] {
        FilterNone(p);
      }
    }
  }

  lemma FilterNone<T>(p: T -> bool)
    ensures Filter([], p) == []
  {
  }

  lemma SuffixSnoc<T>(a: seq<T>, b: seq<T>, x: T)
    requires IsSuffix(a, b)
    ensures IsSuffix(a + [x], b + [x]) && IsSuffix([], b + [x])
  {
  }

  lemma {:induction false} FilterMembers<T>(s: seq<T>, p: T -> bool)
    ensures forall x :: x in Filter(s, p) <==> x in s && p(x)
  {
    if s != [] {
      FilterMembers(s[..|s| - 1], p);
      assert s == s[..|s| - 1] + [s[|s| - 1]];
    }
  }

  lemma {:induction false} WithoutMembers<T>(s: seq<T>, k: T)
    ensures forall x :: x in Without(s, k) <==> x in s && x != k
  {
    if s != [] {
      WithoutMembers(s[..|s| - 1], k);
      assert s == s[..|s| - 1] + [s[|s| - 1]];
    }
  }

  lemma LastSnoc<T>(s: seq<T>, x: T, n: nat)
    requires n >= 1
    ensures Last(s + [x], n) == Last(s, n - 1) + [x]
  {
  }

  lemma FilterSnoc<T>(s: seq<T>, x: T, p: T -> bool)
    ensures Filter(s + [x], p) == Filter(s, p) + if p(x) then [x] else []
  {
    assert (s + [x])[..|s|] == s;
  }

  lemma WithoutSnoc<T>(s: seq<T>, x: T, k: T)
    ensures Without(s + [x], k) == Without(s, k) + if x == k then [] else [x]
  {
    assert (s + [x])[..|s|] == s;
  }

  lemma Snoc<T>(s: seq<T>)
    requires s != []
    ensures s == s[..|s| - 1] + [s[|s| - 1]]
  {
  }

  /** Filtering the last `n` of a rising sequence gives the last `n` of the filtered one. */
  lemma {:induction false} FilterLast<T>(s: seq<T>, p: T -> bool, n: nat)
    requires Rising(s, p)
    ensures Filter(Last(s, n), p) == Last(Filter(s, p), n)
  {
    hide Rising, IsSuffix, Last, Filter;
    if s == [] {
      FilterNone(p);
      LastOfNone<T>(n);
    } else if n == 0 {
      FilterNone(p);
      LastZero(s);
      LastZero(Filter(s, p));
    } else {
      RisingPrefix(s, p);
      if p(s[|s| - 1]) {
        FilterLast(s[..|s| - 1], p, n - 1);
        FilterLastPasses(s[..|s| - 1], s[|s| - 1], p, n);
        Snoc(s);
      } else {
        LastEnds(s, n);
        RisingLast(s, p, n);
        RisingSuffix(s, p);
        RisingSuffix(Last(s, n), p);
        LastOfNone<T>(n);
      }
    }
  }

  lemma RisingPrefix<T>(s: seq<T>, p: T -> bool)
    requires Rising(s, p) && s != []
    ensures Rising(s[..|s| - 1], p)
  {
  }

  lemma FilterLastPasses<T>(before: seq<T>, x: T, p: T -> bool, n: nat)
    requires n >= 1 && p(x) && Filter(Last(before, n - 1), p) == Last(Filter(before, p), n - 1)
    ensures Filter(Last(before + [x], n), p) == Last(Filter(before + [x], p), n)
  {
    hide Last, Filter;
    LastSnoc(before, x, n);
    FilterSnoc(Last(before, n - 1), x, p);
    FilterSnoc(before, x, p);
    LastSnoc(Filter(before, p), x, n);
  }

  lemma LastEnds<T>(s: seq<T>, n: nat)
    requires n >= 1 && s != []
    ensures Last(s, n) != [] && Last(s, n)[|Last(s, n)| - 1] == s[|s| - 1]
  {
  }

  lemma RisingLast<T>(s: seq<T>, p: T -> bool, n: nat)
    requires Rising(s, p)
    ensures Rising(Last(s, n), p)
  {
  }

  lemma LastOfNone<T>(n: nat)
    ensures Last<T>([], n) == []
  {
  }

  lemma LastZero<T>(s: seq<T>)
    ensures Last(s, 0) == []
  {
  }

  /** Moving `k` to the end commutes with keeping the last `n`. */
  lemma TouchLast<T>(s: seq<T>, k: T, n: nat)
    requires Distinct(s)
    ensures Last(Without(Last(s, n), k) + [k], n) == Last(Without(s, k) + [k], n)
  {
    hide Last, Without, Distinct;
    if n > 0 {
      WithoutLast(s, k, n);
      LastSnoc(Without(Last(s, n), k), k, n);
      LastSnoc(Without(s, k), k, n);
    } else {
      LastZero(Without(Last(s, 0), k) + [k]);
      LastZero(Without(s, k) + [k]);
    }
  }

  lemma {:induction false} WithoutLast<T>(s: seq<T>, k: T, n: nat)
    requires n >= 1 && Distinct(s)
    ensures Last(Without(Last(s, n), k), n - 1) == Last(Without(s, k), n - 1)
  {
    hide Last, Without;
    if n == 1 {
      LastZero(Without(Last(s, 1), k));
      LastZero(Without(s, k));
    } else if s == [] {
      LastOfNone<T>(n);
    } else {
      var before, x := s[..|s| - 1], s[|s| - 1];
      WithoutLast(before, k, n - 1);
      Snoc(s);
      LastSnoc(before, x, n);
      WithoutSnoc(Last(before, n - 1), x, k);
      WithoutSnoc(before, x, k);
      PlusNone(Without(Last(before, n - 1), k));
      PlusNone(Without(before, k));
      if x == k {
        assert k !in before;
        LastMembers(before, n - 1);
        WithoutAbsent(before, k);
        WithoutAbsent(Last(before, n - 1), k);
        LastOfLast(before, n - 1);
      } else {
        LastSnoc(Without(Last(before, n - 1), k), x, n - 1);
        LastSnoc(Without(before, k), x, n - 1);
      }
    }
  }

  lemma LastMembers<T>(s: seq<T>, n: nat)
    ensures forall x | x in Last(s, n) :: x in s
  {
  }

  lemma LastOfLast<T>(s: seq<T>, n: nat)
    ensures Last(Last(s, n), n) == Last(s, n)
  {
  }

  lemma {:induction false} WithoutAbsent<T>(s: seq<T>, k: T)
    requires k !in s
    ensures Without(s, k) == s
  {
    if s != [] {
      assert s == s[..|s| - 1] + [s[|s| - 1]];
      WithoutAbsent(s[..|s| - 1], k);
    }
  }

  lemma LastLast<T>(s: seq<T>, x: T, n: nat)
    ensures Last(Last(s, n) + [x], n) == Last(s + [x], n)
  {
  }

  // ------------------------------------------------- the window, from history

  type History = seq<Observation>

  /** When the context was last observed. */
  function Newest(h: History, k: Key): real {
    if h == [] then 0.0
    else if h[|h| - 1].key == k then h[|h| - 1].evidence.at
    else Newest(h[..|h| - 1], k)
  }

  /** The contexts, least recently observed first. */
  function Recent(h: History): seq<Key> {
    if h == [] then [] else Without(Recent(h[..|h| - 1]), h[|h| - 1].key) + [h[|h| - 1].key]
  }

  predicate Fresh(lim: Limits, at: real, now: real) {
    now - at <= lim.ttl
  }

  function FreshKey(lim: Limits, h: History, now: real): Key -> bool {
    (k: Key) => Fresh(lim, Newest(h, k), now)
  }

  function FreshItem(lim: Limits, now: real): Evidence -> bool {
    (e: Evidence) => Fresh(lim, e.at, now)
  }

  /** The contexts held at `now`: the most recent ones still fresh. */
  function Held(lim: Limits, h: History, now: real): seq<Key> {
    Last(Filter(Recent(h), FreshKey(lim, h, now)), lim.contexts)
  }

  /** What a context has gathered since it was last dropped. */
  function Gathered(lim: Limits, h: History, k: Key): seq<Evidence> {
    if h == [] then []
    else
      var before, o := h[..|h| - 1], h[|h| - 1];
      if o.key != k then Gathered(lim, before, k)
      else (if k in Held(lim, before, o.evidence.at) then Gathered(lim, before, k) else []) + [o.evidence]
  }

  /** The evidence shown for a context at `now`. */
  function Window(lim: Limits, h: History, k: Key, now: real): seq<Evidence> {
    Last(Filter(Gathered(lim, h, k), FreshItem(lim, now)), lim.perContext)
  }

  /** Clock readings never go back. */
  ghost predicate Monotone(h: History) {
    forall i, j | 0 <= i < j < |h| :: h[i].evidence.at <= h[j].evidence.at
  }

  // ------------------------------------------------------- order of contexts

  ghost predicate SortedBy<T>(s: seq<T>, f: T -> real) {
    forall i, j | 0 <= i < j < |s| :: f(s[i]) <= f(s[j])
  }

  lemma {:induction false} WithoutSorted<T>(s: seq<T>, k: T, f: T -> real)
    requires SortedBy(s, f) && Distinct(s)
    ensures SortedBy(Without(s, k), f) && Distinct(Without(s, k))
  {
    if s != [] {
      var before, x := s[..|s| - 1], s[|s| - 1];
      WithoutSorted(before, k, f);
      var rest := Without(before, k);
      WithoutSnoc(before, x, k);
      Snoc(s);
      forall i | 0 <= i < |rest| ensures f(rest[i]) <= f(x) && rest[i] != x {
        WithoutMember(before, k, i);
        var j :| 0 <= j < |before| && before[j] == rest[i];
        assert s[j] == before[j];
      }
      hide Without;
    }
  }

  lemma WithoutMember<T>(s: seq<T>, k: T, i: nat)
    requires i < |Without(s, k)|
    ensures Without(s, k)[i] in s && Without(s, k)[i] != k
  {
    WithoutMembers(s, k);
    assert Without(s, k)[i] in Without(s, k);
  }

  function NewestOf(h: History): Key -> real {
    (k: Key) => Newest(h, k)
  }

  predicate NotAfter(h: History, t: real) {
    forall o | o in h :: o.evidence.at <= t
  }

  lemma Snocs(h: History)
    requires h != [] && Monotone(h)
    ensures Monotone(h[..|h| - 1]) && NotAfter(h[..|h| - 1], h[|h| - 1].evidence.at)
  {
    var before := h[..|h| - 1];
    forall o | o in before ensures o.evidence.at <= h[|h| - 1].evidence.at {
      var i :| 0 <= i < |before| && before[i] == o;
      assert h[i] == o;
    }
  }

  lemma {:induction false} NewestNotAfter(h: History, k: Key, t: real)
    requires NotAfter(h, t) && k in Recent(h)
    ensures Newest(h, k) <= t
  {
    var before, o := h[..|h| - 1], h[|h| - 1];
    assert o in h && forall x | x in before :: x in h;
    if o.key != k {
      WithoutMembers(Recent(before), o.key);
      NewestNotAfter(before, k, t);
    }
  }

  /** The contexts are in the order of their latest observations. */
  lemma {:induction false} RecentIsSorted(h: History)
    requires Monotone(h)
    ensures SortedBy(Recent(h), NewestOf(h)) && Distinct(Recent(h))
  {
    if h != [] {
      var before, o := h[..|h| - 1], h[|h| - 1];
      Snocs(h);
      RecentIsSorted(before);
      hide SortedBy, Distinct, Without, Newest, Monotone, NotAfter;
      WithoutSorted(Recent(before), o.key, NewestOf(before));
      WithoutMembers(Recent(before), o.key);
      var rest := Without(Recent(before), o.key);
      forall k | k in rest ensures Newest(h, k) == Newest(before, k) <= o.evidence.at && k != o.key {
        NewestElsewhere(h, k);
        NewestNotAfter(before, k, o.evidence.at);
      }
      NewestElsewhere(h, o.key);
      SortedTouch(rest, o.key, NewestOf(before), NewestOf(h));
    }
  }

  lemma NewestElsewhere(h: History, k: Key)
    requires h != []
    ensures Newest(h, k) == if h[|h| - 1].key == k then h[|h| - 1].evidence.at else Newest(h[..|h| - 1], k)
  {
  }

  /** Moved to the end with the greatest value, an element keeps the order. */
  lemma SortedTouch<T>(s: seq<T>, k: T, was: T -> real, now: T -> real)
    requires SortedBy(s, was) && Distinct(s)
    requires forall x | x in s :: now(x) == was(x) <= now(k) && x != k
    ensures SortedBy(s + [k], now) && Distinct(s + [k])
  {
    assert forall i | 0 <= i < |s| :: s[i] in s;
    forall i, j | 0 <= i < j < |s + [k]| ensures now((s + [k])[i]) <= now((s + [k])[j]) && (s + [k])[i] != (s + [k])[j] {
      if j < |s| {
        assert was(s[i]) <= was(s[j]);
      }
    }
  }

  lemma RecentRises(lim: Limits, h: History, now: real)
    requires Monotone(h)
    ensures Rising(Recent(h), FreshKey(lim, h, now)) && Distinct(Recent(h))
  {
    RecentIsSorted(h);
    var r, f := Recent(h), NewestOf(h);
    hide Recent, Newest;
    forall i, j | 0 <= i < j < |r| && FreshKey(lim, h, now)(r[i]) ensures FreshKey(lim, h, now)(r[j]) {
      assert f(r[i]) <= f(r[j]);
    }
  }

  // ------------------------------------------------------------- time passing

  lemma SuffixRises<T>(a: seq<T>, b: seq<T>, p: T -> bool)
    requires IsSuffix(a, b) && Rising(b, p)
    ensures Rising(a, p)
  {
    assert forall i | 0 <= i < |a| :: a[i] == b[|b| - |a| + i];
  }

  lemma {:induction false} FilterTwice<T>(s: seq<T>, p: T -> bool, q: T -> bool)
    requires forall x | x in s && q(x) :: p(x)
    ensures Filter(Filter(s, p), q) == Filter(s, q)
  {
    if s != [] {
      var before, x := s[..|s| - 1], s[|s| - 1];
      assert s == before + [x];
      FilterTwice(before, p, q);
      FilterSnoc(Filter(before, p), x, q);
      FilterSnoc(before, x, p);
      FilterSnoc(before, x, q);
      assert p(x) ==> Filter(Filter(before, p) + [x], q) == Filter(Filter(before, p), q) + if q(x) then [x] else [];
      assert Filter(before, p) + [] == Filter(before, p);
      assert Filter(before, q) + [] == Filter(before, q);
    }
  }

  /** A window of a rising sequence, seen again later. */
  lemma WindowLater<T>(s: seq<T>, p: T -> bool, q: T -> bool, n: nat)
    requires Rising(s, p) && Rising(s, q) && forall x | x in s && q(x) :: p(x)
    ensures Filter(Last(Filter(s, p), n), q) == Last(Filter(s, q), n)
    ensures IsSuffix(Filter(Last(Filter(s, p), n), q), Last(Filter(s, p), n))
  {
    RisingSuffix(s, p);
    SuffixRises(Filter(s, p), s, q);
    RisingLast(Filter(s, p), q, n);
    hide Rising, Last, IsSuffix, Filter;
    RisingSuffix(Last(Filter(s, p), n), q);
    FilterLast(Filter(s, p), q, n);
    FilterTwice(s, p, q);
  }

  /** Pruning removes exactly a prefix of the contexts. */
  lemma HeldLater(lim: Limits, h: History, now: real, t: real)
    requires Monotone(h) && now <= t
    ensures Held(lim, h, t) == Filter(Held(lim, h, now), FreshKey(lim, h, t))
    ensures IsSuffix(Held(lim, h, t), Held(lim, h, now))
  {
    RecentRises(lim, h, now);
    RecentRises(lim, h, t);
    assert forall k | FreshKey(lim, h, t)(k) :: FreshKey(lim, h, now)(k);
    hide Rising, Recent, FreshKey, Filter, Last;
    WindowLater(Recent(h), FreshKey(lim, h, now), FreshKey(lim, h, t), lim.contexts);
  }

  function At(): Evidence -> real {
    (e: Evidence) => e.at
  }

  /** A context's evidence is in order, and ends with its newest. */
  lemma {:induction false} GatheredIsSorted(lim: Limits, h: History, k: Key)
    requires Monotone(h)
    ensures SortedBy(Gathered(lim, h, k), At())
    ensures k in Recent(h) <==> Gathered(lim, h, k) != []
    ensures k in Recent(h) ==> Gathered(lim, h, k)[|Gathered(lim, h, k)| - 1].at == Newest(h, k)
  {
    if h != [] {
      GatheredIsSorted(lim, h[..|h| - 1], k);
      GatheredGrows(lim, h, k);
    }
  }

  lemma GatheredGrows(lim: Limits, h: History, k: Key)
    requires Monotone(h) && h != []
    requires var before := h[..|h| - 1];
             && SortedBy(Gathered(lim, before, k), At())
             && (k in Recent(before) <==> Gathered(lim, before, k) != [])
             && (k in Recent(before) ==> Gathered(lim, before, k)[|Gathered(lim, before, k)| - 1].at == Newest(before, k))
    ensures SortedBy(Gathered(lim, h, k), At())
    ensures k in Recent(h) <==> Gathered(lim, h, k) != []
    ensures k in Recent(h) ==> Gathered(lim, h, k)[|Gathered(lim, h, k)| - 1].at == Newest(h, k)
  {
    var before, o := h[..|h| - 1], h[|h| - 1];
    var g := Gathered(lim, before, k);
    Snocs(h);
    hide Held, Monotone, SortedBy;
    WithoutMembers(Recent(before), o.key);
    if o.key == k {
      SortedOne(o.evidence);
      if k in Recent(before) {
        hide Recent;
        NewestNotAfter(before, k, o.evidence.at);
        SortedEnds(g);
        SortedSnoc(g, o.evidence);
      }
    }
  }

  lemma SortedSnoc(s: seq<Evidence>, e: Evidence)
    requires SortedBy(s, At()) && (forall i | 0 <= i < |s| :: s[i].at <= e.at)
    ensures SortedBy(s + [e], At())
  {
  }

  lemma SortedOne(e: Evidence)
    ensures SortedBy([] + [e], At()) && SortedBy([e], At())
  {
  }

  lemma SortedEnds(s: seq<Evidence>)
    requires SortedBy(s, At()) && s != []
    ensures forall i | 0 <= i < |s| :: s[i].at <= s[|s| - 1].at
  {
    forall i | 0 <= i < |s| ensures s[i].at <= s[|s| - 1].at {
      assert i < |s| - 1 ==> At()(s[i]) <= At()(s[|s| - 1]);
    }
  }

  lemma GatheredRises(lim: Limits, h: History, k: Key, now: real)
    requires Monotone(h)
    ensures Rising(Gathered(lim, h, k), FreshItem(lim, now))
  {
    GatheredIsSorted(lim, h, k);
    var g := Gathered(lim, h, k);
    hide Gathered;
    forall i, j | 0 <= i < j < |g| && FreshItem(lim, now)(g[i]) ensures FreshItem(lim, now)(g[j]) {
      assert At()(g[i]) <= At()(g[j]);
    }
  }

  /** The window is the fresh part of the last `perContext` items gathered. */
  lemma WindowIsFreshPart(lim: Limits, h: History, k: Key, now: real)
    requires Monotone(h)
    ensures Window(lim, h, k, now) == Filter(Last(Gathered(lim, h, k), lim.perContext), FreshItem(lim, now))
  {
    GatheredRises(lim, h, k, now);
    hide Gathered, Filter, Last, FreshItem, Rising;
    FilterLast(Gathered(lim, h, k), FreshItem(lim, now), lim.perContext);
  }

  lemma WindowAges(lim: Limits, h: History, k: Key, now: real, t: real)
    requires Monotone(h) && now <= t
    ensures Filter(Window(lim, h, k, now), FreshItem(lim, t)) == Window(lim, h, k, t)
  {
    GatheredRises(lim, h, k, now);
    GatheredRises(lim, h, k, t);
    assert forall e | FreshItem(lim, t)(e) :: FreshItem(lim, now)(e);
    hide Rising, Gathered, FreshItem, Filter, Last;
    WindowLater(Gathered(lim, h, k), FreshItem(lim, now), FreshItem(lim, t), lim.perContext);
  }

  /** A window is empty exactly when the context's newest evidence is stale. */
  lemma WindowIsFresh(lim: Limits, h: History, k: Key, t: real)
    requires Monotone(h) && lim.perContext >= 1 && k in Recent(h)
    ensures Window(lim, h, k, t) != [] <==> FreshKey(lim, h, t)(k)
  {
    GatheredIsSorted(lim, h, k);
    GatheredRises(lim, h, k, t);
    hide Gathered, Recent, Newest, Rising;
    RisingSuffix(Gathered(lim, h, k), FreshItem(lim, t));
  }

  lemma HeldAreRecent(lim: Limits, h: History, now: real)
    requires Monotone(h)
    ensures forall k | k in Held(lim, h, now) :: k in Recent(h)
    ensures Distinct(Held(lim, h, now))
  {
    RecentRises(lim, h, now);
    hide Recent, FreshKey, Rising, Filter, Last, Distinct;
    FilterMembers(Recent(h), FreshKey(lim, h, now));
    FilteredDistinct(Recent(h), FreshKey(lim, h, now));
    LastMembers(Filter(Recent(h), FreshKey(lim, h, now)), lim.contexts);
    LastDistinct(Filter(Recent(h), FreshKey(lim, h, now)), lim.contexts);
  }

  lemma LastDistinct<T>(s: seq<T>, n: nat)
    requires Distinct(s)
    ensures Distinct(Last(s, n))
  {
  }

  // ------------------------------------------------------------ one observation

  lemma {:induction false} FilterSame<T>(s: seq<T>, p: T -> bool, q: T -> bool)
    requires forall x | x in s :: p(x) == q(x)
    ensures Filter(s, p) == Filter(s, q)
  {
    if s != [] {
      FilterSame(s[..|s| - 1], p, q);
    }
  }

  lemma {:induction false} FilterWithout<T>(s: seq<T>, k: T, p: T -> bool)
    ensures Filter(Without(s, k), p) == Without(Filter(s, p), k)
  {
    if s != [] {
      var before, x := s[..|s| - 1], s[|s| - 1];
      FilterWithout(before, k, p);
      Snoc(s);
      hide Filter, Without;
      WithoutSnoc(before, x, k);
      FilterSnoc(before, x, p);
      FilterSnoc(Without(before, k), x, p);
      WithoutSnoc(Filter(before, p), x, k);
      PlusNone(Without(before, k));
      PlusNone(Filter(before, p));
      PlusNone(Filter(Without(before, k), p));
    }
  }

  lemma PlusNone<T>(s: seq<T>)
    ensures s + [] == s
  {
  }

  /** Observing moves the context to the end and drops the first if there are too many. */
  lemma HeldObserves(lim: Limits, h: History, o: Observation)
    requires Monotone(h) && NotAfter(h, o.evidence.at) && lim.ttl >= 0.0
    ensures var t := o.evidence.at;
            Held(lim, h + [o], t) == Last(Without(Held(lim, h, t), o.key) + [o.key], lim.contexts)
  {
    var t, k, r := o.evidence.at, o.key, Recent(h);
    var p, q := FreshKey(lim, h, t), FreshKey(lim, h + [o], t);
    assert (h + [o])[..|h|] == h;
    assert Recent(h + [o]) == Without(r, k) + [k];
    WithoutMembers(r, k);
    forall j | j in Without(r, k) ensures p(j) == q(j) {
      assert Newest(h + [o], j) == Newest(h, j);
    }
    assert q(k);
    RecentRises(lim, h, t);
    hide Recent, FreshKey, Newest, Last, Filter, Without;
    FilterSnoc(Without(r, k), k, q);
    FilterSame(Without(r, k), p, q);
    FilterWithout(r, k, p);
    FilteredDistinct(r, p);
    TouchLast(Filter(r, p), k, lim.contexts);
  }

  lemma FilteredDistinct<T>(s: seq<T>, p: T -> bool)
    requires Rising(s, p) && Distinct(s)
    ensures Distinct(Filter(s, p))
  {
    RisingSuffix(s, p);
    hide Rising;
    var f := Filter(s, p);
    assert forall i | 0 <= i < |f| :: f[i] == s[|s| - |f| + i];
  }

  /** The observed context's window gains the item; the others stay. */
  lemma WindowObserves(lim: Limits, h: History, o: Observation, k: Key)
    requires Monotone(h) && NotAfter(h, o.evidence.at) && lim.ttl >= 0.0
    ensures var t := o.evidence.at;
            Window(lim, h + [o], k, t) ==
              if k != o.key then Window(lim, h, k, t)
              else Last((if k in Held(lim, h, t) then Window(lim, h, k, t) else []) + [o.evidence], lim.perContext)
  {
    var t, e := o.evidence.at, o.evidence;
    assert (h + [o])[..|h|] == h;
    var kept := if k in Held(lim, h, t) then Gathered(lim, h, k) else [];
    assert Gathered(lim, h + [o], k) == if k == o.key then kept + [e] else Gathered(lim, h, k);
    assert FreshItem(lim, t)(e);
    hide Held, Gathered, Last, FreshItem;
    if k == o.key {
      FilterSnoc(kept, e, FreshItem(lim, t));
      LastLast(Filter(kept, FreshItem(lim, t)), e, lim.perContext);
      LastOfNone<Evidence>(lim.perContext);
    }
  }

  lemma MonotoneGrows(h: History, o: Observation)
    requires Monotone(h) && NotAfter(h, o.evidence.at)
    ensures Monotone(h + [o]) && NotAfter(h + [o], o.evidence.at)
  {
    assert forall i | 0 <= i < |h| :: h[i] in h;
  }

  // ---------------------------------------------- which contexts are held

  /** The last observation of `k`. */
  ghost predicate LastAt(h: History, k: Key, i: nat) {
    i < |h| && h[i].key == k && forall j | i < j < |h| :: h[j].key != k
  }

  /** The contexts observed after place `i`. */
  ghost function SeenSince(h: History, i: nat): set<Key> {
    set j | i < j < |h| :: h[j].key
  }

  lemma {:induction false} WithoutSplits<T>(a: seq<T>, b: seq<T>, k: T)
    ensures Without(a + b, k) == Without(a, k) + Without(b, k)
  {
    if b == [] {
      assert a + b == a;
    } else {
      assert (a + b)[..|a + b| - 1] == a + b[..|b| - 1];
      WithoutSplits(a, b[..|b| - 1], k);
    }
  }

  /** Behind a context stand exactly those observed after its last observation. */
  lemma {:induction false} BehindIsLater(h: History, k: Key) returns (i: nat, ahead: seq<Key>, behind: seq<Key>)
    requires k in Recent(h)
    ensures LastAt(h, k, i) && Newest(h, k) == h[i].evidence.at
    ensures Recent(h) == ahead + [k] + behind && forall x :: x in behind <==> x in SeenSince(h, i)
  {
    var before, o := h[..|h| - 1], h[|h| - 1];
    if o.key == k {
      i, ahead, behind := |h| - 1, Without(Recent(before), k), [];
      assert ahead + [k] + [] == ahead + [k];
    } else {
      WithoutMembers(Recent(before), o.key);
      var a, b;
      i, a, b := BehindIsLater(before, k);
      ahead, behind := Without(a, o.key), Without(b, o.key) + [o.key];
      assert Recent(h) == Without(Recent(before), o.key) + [o.key];
      hide Recent;
      TouchesBehind(a, k, b, o.key);
      WithoutMembers(b, o.key);
      SeenGrows(h, i);
      assert forall j | i < j < |h| - 1 :: h[j] == before[j];
      hide Without, SeenSince;
    }
  }

  lemma TouchesBehind<T>(a: seq<T>, k: T, b: seq<T>, x: T)
    requires x != k
    ensures Without(a + [k] + b, x) + [x] == Without(a, x) + [k] + (Without(b, x) + [x])
  {
    WithoutSplits(a + [k], b, x);
    WithoutSnoc(a, k, x);
    hide Without;
  }

  lemma SeenGrows(h: History, i: nat)
    requires i + 1 < |h|
    ensures SeenSince(h, i) == SeenSince(h[..|h| - 1], i) + {h[|h| - 1].key}
  {
    var before := h[..|h| - 1];
    assert forall j | i < j < |before| :: before[j] == h[j];
    assert h[|h| - 1].key in SeenSince(h, i);
  }

  ghost predicate Observed(h: History, k: Key) {
    exists i: nat :: i < |h| && h[i].key == k
  }

  lemma ObservedGrows(h: History, k: Key)
    requires h != []
    ensures Observed(h, k) <==> Observed(h[..|h| - 1], k) || h[|h| - 1].key == k
  {
    var before := h[..|h| - 1];
    if Observed(before, k) {
      var i: nat :| i < |before| && before[i].key == k;
      assert h[i].key == k;
    }
    if Observed(h, k) {
      var i: nat :| i < |h| && h[i].key == k;
      assert i < |before| ==> before[i].key == k;
    }
  }

  lemma {:induction false} RecentMembers(h: History, k: Key)
    ensures k in Recent(h) <==> Observed(h, k)
  {
    if h != [] {
      RecentMembers(h[..|h| - 1], k);
      ObservedGrows(h, k);
      WithoutMembers(Recent(h[..|h| - 1]), h[|h| - 1].key);
    }
    hide Observed, Without;
  }

  /**
    A context is held exactly when its last observation is no older than the age
    limit and fewer than the allowed number of contexts were observed since.
  */
  lemma HeldIff(lim: Limits, h: History, k: Key, now: real)
    requires Monotone(h)
    ensures k in Held(lim, h, now) <==>
              exists i: nat :: LastAt(h, k, i) && now - h[i].evidence.at <= lim.ttl && |SeenSince(h, i)| < lim.contexts
  {
    RecentMembers(h, k);
    if k !in Recent(h) {
      FilterMembers(Recent(h), FreshKey(lim, h, now));
      LastMembers(Filter(Recent(h), FreshKey(lim, h, now)), lim.contexts);
    } else {
      HeldExactly(lim, h, k, now);
    }
  }

  lemma HeldExactly(lim: Limits, h: History, k: Key, now: real)
    requires Monotone(h) && k in Recent(h)
    ensures k in Held(lim, h, now) <==>
              exists i: nat :: LastAt(h, k, i) && now - h[i].evidence.at <= lim.ttl && |SeenSince(h, i)| < lim.contexts
  {
    var i, ahead, behind := BehindIsLater(h, k);
    RecentRises(lim, h, now);
    RisingSuffix(Recent(h), FreshKey(lim, h, now));
    FilterMembers(Recent(h), FreshKey(lim, h, now));
    DistinctSize(ahead, k, behind);
    hide Recent, Newest, Filter, Last, Rising, Distinct, Monotone;
    assert Members(behind) == SeenSince(h, i);
    OnlyLast(h, k, i);
    SuffixHolds(ahead, k, behind, Filter(Recent(h), FreshKey(lim, h, now)), lim.contexts);
    hide SeenSince, LastAt, IsSuffix;
  }

  lemma OnlyLast(h: History, k: Key, i: nat)
    requires LastAt(h, k, i)
    ensures forall j: nat | LastAt(h, k, j) :: j == i
  {
  }

  lemma DistinctSize<T>(ahead: seq<T>, k: T, behind: seq<T>)
    requires Distinct(ahead + [k] + behind)
    ensures |Members(behind)| == |behind| && k !in behind && k !in ahead
  {
    var all := ahead + [k] + behind;
    assert forall i | 0 <= i < |behind| :: behind[i] == all[|ahead| + 1 + i];
    assert forall i | 0 <= i < |ahead| :: ahead[i] == all[i];
    assert all[|ahead|] == k;
    DistinctSet(behind);
  }

  ghost function Members<T>(s: seq<T>): set<T> {
    set x | x in s
  }

  lemma {:induction false} DistinctSet<T>(s: seq<T>)
    requires Distinct(s)
    ensures |Members(s)| == |s|
  {
    if s != [] {
      var before, last := s[..|s| - 1], s[|s| - 1];
      DistinctSet(before);
      assert last !in before && s == before + [last];
      assert Members(s) == Members(before) + {last};
    }
  }

  /** An element is among the last `n` of a suffix that has it exactly when fewer than `n` follow it. */
  lemma SuffixHolds<T>(ahead: seq<T>, k: T, behind: seq<T>, suffix: seq<T>, n: nat)
    requires IsSuffix(suffix, ahead + [k] + behind) && k !in ahead && k !in behind
    ensures k in Last(suffix, n) <==> k in suffix && |behind| < n
  {
    var all, last := ahead + [k] + behind, Last(suffix, n);
    assert last == all[|all| - |last|..];
    assert all[|ahead|] == k && forall i | 0 <= i < |all| && all[i] == k :: i == |ahead|;
    if |behind| < |last| {
      assert last[|last| - |behind| - 1] == all[|ahead|];
    }
    if |behind| < |suffix| {
      assert suffix[|suffix| - |behind| - 1] == all[|ahead|];
    }
  }

  // -------------------------------------------------------------- the registry

  datatype EventType = VerifiedCompletion | MaterialFailure | BlockedNeedsOwner | OtherType

  predicate Matches(kind: EventType, e: Evidence) {
    match kind
    case VerifiedCompletion => e.status == "ok"
    case MaterialFailure => e.status != "ok"
    case BlockedNeedsOwner => true
    case OtherType => false
  }

  datatype Selection = Selected(items: seq<Evidence>) | MissingIdentity | TypeNotAllowed | Insufficient

  /** candidates[-count:], which is everything for count 0. */
  function Newests(items: seq<Evidence>, count: nat): seq<Evidence> {
    if count == 0 then items else Last(items, count)
  }

  /** The selection a window gives. */
  function SelectFrom(window: seq<Evidence>, kind: EventType, count: nat): Selection {
    var candidates := Filter(window, (e: Evidence) => Matches(kind, e));
    if kind == OtherType then TypeNotAllowed
    else if |candidates| < count then Insufficient
    else Selected(Newests(candidates, count))
  }

  // -------------------------------------------- what a selection means

  /** The status an event type asks of its evidence. */
  ghost predicate Asked(kind: EventType, status: string) {
    && (kind == VerifiedCompletion ==> status == "ok")
    && (kind == MaterialFailure ==> status != "ok")
    && kind != OtherType
  }

  /** The places of a window whose evidence the event type asks for. */
  ghost function AskedPlaces(window: seq<Evidence>, kind: EventType): set<nat> {
    set j: nat | j < |window| && Asked(kind, window[j].status)
  }

  ghost predicate Increasing(places: seq<nat>) {
    forall i, j | 0 <= i < j < |places| :: places[i] < places[j]
  }

  /** `items` stand at these places of the window, in its order. */
  ghost predicate StandAt(items: seq<Evidence>, window: seq<Evidence>, places: seq<nat>) {
    && |places| == |items| && Increasing(places)
    && forall i | 0 <= i < |places| :: places[i] < |window| && window[places[i]] == items[i]
  }

  /** They are asked for, and all others asked for stand before them. */
  ghost predicate NewestAsked(window: seq<Evidence>, kind: EventType, places: seq<nat>) {
    && (forall i | 0 <= i < |places| :: places[i] in AskedPlaces(window, kind))
    && forall i, j | 0 <= i < |places| && j in AskedPlaces(window, kind) && j !in places :: j < places[i]
  }

  /** What `select` promises of a window: the newest `count` asked for; all of them for count 0. */
  ghost predicate RightSelection(window: seq<Evidence>, kind: EventType, count: nat, r: Selection) {
    && (r == TypeNotAllowed <==> kind == OtherType)
    && (r == Insufficient <==> kind != OtherType && |AskedPlaces(window, kind)| < count)
    && r != MissingIdentity
    && (r.Selected? ==>
          && |r.items| == (if count == 0 then |AskedPlaces(window, kind)| else count)
          && exists places :: StandAt(r.items, window, places) && NewestAsked(window, kind, places))
  }

  /** The elements a filter keeps stand at `places`. */
  ghost predicate KeptAt<T>(s: seq<T>, p: T -> bool, kept: seq<T>, places: seq<nat>) {
    && |places| == |kept| && Increasing(places)
    && (forall i | 0 <= i < |places| :: places[i] < |s| && s[places[i]] == kept[i])
    && (forall j: nat | j < |s| :: j in places <==> p(s[j]))
  }

  lemma {:induction false} FilterPlaces<T>(s: seq<T>, p: T -> bool) returns (places: seq<nat>)
    ensures KeptAt(s, p, Filter(s, p), places)
  {
    places := [];
    if s != [] {
      var before, x := s[..|s| - 1], s[|s| - 1];
      places := FilterPlaces(before, p);
      KeptSnoc(before, x, p, Filter(before, p), places);
      FilterSnoc(before, x, p);
      Snoc(s);
      PlusNone(Filter(before, p));
      hide KeptAt, Filter;
      if p(x) {
        places := places + [|before|];
      }
    }
  }

  lemma KeptSnoc<T>(s: seq<T>, x: T, p: T -> bool, kept: seq<T>, places: seq<nat>)
    requires KeptAt(s, p, kept, places)
    ensures if p(x) then KeptAt(s + [x], p, kept + [x], places + [|s|]) else KeptAt(s + [x], p, kept, places)
  {
    var all := s + [x];
    assert forall j | 0 <= j < |s| :: all[j] == s[j];
    assert all[|s|] == x;
    if p(x) {
      var more := places + [|s|];
      assert more[|places|] == |s|;
      forall j: nat | j < |all| ensures j in more <==> p(all[j]) {
        assert j in more <==> j in places || j == |s|;
      }
    }
  }

  lemma SelectIsRight(window: seq<Evidence>, kind: EventType, count: nat)
    ensures RightSelection(window, kind, count, SelectFrom(window, kind, count))
  {
    var wants := (e: Evidence) => Matches(kind, e);
    var candidates := Filter(window, wants);
    var places := FilterPlaces(window, wants);
    PlacesAre(window, kind, wants, places);
    hide AskedPlaces, Filter;
    if kind != OtherType && |candidates| >= count {
      hide Asked, Increasing, Matches;
      NewestsStand(window, kind, candidates, places, count);
    }
    hide StandAt, NewestAsked, Newests;
  }

  lemma PlacesAre(window: seq<Evidence>, kind: EventType, wants: Evidence -> bool, places: seq<nat>)
    requires forall e :: wants(e) == Matches(kind, e)
    requires Increasing(places) && forall j: nat | j < |window| :: j in places <==> wants(window[j])
    requires forall i | 0 <= i < |places| :: places[i] < |window|
    ensures |AskedPlaces(window, kind)| == |places| && forall j: nat :: j in places <==> j in AskedPlaces(window, kind)
  {
    assert AskedPlaces(window, kind) == Members(places);
    assert Distinct(places);
    DistinctSet(places);
  }

  lemma NewestsStand(window: seq<Evidence>, kind: EventType, candidates: seq<Evidence>, places: seq<nat>, count: nat)
    requires StandAt(candidates, window, places) && count <= |candidates|
    requires forall j: nat :: j in places <==> j in AskedPlaces(window, kind)
    ensures var items := Newests(candidates, count);
            && |items| == (if count == 0 then |candidates| else count)
            && exists some :: StandAt(items, window, some) && NewestAsked(window, kind, some)
  {
    var skipped := if count == 0 then 0 else |candidates| - count;
    var items, some := Newests(candidates, count), places[skipped..];
    assert items == candidates[skipped..];
    TailIsNewest(places, skipped);
    assert forall i | 0 <= i < |some| :: some[i] == places[skipped + i] && some[i] in places;
    hide AskedPlaces, Newests;
    assert StandAt(items, window, some);
    assert NewestAsked(window, kind, some);
  }

  lemma TailIsNewest(places: seq<nat>, skipped: nat)
    requires Increasing(places) && skipped <= |places|
    ensures Increasing(places[skipped..])
    ensures forall i, j | 0 <= i < |places[skipped..]| && j in places && j !in places[skipped..] :: j < places[skipped..][i]
  {
    var tail := places[skipped..];
    forall m | skipped <= m < |places| ensures places[m] in tail {
      assert tail[m - skipped] == places[m];
    }
    forall i, j | 0 <= i < |tail| && j in places && j !in tail ensures j < tail[i] {
      var m :| 0 <= m < |places| && places[m] == j;
      assert m < skipped;
    }
  }

  const REPORT_TOOL_NAME := "hlb_report_work_event"

  type Buckets = map<Key, seq<Evidence>>

  /** The registry shows, context by context, the window over everything observed. */
  ghost predicate Shows(lim: Limits, h: History, now: real, order: seq<Key>, buckets: Buckets) {
    && Monotone(h) && NotAfter(h, now)
    && order == Held(lim, h, now)
    && (forall k :: k in buckets <==> k in order)
    && (forall k | k in order :: buckets[k] == Window(lim, h, k, now))
  }

  lemma ShowsNothing(lim: Limits, now: real)
    ensures Shows(lim, [], now, [], map[])
  {
    assert Recent([]) == [];
    hide Newest, Gathered;
  }

  function FreshPart(lim: Limits, now: real, buckets: Buckets, k: Key): seq<Evidence> {
    if k in buckets then Filter(buckets[k], FreshItem(lim, now)) else []
  }

  function IsStale(lim: Limits, now: real, buckets: Buckets): Key -> bool {
    (k: Key) => FreshPart(lim, now, buckets, k) == []
  }

  function NotIn(keys: seq<Key>): Key -> bool {
    (k: Key) => k !in keys
  }

  /** The buckets after the pruning loop has passed the contexts `done`. */
  function Trimmed(lim: Limits, now: real, buckets: Buckets, done: seq<Key>): Buckets {
    map k | k in buckets ::
      if k in done && FreshPart(lim, now, buckets, k) != [] then FreshPart(lim, now, buckets, k) else buckets[k]
  }

  function Only(buckets: Buckets, keys: seq<Key>): Buckets {
    map k | k in buckets && k in keys :: buckets[k]
  }

  lemma TrimsNone(lim: Limits, now: real, buckets: Buckets, order: seq<Key>)
    ensures Trimmed(lim, now, buckets, order[..0]) == buckets
    ensures Filter(order[..0], IsStale(lim, now, buckets)) == []
  {
  }

  lemma TrimsOneMore(lim: Limits, now: real, buckets: Buckets, order: seq<Key>, i: nat)
    requires i < |order| && Distinct(order) && order[i] in buckets
    ensures var k := order[i];
            && k in Trimmed(lim, now, buckets, order[..i]) && Trimmed(lim, now, buckets, order[..i])[k] == buckets[k]
            && Trimmed(lim, now, buckets, order[..i + 1]) ==
               (if FreshPart(lim, now, buckets, k) != []
                then Trimmed(lim, now, buckets, order[..i])[k := FreshPart(lim, now, buckets, k)]
                else Trimmed(lim, now, buckets, order[..i]))
  {
    assert order[..i + 1] == order[..i] + [order[i]];
    assert order[i] !in order[..i];
    hide FreshPart, Distinct;
  }

  lemma ExpiresOneMore(lim: Limits, now: real, buckets: Buckets, order: seq<Key>, i: nat)
    requires i < |order|
    ensures var stale := IsStale(lim, now, buckets);
            Filter(order[..i + 1], stale) ==
              if FreshPart(lim, now, buckets, order[i]) == [] then Filter(order[..i], stale) + [order[i]]
              else Filter(order[..i], stale)
  {
    assert order[..i + 1] == order[..i] + [order[i]];
    hide FreshPart, Filter;
    FilterSnoc(order[..i], order[i], IsStale(lim, now, buckets));
    PlusNone(Filter(order[..i], IsStale(lim, now, buckets)));
  }

  /** What pruning finds in each bucket. */
  lemma FreshParts(lim: Limits, h: History, now: real, t: real, order: seq<Key>, buckets: Buckets)
    requires Shows(lim, h, now, order, buckets) && now <= t && lim.perContext >= 1
    ensures forall k | k in order ::
              && FreshPart(lim, t, buckets, k) == Window(lim, h, k, t)
              && (IsStale(lim, t, buckets)(k) <==> !FreshKey(lim, h, t)(k))
              && (IsStale(lim, t, buckets)(k) <==> FreshPart(lim, t, buckets, k) == [])
  {
    HeldAreRecent(lim, h, now);
    hide Window, Recent, Newest, Gathered, Monotone, Held, FreshKey, Filter;
    forall k | k in order
      ensures FreshPart(lim, t, buckets, k) == Window(lim, h, k, t)
      ensures Window(lim, h, k, t) != [] <==> FreshKey(lim, h, t)(k)
    {
      WindowAges(lim, h, k, now, t);
      WindowIsFresh(lim, h, k, t);
    }
  }

  lemma ShowsBy(lim: Limits, h: History, now: real, order: seq<Key>, buckets: Buckets)
    requires Monotone(h) && NotAfter(h, now) && order == Held(lim, h, now)
    requires forall k :: k in buckets <==> k in order
    requires forall k | k in order :: buckets[k] == Window(lim, h, k, now)
    ensures Shows(lim, h, now, order, buckets)
  {
  }

  lemma ShowsMeans(lim: Limits, h: History, now: real, order: seq<Key>, buckets: Buckets)
    requires Shows(lim, h, now, order, buckets)
    ensures Monotone(h) && NotAfter(h, now) && order == Held(lim, h, now) && Distinct(order)
    ensures forall k :: k in buckets <==> k in order
  {
    HeldAreRecent(lim, h, now);
    hide Held;
  }

  /** Pruning shows the same history at the later time. */
  lemma PruneShows(lim: Limits, h: History, now: real, t: real, order: seq<Key>, buckets: Buckets, expired: seq<Key>)
    requires Shows(lim, h, now, order, buckets) && now <= t && lim.perContext >= 1
    requires expired == Filter(order, IsStale(lim, t, buckets))
    ensures var after := Filter(order, NotIn(expired));
            && Shows(lim, h, t, after, Only(Trimmed(lim, t, buckets, order), after)) && IsSuffix(after, order)
  {
    hide Shows, Window, Recent, Newest, Gathered, Monotone, NotAfter, Held, FreshPart, IsStale, FreshKey, Filter,
         IsSuffix, NotIn, Only, Trimmed;
    ShowsMeans(lim, h, now, order, buckets);
    FreshParts(lim, h, now, t, order, buckets);
    HeldLater(lim, h, now, t);
    LaterIsMonotone(h, now, t);
    ExpiredAreStale(order, IsStale(lim, t, buckets), FreshKey(lim, h, t), expired);
    var after := Filter(order, NotIn(expired));
    TrimmedKeys(lim, t, buckets, order, after);
    ShowsBy(lim, h, t, after, Only(Trimmed(lim, t, buckets, order), after));
  }

  lemma TrimmedKeys(lim: Limits, t: real, buckets: Buckets, order: seq<Key>, after: seq<Key>)
    requires forall k :: k in buckets <==> k in order
    requires forall k | k in after :: k in order && FreshPart(lim, t, buckets, k) != []
    ensures var b := Only(Trimmed(lim, t, buckets, order), after);
            && (forall k :: k in b <==> k in after)
            && (forall k | k in after :: b[k] == FreshPart(lim, t, buckets, k))
  {
    hide FreshPart;
  }

  lemma LaterIsMonotone(h: History, now: real, t: real)
    requires NotAfter(h, now) && now <= t
    ensures NotAfter(h, t)
  {
  }

  lemma ExpiredAreStale(order: seq<Key>, stale: Key -> bool, live: Key -> bool, expired: seq<Key>)
    requires expired == Filter(order, stale) && forall k | k in order :: stale(k) <==> !live(k)
    ensures Filter(order, NotIn(expired)) == Filter(order, live)
    ensures forall k :: k in Filter(order, live) <==> k in order && !stale(k)
  {
    FilterMembers(order, stale);
    FilterMembers(order, live);
    FilterSame(order, live, NotIn(expired));
  }

  function WithItem(lim: Limits, buckets: Buckets, o: Observation): Buckets {
    buckets[o.key := Last((if o.key in buckets then buckets[o.key] else []) + [o.evidence], lim.perContext)]
  }

  lemma WindowsAfter(lim: Limits, h: History, o: Observation, order: seq<Key>, buckets: Buckets)
    requires Shows(lim, h, o.evidence.at, order, buckets) && lim.ttl >= 0.0
    ensures forall k | k == o.key || k in order ::
              WithItem(lim, buckets, o)[k] == Window(lim, h + [o], k, o.evidence.at)
  {
    hide Window, Monotone, Held, Last, NotAfter;
    forall k | k == o.key || k in order
      ensures WithItem(lim, buckets, o)[k] == Window(lim, h + [o], k, o.evidence.at)
    {
      WindowObserves(lim, h, o, k);
    }
  }

  /** Appending, touching and dropping shows the history with one more observation. */
  lemma InsertShows(lim: Limits, h: History, o: Observation, order: seq<Key>, buckets: Buckets)
    requires Shows(lim, h, o.evidence.at, order, buckets) && lim.ttl >= 0.0
    ensures var after := Last(Without(order, o.key) + [o.key], lim.contexts);
            Shows(lim, h + [o], o.evidence.at, after, Only(WithItem(lim, buckets, o), after))
  {
    hide Shows, Window, Monotone, Held, Last, Without, NotAfter, WithItem, Only;
    ShowsMeans(lim, h, o.evidence.at, order, buckets);
    HeldObserves(lim, h, o);
    MonotoneGrows(h, o);
    WindowsAfter(lim, h, o, order, buckets);
    TouchedMembers(order, o.key, lim.contexts);
    var after := Last(Without(order, o.key) + [o.key], lim.contexts);
    OnlyKeys(lim, buckets, o, order, after);
    ShowsBy(lim, h + [o], o.evidence.at, after, Only(WithItem(lim, buckets, o), after));
  }

  lemma OnlyKeys(lim: Limits, buckets: Buckets, o: Observation, order: seq<Key>, after: seq<Key>)
    requires forall k :: k in buckets <==> k in order
    requires forall k | k in after :: k == o.key || k in order
    ensures var b := WithItem(lim, buckets, o);
            && (forall k :: k in Only(b, after) <==> k in after)
            && (forall k | k in after :: k in b && Only(b, after)[k] == b[k])
  {
    hide Last;
  }

  lemma TouchedMembers(s: seq<Key>, k: Key, n: nat)
    ensures forall x | x in Last(Without(s, k) + [k], n) :: x == k || x in s
  {
    WithoutMembers(s, k);
    LastMembers(Without(s, k) + [k], n);
    hide Without, Last;
    forall x | x in Last(Without(s, k) + [k], n) ensures x == k || x in s {
      assert x in Without(s, k) + [k];
    }
  }

  class Registry {
    const lim: Limits
    var order: seq<Key>
    var buckets: Buckets
    /** Everything observed, and the last reading of the clock. */
    ghost var history: History
    ghost var clock: real

    ghost predicate Valid()
      reads this
    {
      lim.perContext >= 1 && lim.ttl >= 0.0 && Shows(lim, history, clock, order, buckets)
    }

    constructor (lim: Limits)
      requires lim.perContext >= 1 && lim.ttl >= 0.0
      ensures Valid() && history == [] && this.lim == lim
    {
      hide Shows;
      this.lim := lim;
      order, buckets, history, clock := [], map[], [], 0.0;
      ShowsNothing(lim, 0.0);
    }

    /** _prune */
    method Prune(now: real)
      requires Valid() && clock <= now
      modifies this`order, this`buckets, this`clock
      ensures Valid() && clock == now
      ensures IsSuffix(order, old(order))
    {
      hide Shows, IsSuffix, FreshPart, Trimmed;
      ghost var was := buckets;
      ShowsMeans(lim, history, clock, order, buckets);
      var expired := TrimAll(now);
      PruneShows(lim, history, clock, now, order, was, expired);
      order := Filter(order, NotIn(expired));
      buckets := Only(buckets, order);
      clock := now;
    }

    /** The loop over the contexts: each keeps its fresh part, or has expired. */
    method TrimAll(now: real) returns (expired: seq<Key>)
      requires forall k | k in order :: k in buckets
      requires Distinct(order)
      modifies this`buckets
      ensures buckets == Trimmed(lim, now, old(buckets), order)
      ensures expired == Filter(order, IsStale(lim, now, old(buckets)))
    {
      hide FreshPart, Trimmed;
      ghost var was := buckets;
      expired := [];
      TrimsNone(lim, now, buckets, order);
      for i := 0 to |order|
        invariant buckets == Trimmed(lim, now, was, order[..i])
        invariant expired == Filter(order[..i], IsStale(lim, now, was))
      {
        assert order[i] in order;
        TrimsOneMore(lim, now, was, order, i);
        ExpiresOneMore(lim, now, was, order, i);
        SamePart(lim, now, was, buckets, order[i]);
        var kept := FreshPart(lim, now, buckets, order[i]);
        if kept != [] {
          buckets := buckets[order[i] := kept];
        } else {
          expired := expired + [order[i]];
        }
      }
      assert order[..|order|] == order;
    }

    /** observe; `now` is the reading of the clock it takes. */
    method Observe(ref: string, tool: string, status: string, session: string, turn: string, call: string, now: real)
      returns (r: Option<Evidence>)
      requires Valid() && clock <= now
      modifies this
      ensures Valid()
      ensures r == if tool == REPORT_TOOL_NAME || session == "" || turn == "" || call == "" then None
                   else Some(Evidence(ref, tool, status, now))
      ensures history == match r
                         case None => old(history)
                         case Some(e) => old(history) + [Observation(Key(session, turn), e)]
      ensures clock == if r.Some? then now else old(clock)
    {
      if tool == REPORT_TOOL_NAME {
        return None;
      }
      if session == "" || turn == "" || call == "" {
        return None;
      }
      var evidence := Evidence(ref, tool, status, now);
      var key := Key(session, turn);
      Prune(now);
      Insert(Observation(key, evidence));
      return Some(evidence);
    }

    /** setdefault, append, move_to_end, and popitem while there are too many. */
    method Insert(o: Observation)
      requires Valid() && clock == o.evidence.at
      modifies this
      ensures Valid() && history == old(history) + [o] && clock == old(clock)
    {
      hide Shows, Without, Only, WithItem, Last, Distinct;
      ShowsMeans(lim, history, clock, order, buckets);
      InsertShows(lim, history, o, order, buckets);
      TouchedDistinct(order, o.key);
      TouchedHolds(lim, order, buckets, o);
      buckets := WithItem(lim, buckets, o);
      order := Without(order, o.key) + [o.key];
      DropOldest();
      history := history + [o];
    }

    method DropOldest()
      requires Distinct(order) && buckets == Only(buckets, order)
      modifies this`order, this`buckets
      ensures order == Last(old(order), lim.contexts) && buckets == Only(old(buckets), order)
    {
      hide Only, Distinct, Last, IsSuffix;
      ghost var touched, filled := order, buckets;
      WholeSuffix(order);
      while |order| > lim.contexts
        invariant Distinct(order) && IsSuffix(order, touched) && (lim.contexts <= |order| || order == touched)
        invariant buckets == Only(filled, order)
      {
        PopsFirst(filled, order);
        PopsSuffix(order, touched);
        buckets := buckets - {order[0]};
        order := order[1..];
      }
      PoppedIsLast(order, touched, lim.contexts);
    }

    /** select */
    method Select(session: string, turn: string, kind: EventType, count: nat, now: real) returns (r: Selection)
      requires Valid() && clock <= now
      modifies this`order, this`buckets, this`clock
      ensures Valid()
      ensures session == "" || turn == "" ==> r == MissingIdentity && clock == old(clock) && order == old(order)
      ensures session != "" && turn != "" ==>
                var k := Key(session, turn);
                && clock == now && IsSuffix(order, old(order))
                && RightSelection(if k in Held(lim, history, now) then Window(lim, history, k, now) else [], kind, count, r)
    {
      if session == "" || turn == "" {
        return MissingIdentity;
      }
      var key := Key(session, turn);
      Prune(now);
      var candidates := if key in buckets then buckets[key] else [];
      SelectIsRight(candidates, kind, count);
      hide RightSelection;
      if kind == OtherType {
        return TypeNotAllowed;
      }
      candidates := Filter(candidates, (e: Evidence) => Matches(kind, e));
      if |candidates| < count {
        return Insufficient;
      }
      return Selected(Newests(candidates, count));
    }
  }

  lemma WholeSuffix(order: seq<Key>)
    ensures IsSuffix(order, order)
  {
  }

  lemma PopsSuffix(order: seq<Key>, touched: seq<Key>)
    requires IsSuffix(order, touched) && order != []
    ensures IsSuffix(order[1..], touched)
  {
  }

  lemma PoppedIsLast(order: seq<Key>, touched: seq<Key>, n: nat)
    requires IsSuffix(order, touched) && |order| <= n && (n <= |order| || order == touched)
    ensures order == Last(touched, n)
  {
  }

  lemma SamePart(lim: Limits, now: real, a: Buckets, b: Buckets, k: Key)
    requires k in a && k in b && a[k] == b[k]
    ensures FreshPart(lim, now, a, k) == FreshPart(lim, now, b, k)
  {
  }

  lemma PopsFirst(buckets: Buckets, order: seq<Key>)
    requires Distinct(order) && order != []
    ensures Only(buckets, order) - {order[0]} == Only(buckets, order[1..]) && Distinct(order[1..])
  {
    assert order == [order[0]] + order[1..];
    assert order[0] !in order[1..];
  }

  lemma TouchedHolds(lim: Limits, order: seq<Key>, buckets: Buckets, o: Observation)
    requires forall k :: k in buckets <==> k in order
    ensures Only(WithItem(lim, buckets, o), Without(order, o.key) + [o.key]) == WithItem(lim, buckets, o)
  {
    WithoutMembers(order, o.key);
    hide Without, Last;
  }

  lemma TouchedDistinct(s: seq<Key>, k: Key)
    requires Distinct(s)
    ensures Distinct(Without(s, k) + [k])
  {
    WithoutSorted(s, k, (x: Key) => 0.0);
    WithoutMembers(s, k);
    var rest := Without(s, k);
    assert forall i | 0 <= i < |rest| :: rest[i] in rest;
  }
}
