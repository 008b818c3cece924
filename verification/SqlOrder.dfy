/** ORDER BY (time, id): the one ordering every query of the stores uses. */
module SqlOrder {
  /**
    `rank` places an id in the text order of the database: texts are countably
    many, so their order embeds in the reals.
  */
  datatype SortKey = SortKey(at: real, rank: real)

  predicate Before(a: SortKey, b: SortKey) {
    a.at < b.at || (a.at == b.at && a.rank < b.rank)
  }

  predicate Distinct<T(==)>(s: set<T>, key: T -> SortKey) {
    forall x, y | x in s && y in s && x != y :: key(x) != key(y)
  }

  ghost predicate Sorted<T>(q: seq<T>, key: T -> SortKey) {
    forall i, j | 0 <= i < j < |q| :: Before(key(q[i]), key(q[j]))
  }

  ghost predicate Lists<T>(q: seq<T>, s: set<T>) {
    && |q| == |s|
    && (forall x | x in q :: x in s) && (forall x | x in s :: x in q)
    && (forall i, j | 0 <= i < j < |q| :: q[i] != q[j])
  }

  predicate IsFirst<T(==)>(m: T, s: set<T>, key: T -> SortKey) {
    m in s && forall x | x in s && x != m :: Before(key(m), key(x))
  }

  lemma {:induction false} FirstExists<T>(s: set<T>, key: T -> SortKey)
    requires s != {} && Distinct(s, key)
    ensures exists m :: IsFirst(m, s, key)
  {
    var m :| m in s;
    var rest := s - {m};
    assert forall x | x in s && x != m :: x in rest;
    if rest == {} {
      assert IsFirst(m, s, key);
    } else {
      FirstExists(rest, key);
      var n :| IsFirst(n, rest, key);
      assert IsFirst(if Before(key(n), key(m)) then n else m, s, key);
    }
  }

  /** The elements of `s` in key order. */
  function OrderBy<T(==)>(s: set<T>, key: T -> SortKey): seq<T>
    requires Distinct(s, key)
  {
    if s == {} then []
    else
      FirstExists(s, key);
      var m :| IsFirst(m, s, key);
      [m] + OrderBy(s - {m}, key)
  }

  lemma {:induction false} OrderByLists<T>(s: set<T>, key: T -> SortKey)
    requires Distinct(s, key)
    ensures Lists(OrderBy(s, key), s) && Sorted(OrderBy(s, key), key)
  {
    if s != {} {
      FirstExists(s, key);
      var m :| IsFirst(m, s, key) && OrderBy(s, key) == [m] + OrderBy(s - {m}, key);
      var rest := OrderBy(s - {m}, key);
      OrderByLists(s - {m}, key);
      forall i | 0 <= i < |rest| ensures rest[i] in s && rest[i] != m {
        assert rest[i] in rest;
      }
    }
  }

  ghost function Elements<T>(q: seq<T>): set<T> {
    set x | x in q
  }

  /** The elements of `s` that come before `m`. */
  ghost function AheadOf<T>(s: set<T>, key: T -> SortKey, m: T): set<T> {
    set x | x in s && Before(key(x), key(m))
  }

  /** The element at place `k` has exactly `k` elements before it. */
  lemma PlaceCountsAhead<T>(q: seq<T>, s: set<T>, key: T -> SortKey, k: nat)
    requires Lists(q, s) && Sorted(q, key) && k < |q|
    ensures |AheadOf(s, key, q[k])| == k
  {
    var ahead := AheadOf(s, key, q[k]);
    assert ahead == Elements(q[..k]) by {
      forall x | x in ahead ensures x in q[..k] {
        var i :| 0 <= i < |q| && q[i] == x;
        assert i < k;
      }
      forall x | x in q[..k] ensures x in ahead {
        var i :| 0 <= i < k && q[i] == x;
        assert x in q;
      }
    }
    DistinctCount(q[..k]);
  }

  lemma {:induction false} DistinctCount<T>(q: seq<T>)
    requires forall i, j | 0 <= i < j < |q| :: q[i] != q[j]
    ensures |Elements(q)| == |q|
  {
    if q != [] {
      var rest := q[..|q| - 1];
      DistinctCount(rest);
      assert Elements(q) == Elements(rest) + {q[|q| - 1]};
    }
  }
}
