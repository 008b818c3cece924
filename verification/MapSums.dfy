/** Sums over the values of a map, and sizes of images. */
module MapSums {
  ghost function MapSum<K>(m: map<K, nat>): nat
    decreases |m.Keys|
  {
    if m == map[] then 0
    else
      var k :| k in m;
      m[k] + MapSum(m - {k})
  }

  lemma {:induction false} SumPicks<K>(m: map<K, nat>, k: K)
    requires k in m
    ensures MapSum(m) == m[k] + MapSum(m - {k})
    decreases |m.Keys|
  {
    var c :| c in m && MapSum(m) == m[c] + MapSum(m - {c});
    if c != k {
      SumPicks(m - {c}, k);
      SumPicks(m - {k}, c);
      assert m - {c} - {k} == m - {k} - {c};
    }
  }

  lemma SumUpdates<K>(m: map<K, nat>, k: K, v: nat)
    ensures MapSum(m[k := v]) == MapSum(m) - (if k in m then m[k] else 0) + v
  {
    SumPicks(m[k := v], k);
    assert m[k := v] - {k} == m - {k};
    if k in m {
      SumPicks(m, k);
    } else {
      assert m - {k} == m;
    }
  }

  ghost function Image<A, B>(s: set<A>, f: A -> B): set<B> {
    set a | a in s :: f(a)
  }

  lemma {:induction false} ImageSize<A, B>(s: set<A>, f: A -> B)
    requires forall a, b | a in s && b in s && f(a) == f(b) :: a == b
    ensures |Image(s, f)| == |s|
  {
    if s != {} {
      var a :| a in s;
      ImageSize(s - {a}, f);
      assert Image(s, f) == Image(s - {a}, f) + {f(a)};
    }
  }
}
