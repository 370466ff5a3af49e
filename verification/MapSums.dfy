/** Sums over the values of a finite map, in no particular order. */
module MapSums {

  ghost function Sum<K>(m: map<K, int>): int
    decreases |m.Keys|
  {
    if m.Keys == {} then 0
    else
      var k :| k in m.Keys;
      assert (m - {k}).Keys == m.Keys - {k};
      m[k] + Sum(m - {k})
  }

  /** Any key may be taken first. */
  lemma {:induction false} SumWithout<K>(m: map<K, int>, k: K)
    requires k in m
    ensures Sum(m) == m[k] + Sum(m - {k})
    decreases |m.Keys|
  {
    var first :| first in m.Keys && Sum(m) == m[first] + Sum(m - {first});
    if first != k {
      assert (m - {first}).Keys == m.Keys - {first};
      assert (m - {k}).Keys == m.Keys - {k};
      SumWithout(m - {first}, k);
      SumWithout(m - {k}, first);
      assert m - {first} - {k} == m - {k} - {first};
    }
  }

  lemma SumWith<K>(m: map<K, int>, k: K, v: int)
    requires k !in m
    ensures Sum(m[k := v]) == Sum(m) + v
  {
    SumWithout(m[k := v], k);
    assert m[k := v] - {k} == m;
  }

  lemma SumChange<K>(m: map<K, int>, k: K, v: int)
    requires k in m
    ensures Sum(m[k := v]) == Sum(m) - m[k] + v
  {
    SumWithout(m, k);
    SumWithout(m[k := v], k);
    assert m[k := v] - {k} == m - {k};
  }

  lemma {:induction false} SumOfNonNegatives<K>(m: map<K, int>)
    requires forall k | k in m :: 0 <= m[k]
    ensures 0 <= Sum(m)
    decreases |m.Keys|
  {
    if k :| k in m {
      SumWithout(m, k);
      assert (m - {k}).Keys == m.Keys - {k};
      SumOfNonNegatives(m - {k});
    }
  }

  lemma {:induction false} SumOfPositives<K>(m: map<K, int>)
    requires forall k | k in m :: 0 < m[k]
    ensures 0 <= Sum(m) && (m.Keys != {} ==> 0 < Sum(m))
    ensures forall k | k in m :: m[k] <= Sum(m)
    decreases |m.Keys|
  {
    forall k | k in m
      ensures 0 < m[k] <= Sum(m)
    {
      SumWithout(m, k);
      assert (m - {k}).Keys == m.Keys - {k};
      SumOfPositives(m - {k});
    }
  }

  lemma UnionExtends<K>(a: map<K, int>, b: map<K, int>, k: K, v: int)
    ensures a + b[k := v] == (a + b)[k := v]
  {
  }

  lemma UnionWithEmpty<K>(a: map<K, int>, b: map<K, int>)
    requires b.Keys == {}
    ensures Sum(a + b) == Sum(a) + Sum(b)
  {
    assert Sum(b) == 0;
    assert a + b == a;
  }

  lemma UnionGrows<K>(a: map<K, int>, b: map<K, int>, k: K, v: int)
    requires k !in a && k !in b && Sum(a + b) == Sum(a) + Sum(b)
    ensures Sum(a + b[k := v]) == Sum(a) + Sum(b[k := v])
  {
    UnionExtends(a, b, k, v);
    SumWith(b, k, v);
    SumWith(a + b, k, v);
  }

  lemma {:induction false} SumOfUnion<K>(a: map<K, int>, b: map<K, int>)
    requires a.Keys !! b.Keys
    ensures Sum(a + b) == Sum(a) + Sum(b)
    decreases |b.Keys|
  {
    hide Sum;
    if b.Keys == {} {
      UnionWithEmpty(a, b);
    } else {
      var k :| k in b.Keys;
      var c := b - {k};
      assert c.Keys == b.Keys - {k};
      SumOfUnion(a, c);
      UnionGrows(a, c, k, b[k]);
      assert c[k := b[k]] == b;
    }
  }

  /** A part of non-negative values adds up to no more. */
  lemma SumOfPart<K>(part: map<K, int>, all: map<K, int>)
    requires forall k | k in part :: k in all && all[k] == part[k]
    requires forall k | k in all :: 0 <= all[k]
    ensures Sum(part) <= Sum(all)
  {
    var rest := all - part.Keys;
    SumOfUnion(part, rest);
    SumOfNonNegatives(rest);
    hide Sum;
    assert part + rest == all;
  }

  /** Renaming the keys one to one leaves the sum. */
  lemma {:induction false} SumOfRenamed<K(!new), L>(a: map<K, int>, b: map<L, int>, rename: K -> L)
    requires forall k, q | k in a && q in a && rename(k) == rename(q) :: k == q
    requires forall k | k in a :: rename(k) in b && b[rename(k)] == a[k]
    requires forall l | l in b :: exists k :: k in a && rename(k) == l
    ensures Sum(a) == Sum(b)
    decreases |a.Keys|
  {
    if a.Keys == {} {
      assert b.Keys == {};
    } else {
      var k :| k in a.Keys;
      SumWithout(a, k);
      SumWithout(b, rename(k));
      var rest := a - {k};
      assert rest.Keys == a.Keys - {k};
      forall l | l in b - {rename(k)}
        ensures exists q :: q in rest && rename(q) == l
      {
        var q :| q in a && rename(q) == l;
        assert q in rest;
      }
      SumOfRenamed(rest, b - {rename(k)}, rename);
    }
  }
}
