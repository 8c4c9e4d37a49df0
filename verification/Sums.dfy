/** Totals over finite tables: what a SQL `SUM` over a table of non-negative columns computes. */
module Sums {

  /** The sum of all values of a finite map. */
  ghost function Total<K(!new)>(m: map<K, nat>): nat
    decreases |m|
  {
    if m == map[] then 0
    else
      var k :| k in m;
      Shrinks(m, k);
      m[k] + Total(m - {k})
  }

  lemma Shrinks<K, V>(m: map<K, V>, k: K)
    requires k in m
    ensures |m - {k}| == |m| - 1
  {
    assert (m - {k}).Keys == m.Keys - {k};
  }

  /** Any key can be taken out first. */
  lemma {:induction false} TotalSplit<K(!new)>(m: map<K, nat>, k: K)
    requires k in m
    ensures Total(m) == m[k] + Total(m - {k})
    decreases |m|
  {
    var j :| j in m && Total(m) == m[j] + Total(m - {j});
    if j != k {
      Shrinks(m, j);
      Shrinks(m, k);
      TotalSplit(m - {j}, k);
      TotalSplit(m - {k}, j);
      assert m - {j} - {k} == m - {k} - {j};
    }
  }

  /** Writing one cell changes the total by the difference it makes. */
  lemma TotalUpdate<K(!new)>(m: map<K, nat>, k: K, v: nat)
    ensures Total(m[k := v]) == Total(m) - (if k in m then m[k] else 0) + v
  {
    var m' := m[k := v];
    TotalSplit(m', k);
    if k in m {
      TotalSplit(m, k);
      assert m' - {k} == m - {k};
    } else {
      assert m' - {k} == m;
    }
  }

  /** Dropping one cell takes exactly its value away. */
  lemma TotalRemove<K(!new)>(m: map<K, nat>, k: K)
    ensures Total(m - {k}) == Total(m) - (if k in m then m[k] else 0)
  {
    if k in m {
      TotalSplit(m, k);
    } else {
      assert m - {k} == m;
    }
  }

  /** A table that is a part of another has no greater total. */
  lemma {:induction false} TotalMonotone<K(!new)>(m: map<K, nat>, n: map<K, nat>)
    requires m.Keys <= n.Keys && forall k :: k in m ==> m[k] <= n[k]
    ensures Total(m) <= Total(n)
    decreases |m|
  {
    if m != map[] {
      var k :| k in m;
      TotalSplit(m, k);
      TotalSplit(n, k);
      Shrinks(m, k);
      TotalMonotone(m - {k}, n - {k});
    }
  }

  ghost function Weights<K(!new), V>(m: map<K, V>, f: V -> nat): (r: map<K, nat>)
    ensures r.Keys == m.Keys && forall k :: k in m ==> r[k] == f(m[k])
    decreases |m|
  {
    if m == map[] then map[]
    else
      var k :| k in m;
      Shrinks(m, k);
      Weights(m - {k}, f)[k := f(m[k])]
  }

  /** The total weight of a table's rows. */
  ghost function Weigh<K(!new), V>(m: map<K, V>, f: V -> nat): nat {
    Total(Weights(m, f))
  }

  lemma WeighPut<K(!new), V>(m: map<K, V>, k: K, v: V, f: V -> nat)
    ensures Weigh(m[k := v], f) == Weigh(m, f) - (if k in m then f(m[k]) else 0) + f(v)
  {
    assert Weights(m[k := v], f) == Weights(m, f)[k := f(v)];
    TotalUpdate(Weights(m, f), k, f(v));
  }

  lemma WeighDrop<K(!new), V>(m: map<K, V>, k: K, f: V -> nat)
    ensures Weigh(m - {k}, f) == Weigh(m, f) - (if k in m then f(m[k]) else 0)
  {
    assert Weights(m - {k}, f) == Weights(m, f) - {k};
    TotalRemove(Weights(m, f), k);
  }

  lemma SubsetSize<T>(x: set<T>, y: set<T>)
    requires x <= y
    ensures |x| <= |y|
  {
    assert y == x + (y - x);
  }

  /** Among rows ordered by a time and then by their key some row comes first. */
  lemma {:induction false} Earliest(when: nat -> int, ds: set<nat>) returns (first: nat)
    requires ds != {}
    ensures first in ds
    ensures forall e :: e in ds ==> when(first) < when(e) || (when(first) == when(e) && first <= e)
    decreases |ds|
  {
    first :| first in ds;
    var rest := ds - {first};
    if rest != {} {
      var picked := first;
      var other := Earliest(when, rest);
      var sooner := when(other) < when(picked);
      if sooner || (when(other) == when(picked) && other <= picked) { first := other; }
      assert forall e :: e in ds ==> e == picked || e in rest;
    }
  }
}
