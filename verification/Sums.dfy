/** Sums over the values of a finite map. */
module Sums {

  ghost function Sum<K(!new)>(m: map<K, int>): int {
    if m == map[] then 0
    else
      var k :| k in m;
      m[k] + Sum(m - {k})
  }

  /** Any key can be taken out first. */
  lemma {:induction false} SumTake<K(!new)>(m: map<K, int>, k: K)
    requires k in m
    ensures Sum(m) == m[k] + Sum(m - {k})
    decreases |m|
  {
    var j :| j in m && Sum(m) == m[j] + Sum(m - {j});
    if j != k {
      SumTake(m - {j}, k);
      SumTake(m - {k}, j);
      assert m - {j} - {k} == m - {k} - {j};
    }
  }

  lemma SumPut<K(!new)>(m: map<K, int>, k: K, v: int)
    ensures Sum(m[k := v]) == Sum(m) - (if k in m then m[k] else 0) + v
  {
    SumTake(m[k := v], k);
    assert m[k := v] - {k} == m - {k};
    if k in m { SumTake(m, k); } else { assert m - {k} == m; }
  }

  lemma SumDrop<K(!new)>(m: map<K, int>, k: K)
    ensures Sum(m - {k}) == Sum(m) - (if k in m then m[k] else 0)
  {
    if k in m { SumTake(m, k); } else { assert m - {k} == m; }
  }

  lemma {:induction false} SumNonNegative<K(!new)>(m: map<K, int>)
    requires forall k :: k in m ==> m[k] >= 0
    ensures Sum(m) >= 0
    ensures forall k :: k in m ==> m[k] <= Sum(m)
    decreases |m|
  {
    if m != map[] {
      forall k | k in m ensures 0 <= m[k] <= Sum(m) {
        SumTake(m, k);
        SumNonNegative(m - {k});
      }
      var k :| k in m;
      assert m[k] <= Sum(m);
    }
  }

  /** Adding two maps key by key adds their sums. */
  lemma {:induction false} SumPointwise<K(!new)>(m: map<K, int>, d: map<K, int>, r: map<K, int>)
    requires m.Keys == d.Keys == r.Keys
    requires forall k :: k in m ==> r[k] == m[k] + d[k]
    ensures Sum(r) == Sum(m) + Sum(d)
    decreases |m|
  {
    if m == map[] {
      assert d == map[] && r == map[];
    } else {
      var k :| k in m;
      SumTake(m, k); SumTake(d, k); SumTake(r, k);
      SumPointwise(m - {k}, d - {k}, r - {k});
    }
  }

  /** `q` is `n * x / d` with at most `c` roundings down. */
  ghost predicate Floored(x: int, q: int, n: int, d: int, c: int) {
    d * q <= n * x <= d * q + c * (d - 1)
  }

  /** Rounding each `n * m[k] / d` down loses less than one unit per key. */
  lemma {:induction false} SumOfFloors<K(!new)>(m: map<K, int>, q: map<K, int>, n: int, d: int)
    requires d > 0 && m.Keys == q.Keys
    requires forall k :: k in m ==> Floored(m[k], q[k], n, d, 1)
    ensures Floored(Sum(m), Sum(q), n, d, |m|)
    decreases |m|
  {
    if m == map[] {
      assert q == map[];
    } else {
      var k :| k in m;
      var m', q' := m - {k}, q - {k};
      SumOfFloors(m', q', n, d);
      FloorStep(m[k], q[k], Sum(m'), Sum(q'), n, d, |m'|);
      SumTake(m, k); SumTake(q, k);
    }
  }

  lemma FloorStep(mk: int, qk: int, ms: int, qs: int, n: int, d: int, c: int)
    requires Floored(mk, qk, n, d, 1) && Floored(ms, qs, n, d, c)
    ensures Floored(mk + ms, qk + qs, n, d, c + 1)
  {
    assert d * (qk + qs) == d * qk + d * qs;
    assert n * (mk + ms) == n * mk + n * ms;
    assert (c + 1) * (d - 1) == c * (d - 1) + (d - 1);
  }
}
