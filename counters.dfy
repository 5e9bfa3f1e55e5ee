/**
 * Monotonic counters keyed by label values, as a Prometheus counter vector
 * holds them: a label combination that was never incremented reads as zero.
 * Counter values are unbounded naturals (a float64 counter in the program).
 */
module Counters {

  /** The value of the counter with labels k. */
  function Count<K>(m: map<K, nat>, k: K): nat {
    if k in m then m[k] else 0
  }

  /** Increment the counter with labels k by one; every other counter is untouched. */
  function Inc<K(!new)>(m: map<K, nat>, k: K): (m': map<K, nat>)
    ensures Count(m', k) == Count(m, k) + 1
    ensures forall j :: j != k ==> Count(m', j) == Count(m, j)
    ensures m'.Keys == m.Keys + {k}
  {
    m[k := Count(m, k) + 1]
  }

  /** The sum of all counters of a vector. */
  ghost function Sum<K>(m: map<K, nat>): nat
    decreases |m|
  {
    if m == map[] then 0
    else
      var k :| k in m;
      m[k] + Sum(m - {k})
  }

  /** Any counter can be split off the sum, whichever key the sum picks first. */
  lemma {:induction false} SumRemove<K>(m: map<K, nat>, k: K)
    requires k in m
    ensures Sum(m) == m[k] + Sum(m - {k})
    decreases |m|
  {
    var j :| j in m && Sum(m) == m[j] + Sum(m - {j});
    if j != k {
      SumRemove(m - {j}, k);
      SumRemove(m - {k}, j);
      assert m - {j} - {k} == m - {k} - {j};
    }
  }

  /** One increment of any counter raises the sum of the vector by exactly one. */
  lemma {:induction false} SumInc<K(!new)>(m: map<K, nat>, k: K)
    ensures Sum(Inc(m, k)) == Sum(m) + 1
  {
    var m' := Inc(m, k);
    SumRemove(m', k);
    if k in m {
      SumRemove(m, k);
      assert m' - {k} == m - {k};
    } else {
      assert m' - {k} == m;
    }
  }
}
