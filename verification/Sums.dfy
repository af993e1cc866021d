/** Sums of the values of a finite map, taken in any order. */
module Sums {
  import opened Core

  ghost function Pick<K>(keys: set<K>): (k: K)
    requires keys != {}
    ensures k in keys
  {
    var k :| k in keys; k
  }

  ghost function Sum<K>(m: map<K, nat>): nat
    decreases |m|
  {
    if m.Keys == {} then 0 else
      var k := Pick(m.Keys);
      m[k] + Sum(m - {k})
  }

  lemma {:induction false} SumRemove<K>(m: map<K, nat>, k: K)
    requires k in m
    ensures Sum(m) == m[k] + Sum(m - {k})
    decreases |m|
  {
    var j := Pick(m.Keys);
    if j != k {
      SumRemove(m - {j}, k);
      assert m - {j} - {k} == m - {k} - {j};
      SumRemove(m - {k}, j);
    }
  }

  /** Storing one value changes the sum by the difference at that key. */
  lemma SumUpdate<K>(m: map<K, nat>, k: K, v: nat)
    ensures Sum(m[k := v]) == Sum(m) - (if k in m then m[k] else 0) + v
  {
    SumRemove(m[k := v], k);
    assert m[k := v] - {k} == m - {k};
    if k in m {
      SumRemove(m, k);
    } else {
      assert m - {k} == m;
    }
  }

  lemma SumBounds<K>(m: map<K, nat>, k: K)
    requires k in m
    ensures m[k] <= Sum(m)
  {
    SumRemove(m, k);
  }

  lemma RemainderIs(a: nat, wraps: nat, remainder: u64)
    requires a == Dropped(wraps) + remainder
    ensures a % TWO64 == remainder
  {}

  /** The `.iter().sum::<u64>()` of a concurrent map: entries in some order, wrapping on overflow. */
  method WrappingSum<K(==)>(m: map<K, u64>) returns (total: u64, ghost wraps: nat)
    ensures total + Dropped(wraps) == Sum(m)
  {
    total, wraps := 0, 0;
    var rest := m;
    while rest != map[]
      invariant total + Sum(rest) + Dropped(wraps) == Sum(m)
      decreases |rest|
    {
      var k :| k in rest;
      SumRemove(rest, k);
      if total + rest[k] >= TWO64 {
        wraps := wraps + 1;
      }
      total, rest := WrappingAdd(total, rest[k]), rest - {k};
    }
  }
}
