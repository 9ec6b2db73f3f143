/**
 * Name-to-balance maps and their sum.
 *
 * A Go map reads a missing key as its zero value, so `Get` gives 0.0 for a
 * name that has no entry yet. `Total` is the sum of all values of a map; it
 * is defined by removing an arbitrary key, and `TotalRemove` shows that the
 * choice does not matter.
 */
module Balances {

  /** The value of `k` in `m`, the zero value when `k` has no entry. */
  function Get(m: map<string, real>, k: string): real {
    if k in m then m[k] else 0.0
  }

  /** Some key of a non-empty map. */
  ghost function Pick(m: map<string, real>): (k: string)
    requires m != map[]
    ensures k in m
  {
    var k :| k in m; k
  }

  /** The sum of all values of `m`. */
  ghost function Total(m: map<string, real>): real
    decreases |m|
  {
    if m == map[] then 0.0
    else
      var k := Pick(m);
      assert (m - {k}).Keys == m.Keys - {k};
      m[k] + Total(m - {k})
  }

  /** Any key may be taken out first. */
  lemma {:induction false} TotalRemove(m: map<string, real>, k: string)
    requires k in m
    ensures Total(m) == m[k] + Total(m - {k})
    decreases |m|
  {
    var p := Pick(m);
    assert (m - {p}).Keys == m.Keys - {p};
    assert (m - {k}).Keys == m.Keys - {k};
    if p != k {
      var rest := m - {p} - {k};
      assert m - {k} - {p} == rest;
      assert (m - {p})[k] == m[k];
      assert (m - {k})[p] == m[p];
      TotalRemove(m - {p}, k);
      TotalRemove(m - {k}, p);
    }
  }

  /** Setting one entry changes the sum by the difference of its values. */
  lemma TotalUpdate(m: map<string, real>, k: string, v: real)
    ensures Total(m[k := v]) == Total(m) - Get(m, k) + v
  {
    TotalRemove(m[k := v], k);
    if k in m {
      assert m[k := v] - {k} == m - {k};
      TotalRemove(m, k);
    } else {
      assert m[k := v] - {k} == m;
    }
  }

  /** A map with one entry sums to that entry. */
  lemma TotalSingleton(k: string, v: real)
    ensures Total(map[k := v]) == v
  {
    TotalUpdate(map[], k, v);
  }
}
