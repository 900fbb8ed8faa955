/** Small shared vocabulary: optional values and sums over the rows of a table. */
module Prelude {

  datatype Option<+T> = None | Some(value: T)

  /** A key of a row: an identifier, a hash, a symbol. Only equality of keys means anything. */
  type Id = int

  function PowerOfTwo(n: nat): nat {
    if n == 0 then 1 else 2 * PowerOfTwo(n - 1)
  }

  /** `x` added `n` times. */
  ghost function Times(x: int, n: nat): int {
    if n == 0 then 0 else Times(x, n - 1) + x
  }

  lemma {:induction false} TimesIsProduct(x: int, n: nat)
    ensures Times(x, n) == x * n
  {
    if n > 0 {
      TimesIsProduct(x, n - 1);
    }
  }

  /** The sum of all values of a finite table. */
  ghost function Total<K>(m: map<K, int>): int
    decreases |m|
  {
    if m == map[] then 0 else
      var k :| k in m;
      m[k] + Total(m - {k})
  }

  /** Any row may be taken out first: the sum does not depend on the order. */
  lemma {:induction false} TotalRemove<K>(m: map<K, int>, k: K)
    requires k in m
    ensures Total(m) == m[k] + Total(m - {k})
    decreases |m|
  {
    var j :| j in m && Total(m) == m[j] + Total(m - {j});
    if j != k {
      TotalRemove(m - {j}, k);
      TotalRemove(m - {k}, j);
      assert m - {j} - {k} == m - {k} - {j};
    }
  }

  /** Writing one row moves the sum by exactly the change of that row. */
  lemma TotalUpdate<K>(m: map<K, int>, k: K, v: int)
    ensures Total(m[k := v]) == Total(m) + v - (if k in m then m[k] else 0)
  {
    TotalRemove(m[k := v], k);
    assert m[k := v] - {k} == m - {k};
    if k in m {
      TotalRemove(m, k);
    } else {
      assert m - {k} == m;
    }
  }

  /** A table with no negative row has no negative sum. */
  lemma {:induction false} TotalNonNegative<K>(m: map<K, int>)
    requires forall k :: k in m ==> m[k] >= 0
    ensures Total(m) >= 0
    decreases |m|
  {
    if m != map[] {
      var j :| j in m && Total(m) == m[j] + Total(m - {j});
      TotalNonNegative(m - {j});
    }
  }
}
