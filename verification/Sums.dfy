/** Sums over sequences and over the values of finite maps. */
module Sums {

  function SeqTotal(xs: seq<real>): real {
    if |xs| == 0 then 0.0 else SeqTotal(xs[..|xs| - 1]) + xs[|xs| - 1]
  }

  lemma SeqTotalAppend(xs: seq<real>, x: real)
    ensures SeqTotal(xs + [x]) == SeqTotal(xs) + x
  {
    assert (xs + [x])[..|xs|] == xs;
  }

  ghost function Total<K>(m: map<K, real>): real
    decreases |m|
  {
    if m == map[] then 0.0
    else
      var k :| k in m;
      m[k] + Total(m - {k})
  }

  function Get<K>(m: map<K, real>, k: K): real {
    if k in m then m[k] else 0.0
  }

  /** The sum does not depend on which key is taken first. */
  lemma {:induction false} TotalRemove<K>(m: map<K, real>, k: K)
    requires k in m
    ensures Total(m) == m[k] + Total(m - {k})
    decreases |m|
  {
    var j :| j in m && Total(m) == m[j] + Total(m - {j});
    if j != k {
      TotalRemove(m - {j}, k);
      TotalRemove(m - {k}, j);
      assert m - {j} - {k} == m - {k} - {j};
    }
  }

  lemma TotalUpdate<K>(m: map<K, real>, k: K, v: real)
    ensures Total(m[k := v]) == Total(m) - Get(m, k) + v
  {
    var n := m[k := v];
    TotalRemove(n, k);
    if k in m {
      TotalRemove(m, k);
      assert n - {k} == m - {k};
    } else {
      assert n - {k} == m;
    }
  }

  lemma TotalDrop<K>(m: map<K, real>, k: K)
    ensures Total(m - {k}) == Total(m) - Get(m, k)
  {
    if k in m {
      TotalRemove(m, k);
    } else {
      assert m - {k} == m;
    }
  }

  lemma {:induction false} TotalOnly<K>(m: map<K, real>, k: K)
    requires forall j | j in m && j != k :: m[j] == 0.0
    ensures Total(m) == Get(m, k)
    decreases |m|
  {
    if j :| j in m && j != k {
      TotalRemove(m, j);
      TotalOnly(m - {j}, k);
    } else if k in m {
      assert m - {k} == map[];
      TotalRemove(m, k);
    } else {
      assert m == map[];
    }
  }
}
