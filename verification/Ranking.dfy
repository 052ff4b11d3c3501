/** Index orders: the library sort of range(n) by a real key, and counting. */
module Ranking {

  function InsertRank(key: seq<real>, s: seq<nat>, x: nat): (r: seq<nat>)
    requires x < |key| && forall i | 0 <= i < |s| :: s[i] < |key|
    ensures |r| == |s| + 1 && forall i | 0 <= i < |r| :: r[i] < |key|
  {
    if |s| == 0 || key[s[|s| - 1]] <= key[x] then s + [x]
    else InsertRank(key, s[..|s| - 1], x) + [s[|s| - 1]]
  }

  /** The first `n` indices in ascending order of key, earlier index first on ties. */
  function OrderOf(key: seq<real>, n: nat): (r: seq<nat>)
    requires n <= |key|
    ensures |r| == n && forall i | 0 <= i < n :: r[i] < |key|
  {
    if n == 0 then [] else InsertRank(key, OrderOf(key, n - 1), n - 1)
  }

  ghost predicate Distinct(s: seq<nat>) {
    forall i, j | 0 <= i < j < |s| :: s[i] != s[j]
  }

  ghost predicate KeyAscending(key: seq<real>, s: seq<nat>)
    requires forall i | 0 <= i < |s| :: s[i] < |key|
  {
    forall i, j | 0 <= i <= j < |s| :: key[s[i]] <= key[s[j]]
  }

  lemma {:induction false} InsertFacts(key: seq<real>, s: seq<nat>, x: nat)
    requires x < |key| && (forall i | 0 <= i < |s| :: s[i] < |key|) && KeyAscending(key, s)
    requires Distinct(s) && x !in s
    ensures KeyAscending(key, InsertRank(key, s, x)) && Distinct(InsertRank(key, s, x))
    ensures forall y :: y in InsertRank(key, s, x) <==> y in s || y == x
  {
    if |s| > 0 && key[s[|s| - 1]] > key[x] {
      var t, z := s[..|s| - 1], s[|s| - 1];
      assert s == t + [z];
      InsertFacts(key, t, x);
      LastRanked(key, t, x, z, InsertRank(key, t, x));
    }
  }

  lemma LastRanked(key: seq<real>, t: seq<nat>, x: nat, z: nat, r: seq<nat>)
    requires x < |key| && z < |key| && (forall i | 0 <= i < |t| :: t[i] < |key|) && forall i | 0 <= i < |r| :: r[i] < |key|
    requires KeyAscending(key, t + [z]) && Distinct(t + [z]) && x !in t + [z] && key[x] < key[z]
    requires KeyAscending(key, r) && Distinct(r) && forall y :: y in r <==> y in t || y == x
    ensures KeyAscending(key, r + [z]) && Distinct(r + [z])
  {
    assert (t + [z])[|t|] == z;
    forall i | 0 <= i < |r| ensures key[r[i]] <= key[z] && r[i] != z {
      assert r[i] in r;
      if r[i] != x {
        var j :| 0 <= j < |t| && t[j] == r[i];
        assert (t + [z])[j] == r[i];
      }
    }
  }

  /** The order lists every index once, by ascending key. */
  ghost predicate IsOrder(key: seq<real>, order: seq<nat>) {
    && |order| == |key| && (forall i | 0 <= i < |order| :: order[i] < |key|)
    && Distinct(order) && KeyAscending(key, order) && forall i | 0 <= i < |key| :: i in order
  }

  lemma {:induction false} OrderFacts(key: seq<real>, n: nat)
    requires n <= |key|
    ensures KeyAscending(key, OrderOf(key, n)) && Distinct(OrderOf(key, n))
    ensures forall y :: y in OrderOf(key, n) <==> 0 <= y < n
  {
    if n > 0 {
      OrderFacts(key, n - 1);
      InsertFacts(key, OrderOf(key, n - 1), n - 1);
    }
  }

  lemma OrderIsOrder(key: seq<real>)
    ensures IsOrder(key, OrderOf(key, |key|))
  {
    OrderFacts(key, |key|);
  }

  /** The rank of an index. */
  lemma RankOf(key: seq<real>, order: seq<nat>, i: nat) returns (r: nat)
    requires IsOrder(key, order) && i < |key|
    ensures r < |order| && order[r] == i
  {
    assert i in order;
    r :| 0 <= r < |order| && order[r] == i;
  }

  // ---------------------------------------------------------------------------------------------
  // Cardinalities
  // ---------------------------------------------------------------------------------------------

  ghost function Members(s: seq<nat>): set<nat> {
    set x | x in s
  }

  lemma {:induction false} MembersCard(s: seq<nat>)
    requires Distinct(s)
    ensures |Members(s)| == |s|
  {
    if |s| > 0 {
      var t, z := s[..|s| - 1], s[|s| - 1];
      MembersCard(t);
      assert s == t + [z];
      assert Members(s) == Members(t) + {z};
      assert z !in t;
    }
  }

  lemma SubsetCard(a: set<nat>, b: set<nat>)
    requires a <= b
    ensures |a| <= |b|
  {
    assert b == a + (b - a);
  }

  /** A family of hypotheses with an index at rank `s` or later and none earlier has at most the
    * members from rank `s` on. */
  lemma TailBounds(key: seq<real>, order: seq<nat>, family: set<nat>, s: nat)
    requires IsOrder(key, order) && s <= |order|
    requires forall i | i in family :: i < |key|
    requires forall r | 0 <= r < s :: order[r] !in family
    ensures family <= Members(order[s..]) && |family| <= |order| - s
  {
    forall i | i in family ensures i in order[s..] {
      var r := RankOf(key, order, i);
      assert r >= s;
      assert order[s..][r - s] == i;
    }
    MembersCard(order[s..]);
    SubsetCard(family, Members(order[s..]));
  }

  /** The first rank whose index belongs to a non-empty family. */
  lemma FirstRank(key: seq<real>, order: seq<nat>, family: set<nat>, i: nat) returns (s: nat)
    requires IsOrder(key, order) && i in family && forall j | j in family :: j < |key|
    ensures s < |order| && order[s] in family && forall r | 0 <= r < s :: order[r] !in family
  {
    var r := RankOf(key, order, i);
    s := 0;
    while order[s] !in family
      invariant 0 <= s <= r
      invariant forall k | 0 <= k < s :: order[k] !in family
      decreases r - s
    {
      s := s + 1;
    }
  }

  // ---------------------------------------------------------------------------------------------
  // Counting values
  // ---------------------------------------------------------------------------------------------

  function CountGe(p: seq<real>, v: real): nat {
    if |p| == 0 then 0 else CountGe(p[..|p| - 1], v) + if p[|p| - 1] >= v then 1 else 0
  }

  function CountLe(p: seq<real>, v: real): nat {
    if |p| == 0 then 0 else CountLe(p[..|p| - 1], v) + if p[|p| - 1] <= v then 1 else 0
  }

  lemma {:induction false} CountGeCard(p: seq<real>, v: real)
    ensures CountGe(p, v) == |set k: nat | k < |p| && p[k] >= v|
  {
    if |p| > 0 {
      var n := |p| - 1;
      CountGeCard(p[..n], v);
      var shorter := set k: nat | k < n && p[..n][k] >= v;
      assert (set k: nat | k < |p| && p[k] >= v) == if p[n] >= v then shorter + {n} else shorter;
    }
  }

  lemma {:induction false} CountLeCard(p: seq<real>, v: real)
    ensures CountLe(p, v) == |set k: nat | k < |p| && p[k] <= v|
  {
    if |p| > 0 {
      var n := |p| - 1;
      CountLeCard(p[..n], v);
      var shorter := set k: nat | k < n && p[..n][k] <= v;
      assert (set k: nat | k < |p| && p[k] <= v) == if p[n] <= v then shorter + {n} else shorter;
    }
  }

  /** At the first rank of a value, the values at least as large are those from that rank on. */
  lemma CountGeFromRank(p: seq<real>, order: seq<nat>, s: nat)
    requires IsOrder(p, order) && s < |order|
    ensures CountGe(p, p[order[s]]) >= |p| - s
    ensures (s == 0 || p[order[s - 1]] < p[order[s]]) ==> CountGe(p, p[order[s]]) == |p| - s
  {
    var v := p[order[s]];
    var atLeast := set k: nat | k < |p| && p[k] >= v;
    CountGeCard(p, v);
    MembersCard(order[s..]);
    forall x | x in order[s..] ensures x in atLeast {
      var r :| 0 <= r < |order[s..]| && order[s..][r] == x;
      assert order[s + r] == x;
    }
    SubsetCard(Members(order[s..]), atLeast);
    if s == 0 || p[order[s - 1]] < v {
      TailBounds(p, order, atLeast, s);
    }
  }

  /** At the last rank of a value, the values at most as large are those up to that rank. */
  lemma CountLeToRank(p: seq<real>, order: seq<nat>, s: nat)
    requires IsOrder(p, order) && s < |order|
    ensures CountLe(p, p[order[s]]) >= s + 1
    ensures (s == |order| - 1 || p[order[s]] < p[order[s + 1]]) ==> CountLe(p, p[order[s]]) == s + 1
  {
    var v := p[order[s]];
    var atMost := set k: nat | k < |p| && p[k] <= v;
    var head := order[..s + 1];
    CountLeCard(p, v);
    assert Distinct(head);
    MembersCard(head);
    forall x | x in head ensures x in atMost {
      var r :| 0 <= r < |head| && head[r] == x;
      assert order[r] == x;
    }
    SubsetCard(Members(head), atMost);
    if s == |order| - 1 || v < p[order[s + 1]] {
      forall k | k in atMost ensures k in head {
        var r := RankOf(p, order, k);
        assert r <= s;
        assert head[r] == k;
      }
      SubsetCard(atMost, Members(head));
    }
  }

  lemma {:induction false} CountsCover(p: seq<real>, v: real)
    ensures CountLe(p, v) + CountGe(p, v) >= |p|
    ensures v in p ==> CountLe(p, v) + CountGe(p, v) >= |p| + 1 && CountLe(p, v) >= 1 && CountGe(p, v) >= 1
    ensures CountLe(p, v) <= |p| && CountGe(p, v) <= |p|
  {
    if |p| > 0 {
      CountsCover(p[..|p| - 1], v);
      assert p == p[..|p| - 1] + [p[|p| - 1]];
    }
  }

  /** Counts depend only on which values occur and how often. */
  lemma {:induction false} CountsPermute(p: seq<real>, q: seq<real>, v: real)
    requires multiset(p) == multiset(q)
    ensures |p| == |q| && CountGe(p, v) == CountGe(q, v) && CountLe(p, v) == CountLe(q, v)
    decreases |p|
  {
    if |p| == 0 {
      assert |multiset(q)| == 0;
    } else {
      var k := Matching(p, q);
      CountsPermute(p[..|p| - 1], q[..k] + q[k + 1..], v);
      RemoveCount(q, k, v);
    }
  }

  /** The last value of `p` occurs in a rearrangement of it; dropping both keeps a rearrangement. */
  lemma Matching(p: seq<real>, q: seq<real>) returns (k: nat)
    requires |p| > 0 && multiset(p) == multiset(q)
    ensures k < |q| && q[k] == p[|p| - 1]
    ensures multiset(p[..|p| - 1]) == multiset(q[..k] + q[k + 1..])
  {
    var x, t := p[|p| - 1], p[..|p| - 1];
    assert p == t + [x];
    assert x in multiset(q);
    k :| 0 <= k < |q| && q[k] == x;
    assert q == q[..k] + [x] + q[k + 1..];
    assert multiset(t) == multiset(p) - multiset{x};
    assert multiset(q[..k] + q[k + 1..]) == multiset(q) - multiset{x};
  }

  lemma {:induction false} RemoveCount(q: seq<real>, k: nat, v: real)
    requires k < |q|
    ensures CountGe(q, v) == CountGe(q[..k] + q[k + 1..], v) + if q[k] >= v then 1 else 0
    ensures CountLe(q, v) == CountLe(q[..k] + q[k + 1..], v) + if q[k] <= v then 1 else 0
    decreases |q|
  {
    var n := |q| - 1;
    if k == n {
      assert q[..k] + q[k + 1..] == q[..n];
    } else {
      var rest := q[..k] + q[k + 1..];
      assert rest[..|rest| - 1] == q[..n][..k] + q[..n][k + 1..];
      RemoveCount(q[..n], k, v);
    }
  }
}
