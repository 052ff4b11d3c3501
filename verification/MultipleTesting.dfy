/** Bonferroni, Holm and Benjamini-Hochberg corrections: futur3/stats/multiple_testing.py. */
module MultipleTesting {
  import opened Wrappers
  import opened Ranking

  datatype Error = BadLevel | NoPValues | BadPValue

  datatype TestResult = TestResult(adjusted: seq<real>, reject: seq<bool>)

  predicate PValues(p: seq<real>) {
    |p| > 0 && forall i | 0 <= i < |p| :: 0.0 <= p[i] <= 1.0
  }

  predicate Level(alpha: real) {
    0.0 < alpha < 1.0
  }

  function Refusal(p: seq<real>, alpha: real): Option<Error> {
    if !Level(alpha) then Some(BadLevel)
    else if |p| == 0 then Some(NoPValues)
    else if !PValues(p) then Some(BadPValue)
    else None
  }

  ghost predicate RejectsAtLevel(r: TestResult, alpha: real) {
    |r.reject| == |r.adjusted| && forall i | 0 <= i < |r.reject| :: r.reject[i] <==> r.adjusted[i] <= alpha
  }

  method Threshold(adjusted: seq<real>, alpha: real) returns (r: TestResult)
    ensures r.adjusted == adjusted && RejectsAtLevel(r, alpha)
  {
    var reject := seq(|adjusted|, i requires 0 <= i < |adjusted| => adjusted[i] <= alpha);
    r := TestResult(adjusted, reject);
  }

  // ---------------------------------------------------------------------------------------------
  // What each adjusted value is, in terms of the p-values alone
  // ---------------------------------------------------------------------------------------------

  function BonferroniValue(p: seq<real>, x: real): real {
    Penalty(|p|, x)
  }

  /** A p-value inflated `n` times, capped at one. */
  function Penalty(n: nat, v: real): real {
    Min(1.0, n as real * v)
  }

  /** Holm's penalty for a p-value: times the number of p-values at least as large. */
  function HolmTerm(p: seq<real>, v: real): real {
    Penalty(CountGe(p, v), v)
  }

  /** `a` is the largest Holm penalty over the p-values no larger than `x`. */
  ghost predicate IsHolm(p: seq<real>, x: real, a: real) {
    && (forall v | v in p && v <= x :: HolmTerm(p, v) <= a)
    && exists v :: v in p && v <= x && a == HolmTerm(p, v)
  }

  /** A p-value times N over a rank, capped at one. */
  function Ratio(v: real, n: nat, rank: nat): real
    requires rank > 0
  {
    Min(1.0, v * n as real / rank as real)
  }

  /** The BH penalty for a p-value: times N over the number of p-values at most as large. */
  function BhTerm(p: seq<real>, v: real): real {
    if CountLe(p, v) == 0 then 1.0 else Ratio(v, |p|, CountLe(p, v))
  }

  /** `a` is the smallest BH penalty over the p-values no smaller than `x`. */
  ghost predicate IsBh(p: seq<real>, x: real, a: real) {
    && (forall v | v in p && v >= x :: a <= BhTerm(p, v))
    && exists v :: v in p && v >= x && a == BhTerm(p, v)
  }

  // ---------------------------------------------------------------------------------------------
  // Bonferroni
  // ---------------------------------------------------------------------------------------------

  method Bonferroni(p: seq<real>, alpha: real) returns (r: Result<TestResult, Error>)
    ensures Refusal(p, alpha).Some? ==> r == Failure(Refusal(p, alpha).value)
    ensures Refusal(p, alpha).None? ==>
              r.Success? && |r.value.adjusted| == |p| && RejectsAtLevel(r.value, alpha)
              && forall i | 0 <= i < |p| :: r.value.adjusted[i] == BonferroniValue(p, p[i])
  {
    if Refusal(p, alpha).Some? {
      return Failure(Refusal(p, alpha).value);
    }
    var adjusted := seq(|p|, i requires 0 <= i < |p| => BonferroniValue(p, p[i]));
    var t := Threshold(adjusted, alpha);
    r := Success(t);
  }

  // ---------------------------------------------------------------------------------------------
  // Holm
  // ---------------------------------------------------------------------------------------------

  function HolmStep(p: seq<real>, order: seq<nat>, rank: nat): real
    requires IsOrder(p, order) && rank < |order|
  {
    Penalty(|p| - rank, p[order[rank]])
  }

  /** The running maximum of the steps up to a rank. */
  function HolmRun(p: seq<real>, order: seq<nat>, rank: nat): real
    requires IsOrder(p, order) && rank < |order|
  {
    Max(if rank == 0 then 0.0 else HolmRun(p, order, rank - 1), HolmStep(p, order, rank))
  }

  lemma {:induction false} HolmRunIsMax(p: seq<real>, order: seq<nat>, rank: nat)
    requires PValues(p) && IsOrder(p, order) && rank < |order|
    ensures forall s | 0 <= s <= rank :: HolmStep(p, order, s) <= HolmRun(p, order, rank)
    ensures exists s :: 0 <= s <= rank && HolmStep(p, order, s) == HolmRun(p, order, rank)
  {
    if rank == 0 {
      PenaltyMonotone(|p|, |p|, p[order[0]]);
    } else {
      HolmRunIsMax(p, order, rank - 1);
      if HolmRun(p, order, rank) != HolmStep(p, order, rank) {
        var s :| 0 <= s <= rank - 1 && HolmStep(p, order, s) == HolmRun(p, order, rank - 1);
      }
    }
  }

  /** The first rank holding the same value as `rank`. */
  lemma FirstTie(p: seq<real>, order: seq<nat>, rank: nat) returns (s: nat)
    requires IsOrder(p, order) && rank < |order|
    ensures s <= rank && p[order[s]] == p[order[rank]] && (s == 0 || p[order[s - 1]] < p[order[s]])
  {
    s := rank;
    while s > 0 && p[order[s - 1]] == p[order[s]]
      invariant s <= rank && p[order[s]] == p[order[rank]]
    {
      s := s - 1;
    }
  }

  lemma PenaltyMonotone(a: nat, b: nat, v: real)
    requires a <= b && v >= 0.0
    ensures 0.0 <= Penalty(a, v) <= Penalty(b, v) <= 1.0
  {
    ScaleCount(0, a, v);
    ScaleCount(a, b, v);
  }

  lemma ScaleCount(a: nat, b: nat, v: real)
    requires a <= b && v >= 0.0
    ensures a as real * v <= b as real * v
  {
  }

  lemma HolmRunBounds(p: seq<real>, order: seq<nat>, rank: nat, v: real)
    requires PValues(p) && IsOrder(p, order) && rank < |order| && v in p && v <= p[order[rank]]
    ensures HolmTerm(p, v) <= HolmRun(p, order, rank)
  {
    HolmRunIsMax(p, order, rank);
    var i: nat :| i < |p| && p[i] == v;
    var t := RankOf(p, order, i);
    var s := FirstTie(p, order, if t <= rank then t else rank);
    CountGeFromRank(p, order, s);
    assert p[order[s]] == v;
    assert HolmTerm(p, v) == HolmStep(p, order, s);
  }

  lemma HolmRunIsHolm(p: seq<real>, order: seq<nat>, rank: nat)
    requires PValues(p) && IsOrder(p, order) && rank < |order|
    ensures IsHolm(p, p[order[rank]], HolmRun(p, order, rank))
  {
    var a, x := HolmRun(p, order, rank), p[order[rank]];
    forall v | v in p && v <= x ensures HolmTerm(p, v) <= a {
      HolmRunBounds(p, order, rank, v);
    }
    HolmRunIsMax(p, order, rank);
    var s :| 0 <= s <= rank && HolmStep(p, order, s) == a;
    var v := p[order[s]];
    CountGeFromRank(p, order, s);
    PenaltyMonotone(|p| - s, CountGe(p, v), v);
    assert v in p && v <= x;
    HolmRunBounds(p, order, rank, v);
  }

  /** Writing at one index of the order leaves what is written at the others. */
  lemma OthersKept(order: seq<nat>, adjusted: seq<real>, k: nat, value: real)
    requires Distinct(order) && k < |order| && forall i | 0 <= i < |order| :: order[i] < |adjusted|
    ensures forall s | 0 <= s < |order| && s != k :: adjusted[order[k] := value][order[s]] == adjusted[order[s]]
  {
    forall s | 0 <= s < |order| && s != k ensures order[s] != order[k] {
      assert s < k || k < s;
    }
  }

  /** The running maxima, rank by rank. */
  ghost function HolmRuns(p: seq<real>, order: seq<nat>): (runs: seq<real>)
    requires IsOrder(p, order)
    ensures |runs| == |order| && forall s | 0 <= s < |order| :: runs[s] == HolmRun(p, order, s)
  {
    seq(|order|, s requires 0 <= s < |order| => HolmRun(p, order, s))
  }

  lemma HolmTurn(p: seq<real>, order: seq<nat>, rank: nat, running: real)
    requires IsOrder(p, order) && rank < |order|
    requires running == if rank == 0 then 0.0 else HolmRuns(p, order)[rank - 1]
    ensures HolmRuns(p, order)[rank] == Max(running, Penalty(|p| - rank, p[order[rank]]))
  {
  }

  /** The step-down loop, writing each running maximum at its index. */
  method HolmLoop(p: seq<real>, order: seq<nat>) returns (adjusted: seq<real>)
    requires IsOrder(p, order)
    ensures |adjusted| == |p| && forall s | 0 <= s < |p| :: adjusted[order[s]] == HolmRuns(p, order)[s]
  {
    var n := |p|;
    adjusted := seq(n, _ => 0.0);
    var running := 0.0;
    for rank := 0 to n
      invariant |adjusted| == n
      invariant running == if rank == 0 then 0.0 else HolmRuns(p, order)[rank - 1]
      invariant forall s | 0 <= s < rank :: adjusted[order[s]] == HolmRuns(p, order)[s]
    {
      HolmTurn(p, order, rank, running);
      running := Max(running, Penalty(n - rank, p[order[rank]]));
      OthersKept(order, adjusted, rank, running);
      adjusted := adjusted[order[rank] := running];
    }
  }

  method HolmAdjust(p: seq<real>) returns (adjusted: seq<real>)
    requires PValues(p)
    ensures |adjusted| == |p| && forall i | 0 <= i < |p| :: IsHolm(p, p[i], adjusted[i])
  {
    var order := OrderOf(p, |p|);
    OrderIsOrder(p);
    adjusted := HolmLoop(p, order);
    HolmWritten(p, order, adjusted);
  }

  lemma HolmWritten(p: seq<real>, order: seq<nat>, adjusted: seq<real>)
    requires PValues(p) && IsOrder(p, order) && |adjusted| == |p|
    requires forall s | 0 <= s < |p| :: adjusted[order[s]] == HolmRun(p, order, s)
    ensures forall i | 0 <= i < |p| :: IsHolm(p, p[i], adjusted[i])
  {
    forall i: nat | i < |p| ensures IsHolm(p, p[i], adjusted[i]) {
      var rank := RankOf(p, order, i);
      HolmRunIsHolm(p, order, rank);
    }
  }

  method Holm(p: seq<real>, alpha: real) returns (r: Result<TestResult, Error>)
    ensures Refusal(p, alpha).Some? ==> r == Failure(Refusal(p, alpha).value)
    ensures Refusal(p, alpha).None? ==>
              r.Success? && |r.value.adjusted| == |p| && RejectsAtLevel(r.value, alpha)
              && forall i | 0 <= i < |p| :: IsHolm(p, p[i], r.value.adjusted[i])
  {
    if Refusal(p, alpha).Some? {
      return Failure(Refusal(p, alpha).value);
    }
    var adjusted := HolmAdjust(p);
    var t := Threshold(adjusted, alpha);
    r := Success(t);
  }

  // ---------------------------------------------------------------------------------------------
  // Holm is closed testing with Bonferroni
  // ---------------------------------------------------------------------------------------------

  /** Bonferroni rejects the intersection of a family: its size times its least p-value is at most alpha. */
  ghost predicate FamilyRejected(p: seq<real>, family: set<nat>, alpha: real) {
    exists j :: j in family && j < |p| && |family| as real * p[j] <= alpha
  }

  /** Closed testing rejects `i` when every family containing it is rejected. */
  ghost predicate ClosedTestRejects(p: seq<real>, i: nat, alpha: real) {
    forall family: set<nat> | i in family && (forall j | j in family :: j < |p|) :: FamilyRejected(p, family, alpha)
  }

  lemma HolmIsClosedTesting(p: seq<real>, i: nat, a: real, alpha: real)
    requires PValues(p) && Level(alpha) && i < |p| && IsHolm(p, p[i], a)
    ensures a <= alpha <==> ClosedTestRejects(p, i, alpha)
  {
    if a <= alpha {
      forall family: set<nat> | i in family && (forall j | j in family :: j < |p|) ensures FamilyRejected(p, family, alpha) {
        HolmRejectsFamily(p, i, a, alpha, family);
      }
    }
    if ClosedTestRejects(p, i, alpha) {
      var v :| v in p && v <= p[i] && a == HolmTerm(p, v);
      ClosedBoundsTerm(p, i, v, alpha);
    }
  }

  lemma PenaltyWithin(n: nat, v: real, alpha: real)
    requires Level(alpha)
    ensures Penalty(n, v) <= alpha <==> n as real * v <= alpha
  {
  }

  /** The family of everything at least as large as `v` is one of those closed testing must reject. */
  lemma ClosedBoundsTerm(p: seq<real>, i: nat, v: real, alpha: real)
    requires Level(alpha) && i < |p| && v <= p[i] && ClosedTestRejects(p, i, alpha)
    ensures HolmTerm(p, v) <= alpha
  {
    var family := set k: nat | k < |p| && p[k] >= v;
    CountGeCard(p, v);
    assert FamilyRejected(p, family, alpha);
    var j :| j in family && j < |p| && |family| as real * p[j] <= alpha;
    ScaledPenalty(|family|, v, p[j], alpha);
  }

  lemma ScaledPenalty(n: nat, v: real, w: real, alpha: real)
    requires Level(alpha) && v <= w && n as real * w <= alpha
    ensures Penalty(n, v) <= alpha
  {
    ScaleValue(n, v, w);
    PenaltyWithin(n, v, alpha);
  }

  lemma ScaleValue(n: nat, x: real, y: real)
    requires x <= y
    ensures n as real * x <= n as real * y
  {
  }

  lemma HolmRejectsFamily(p: seq<real>, i: nat, a: real, alpha: real, family: set<nat>)
    requires PValues(p) && Level(alpha) && i < |p| && IsHolm(p, p[i], a) && a <= alpha
    requires i in family && forall j | j in family :: j < |p|
    ensures FamilyRejected(p, family, alpha)
  {
    var order := OrderOf(p, |p|);
    OrderIsOrder(p);
    var s := FirstRank(p, order, family, i);
    var r := RankOf(p, order, i);
    assert s <= r;
    TailBounds(p, order, family, s);
    CountGeFromRank(p, order, s);
    TermBoundsFamily(p, i, order[s], a, alpha, family);
  }

  lemma TermBoundsFamily(p: seq<real>, i: nat, k: nat, a: real, alpha: real, family: set<nat>)
    requires PValues(p) && Level(alpha) && i < |p| && IsHolm(p, p[i], a) && a <= alpha
    requires k in family && k < |p| && p[k] <= p[i] && |family| <= CountGe(p, p[k])
    ensures FamilyRejected(p, family, alpha)
  {
    assert p[k] in p;
    assert HolmTerm(p, p[k]) <= a;
    PenaltyMonotone(|family|, CountGe(p, p[k]), p[k]);
    PenaltyWithin(|family|, p[k], alpha);
  }

  // ---------------------------------------------------------------------------------------------
  // Benjamini-Hochberg
  // ---------------------------------------------------------------------------------------------

  function BhStep(p: seq<real>, order: seq<nat>, rank: nat): real
    requires IsOrder(p, order) && rank < |order|
  {
    Ratio(p[order[rank]], |p|, rank + 1)
  }

  /** The running minimum of the steps from the largest rank down to this one. */
  function BhRun(p: seq<real>, order: seq<nat>, rank: nat): real
    requires IsOrder(p, order) && rank <= |order|
    decreases |order| - rank
  {
    if rank == |order| then 1.0 else Min(BhRun(p, order, rank + 1), BhStep(p, order, rank))
  }

  lemma BhStepCapped(p: seq<real>, order: seq<nat>, rank: nat)
    requires IsOrder(p, order) && rank < |order|
    ensures BhStep(p, order, rank) <= 1.0
  {
  }

  /** The running minimum is attained at some rank from here up, and bounds them all. */
  lemma {:induction false} BhRunIsMin(p: seq<real>, order: seq<nat>, rank: nat) returns (s: nat)
    requires IsOrder(p, order) && rank < |order|
    ensures forall k | rank <= k < |order| :: BhRun(p, order, rank) <= BhStep(p, order, k)
    ensures rank <= s < |order| && BhRun(p, order, rank) == BhStep(p, order, s)
    decreases |order| - rank
  {
    s := rank;
    BhStepCapped(p, order, rank);
    if rank + 1 < |order| {
      var t := BhRunIsMin(p, order, rank + 1);
      if BhRun(p, order, rank) != BhStep(p, order, rank) {
        s := t;
      }
    }
  }

  lemma LastTie(p: seq<real>, order: seq<nat>, rank: nat) returns (s: nat)
    requires IsOrder(p, order) && rank < |order|
    ensures rank <= s < |order| && p[order[s]] == p[order[rank]] && (s == |order| - 1 || p[order[s]] < p[order[s + 1]])
  {
    s := rank;
    while s + 1 < |order| && p[order[s + 1]] == p[order[s]]
      invariant rank <= s < |order| && p[order[s]] == p[order[rank]]
    {
      s := s + 1;
    }
  }

  lemma DivideByMore(x: real, a: nat, b: nat)
    requires x >= 0.0 && 0 < a <= b
    ensures x / b as real <= x / a as real
  {
    var q := x / b as real;
    assert q * b as real == x;
    assert q >= 0.0;
    assert q * a as real <= q * b as real;
    var t := x / a as real;
    assert t * a as real == x;
    if t < q {
      assert t * a as real < q * a as real;
    }
  }

  lemma RatioMonotone(v: real, n: nat, a: nat, b: nat)
    requires v >= 0.0 && 0 < a <= b
    ensures Ratio(v, n, b) <= Ratio(v, n, a)
  {
    DivideByMore(v * n as real, a, b);
  }

  lemma BhRunBounds(p: seq<real>, order: seq<nat>, rank: nat, v: real)
    requires PValues(p) && IsOrder(p, order) && rank < |order| && v in p && v >= p[order[rank]]
    ensures BhRun(p, order, rank) <= BhTerm(p, v)
  {
    var _ := BhRunIsMin(p, order, rank);
    var i: nat :| i < |p| && p[i] == v;
    var t := RankOf(p, order, i);
    var s := LastTie(p, order, if t >= rank then t else rank);
    CountLeToRank(p, order, s);
    assert p[order[s]] == v;
    assert BhTerm(p, v) == BhStep(p, order, s);
  }

  lemma BhRunIsBh(p: seq<real>, order: seq<nat>, rank: nat)
    requires PValues(p) && IsOrder(p, order) && rank < |order|
    ensures IsBh(p, p[order[rank]], BhRun(p, order, rank))
  {
    var a, x := BhRun(p, order, rank), p[order[rank]];
    forall v | v in p && v >= x ensures a <= BhTerm(p, v) {
      BhRunBounds(p, order, rank, v);
    }
    var s := BhRunIsMin(p, order, rank);
    var v := p[order[s]];
    CountLeToRank(p, order, s);
    RatioMonotone(v, |p|, s + 1, CountLe(p, v));
    assert v in p && v >= x;
    BhRunBounds(p, order, rank, v);
  }

  /** The step-up loop, from the largest p-value down. */
  method BhLoop(p: seq<real>, order: seq<nat>) returns (adjusted: seq<real>)
    requires IsOrder(p, order)
    ensures |adjusted| == |p| && forall s | 0 <= s < |p| :: adjusted[order[s]] == BhRun(p, order, s)
  {
    var n := |p|;
    adjusted := seq(n, _ => 0.0);
    var running := 1.0;
    for rank := n downto 0
      invariant |adjusted| == n && running == BhRun(p, order, rank)
      invariant forall s | rank <= s < n :: adjusted[order[s]] == BhRun(p, order, s)
    {
      running := Min(running, Ratio(p[order[rank]], n, rank + 1));
      OthersKept(order, adjusted, rank, running);
      adjusted := adjusted[order[rank] := running];
    }
  }

  method BhAdjust(p: seq<real>) returns (adjusted: seq<real>)
    requires PValues(p)
    ensures |adjusted| == |p| && forall i | 0 <= i < |p| :: IsBh(p, p[i], adjusted[i])
  {
    var order := OrderOf(p, |p|);
    OrderIsOrder(p);
    adjusted := BhLoop(p, order);
    BhWritten(p, order, adjusted);
  }

  lemma BhWritten(p: seq<real>, order: seq<nat>, adjusted: seq<real>)
    requires PValues(p) && IsOrder(p, order) && |adjusted| == |p|
    requires forall s | 0 <= s < |p| :: adjusted[order[s]] == BhRun(p, order, s)
    ensures forall i | 0 <= i < |p| :: IsBh(p, p[i], adjusted[i])
  {
    forall i: nat | i < |p| ensures IsBh(p, p[i], adjusted[i]) {
      var rank := RankOf(p, order, i);
      BhRunIsBh(p, order, rank);
    }
  }

  method BhFdr(p: seq<real>, q: real) returns (r: Result<TestResult, Error>)
    ensures Refusal(p, q).Some? ==> r == Failure(Refusal(p, q).value)
    ensures Refusal(p, q).None? ==>
              r.Success? && |r.value.adjusted| == |p| && RejectsAtLevel(r.value, q)
              && forall i | 0 <= i < |p| :: IsBh(p, p[i], r.value.adjusted[i])
  {
    if Refusal(p, q).Some? {
      return Failure(Refusal(p, q).value);
    }
    var adjusted := BhAdjust(p);
    var t := Threshold(adjusted, q);
    r := Success(t);
  }

  /** The step-up rule: some p-value at least as large, of rank k counted with ties, is at most k q / N. */
  ghost predicate StepUpRejects(p: seq<real>, x: real, q: real) {
    exists v :: v in p && v >= x && v * |p| as real <= CountLe(p, v) as real * q
  }

  lemma BhIsStepUp(p: seq<real>, i: nat, a: real, q: real)
    requires PValues(p) && Level(q) && i < |p| && IsBh(p, p[i], a)
    ensures a <= q <==> StepUpRejects(p, p[i], q)
  {
    if a <= q {
      var v :| v in p && v >= p[i] && a == BhTerm(p, v);
      TermWithin(p, v, q);
    }
    if StepUpRejects(p, p[i], q) {
      var v :| v in p && v >= p[i] && v * |p| as real <= CountLe(p, v) as real * q;
      TermWithin(p, v, q);
      assert a <= BhTerm(p, v);
    }
  }

  lemma TermWithin(p: seq<real>, v: real, q: real)
    requires PValues(p) && Level(q) && v in p
    ensures BhTerm(p, v) <= q <==> v * |p| as real <= CountLe(p, v) as real * q
  {
    CountsCover(p, v);
    QuotientAtMost(v * |p| as real, CountLe(p, v), q);
  }

  lemma QuotientAtMost(x: real, n: nat, q: real)
    requires n > 0
    ensures x / n as real <= q <==> x <= n as real * q
  {
    var t := x / n as real;
    assert t * n as real == x;
    if t <= q {
      assert t * n as real <= q * n as real;
    } else {
      assert t * n as real > q * n as real;
    }
  }

  // ---------------------------------------------------------------------------------------------
  // How the three compare
  // ---------------------------------------------------------------------------------------------

  lemma CountProduct(a: nat, b: nat, n: nat)
    requires a >= 1 && b >= 1 && a + b >= n + 1
    ensures n <= a * b
  {
    assert (a - 1) * (b - 1) >= 0;
  }

  lemma BhTermAtMostHolm(p: seq<real>, v: real)
    requires PValues(p) && v in p
    ensures BhTerm(p, v) <= HolmTerm(p, v)
  {
    CountsCover(p, v);
    RatioAtMostPenalty(v, |p|, CountLe(p, v), CountGe(p, v));
  }

  lemma RatioAtMostPenalty(v: real, n: nat, le: nat, ge: nat)
    requires v >= 0.0 && le >= 1 && ge >= 1 && le + ge >= n + 1
    ensures Ratio(v, n, le) <= Penalty(ge, v)
  {
    var x := v * n as real;
    CountProduct(le, ge, n);
    ScaledProduct(v, n, le, ge);
    QuotientAtMost(x, le, ge as real * v);
    CapMonotone(x / le as real, ge as real * v);
  }

  lemma ScaledProduct(v: real, n: nat, le: nat, ge: nat)
    requires v >= 0.0 && n <= le * ge
    ensures v * n as real <= le as real * (ge as real * v)
  {
    ScaleCount(n, le * ge, v);
    Regroup(le, ge, v);
    assert v * n as real == n as real * v;
  }

  lemma Regroup(a: nat, b: nat, v: real)
    ensures (a * b) as real * v == a as real * (b as real * v)
  {
    assert (a * b) as real == a as real * b as real;
  }

  /** Pointwise: BH is at most Holm, and Holm is at most Bonferroni. */
  lemma CorrectionsOrdered(p: seq<real>, i: nat, bh: real, holm: real)
    requires PValues(p) && i < |p| && IsBh(p, p[i], bh) && IsHolm(p, p[i], holm)
    ensures bh <= holm <= BonferroniValue(p, p[i])
  {
    BhTermAtMostHolm(p, p[i]);
    assert bh <= BhTerm(p, p[i]) && HolmTerm(p, p[i]) <= holm;
    var v :| v in p && v <= p[i] && holm == HolmTerm(p, v);
    CountsCover(p, v);
    PenaltyMonotone(CountGe(p, v), |p|, v);
    PenaltyRises(|p|, v, p[i]);
  }

  lemma PenaltyRises(n: nat, x: real, y: real)
    requires x <= y
    ensures Penalty(n, x) <= Penalty(n, y)
  {
    ScaleValue(n, x, y);
    CapMonotone(n as real * x, n as real * y);
  }

  lemma CapMonotone(a: real, b: real)
    requires a <= b
    ensures Min(1.0, a) <= Min(1.0, b)
  {
  }

  /** Adjusted values depend only on the p-value and on which p-values there are: ties agree, and
    * permuting the input permutes the output. */
  lemma AdjustedPermutes(p: seq<real>, q: seq<real>, i: nat, j: nat, a: real, b: real)
    requires i < |p| && j < |q| && p[i] == q[j] && multiset(p) == multiset(q)
    ensures IsHolm(p, p[i], a) && IsHolm(q, q[j], b) ==> a == b
    ensures IsBh(p, p[i], a) && IsBh(q, q[j], b) ==> a == b
  {
    forall v ensures HolmTerm(p, v) == HolmTerm(q, v) && BhTerm(p, v) == BhTerm(q, v) && (v in p <==> v in q) {
      CountsPermute(p, q, v);
      assert v in p <==> v in multiset(p);
      assert v in q <==> v in multiset(q);
    }
  }
}
