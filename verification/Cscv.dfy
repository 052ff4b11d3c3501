/** Probability of backtest overfitting by symmetric splits: futur3/cv/cscv.py. The scalar metric is
  * any function of the pooled returns; None stands for a value that is not finite. */
module Cscv {
  import opened Wrappers
  import opened Combinations

  type Metric = seq<real> -> Option<real>

  datatype Error = TooFewStrategies | BadSegments | BadMinObs | Ragged | TooFewObs | NoFiniteSplit

  const MIN_STRATEGIES := 2
  const MIN_SEGMENTS := 2
  const LOGIT_EPS := 0.000000001

  // ---------------------------------------------------------------------------------------------
  // The in-sample winner
  // ---------------------------------------------------------------------------------------------

  /** A largest value, and the first such. */
  predicate IsArgmax(values: seq<real>, i: nat) {
    && i < |values| && (forall j | 0 <= j < |values| :: values[j] <= values[i])
    && forall j | 0 <= j < i :: values[j] < values[i]
  }

  lemma ArgmaxUnique(values: seq<real>, i: nat, j: nat)
    requires IsArgmax(values, i) && IsArgmax(values, j)
    ensures i == j
  {
    assert values[i] <= values[j] <= values[i];
  }

  function WinnerOf(values: seq<real>): (best: nat)
    requires |values| > 0
    ensures IsArgmax(values, best)
  {
    if |values| == 1 then 0
    else
      var n := |values| - 1;
      var best := WinnerOf(values[..n]);
      assert forall j | 0 <= j < n :: values[..n][j] == values[j];
      if values[n] > values[best] then n else best
  }

  method Argmax(values: seq<real>) returns (best: nat)
    requires |values| > 0
    ensures IsArgmax(values, best)
  {
    best := 0;
    var bestValue := values[0];
    for i := 1 to |values|
      invariant IsArgmax(values[..i], best) && bestValue == values[best]
    {
      if values[i] > bestValue {
        bestValue := values[i];
        best := i;
      }
    }
    assert values[..|values|] == values;
  }

  // ---------------------------------------------------------------------------------------------
  // Its out-of-sample rank
  // ---------------------------------------------------------------------------------------------

  function CountBelow(values: seq<real>, x: real): nat {
    if |values| == 0 then 0 else (if values[0] < x then 1 else 0) + CountBelow(values[1..], x)
  }

  function CountEqual(values: seq<real>, x: real): nat {
    if |values| == 0 then 0 else (if values[0] == x then 1 else 0) + CountEqual(values[1..], x)
  }

  function CountAbove(values: seq<real>, x: real): nat {
    if |values| == 0 then 0 else (if values[0] > x then 1 else 0) + CountAbove(values[1..], x)
  }

  /** Mid-rank among all, scaled into (0, 1). */
  function RelativeRank(values: seq<real>, target: nat): real
    requires target < |values|
  {
    MidRank(CountBelow(values, values[target]), CountEqual(values, values[target]), |values|)
  }

  /** The average rank of a tied group, scaled. */
  function MidRank(below: nat, equal: nat, m: nat): real {
    (below as real + (equal as real + 1.0) / 2.0) / (m as real + 1.0)
  }

  lemma {:induction false} CountsAddUp(values: seq<real>, x: real)
    ensures CountBelow(values, x) + CountEqual(values, x) + CountAbove(values, x) == |values|
  {
    if |values| > 0 {
      CountsAddUp(values[1..], x);
    }
  }

  /** The odds of the clamped rank; the logit is their logarithm, negative exactly when they are below 1. */
  function Odds(w: real): real {
    var c := if w < LOGIT_EPS then LOGIT_EPS else if w > 1.0 - LOGIT_EPS then 1.0 - LOGIT_EPS else w;
    c / (1.0 - c)
  }

  lemma DivideBelow(a: real, b: real, x: real)
    requires b > 0.0
    ensures a / b < x <==> a < x * b
  {
    assert a / b * b == a;
    MulOrder(a / b, x, b);
  }

  lemma MulOrder(a: real, b: real, c: real)
    requires c > 0.0
    ensures a < b <==> a * c < b * c
  {
    if a < b {
      assert (b - a) * c > 0.0;
    } else if a > b {
      assert (a - b) * c > 0.0;
    }
  }

  lemma OddsBelowOne(w: real)
    ensures Odds(w) < 1.0 <==> w < 0.5
  {
    var c := if w < LOGIT_EPS then LOGIT_EPS else if w > 1.0 - LOGIT_EPS then 1.0 - LOGIT_EPS else w;
    DivideBelow(c, 1.0 - c, 1.0);
  }

  /** A split counts towards overfitting exactly when more strategies beat the winner out of sample
    * than it beats. */
  lemma BelowMedian(values: seq<real>, target: nat)
    requires target < |values|
    ensures Odds(RelativeRank(values, target)) < 1.0 <==> CountBelow(values, values[target]) < CountAbove(values, values[target])
  {
    var x := values[target];
    var below, equal := CountBelow(values, x), CountEqual(values, x);
    CountsAddUp(values, x);
    OddsBelowOne(RelativeRank(values, target));
    DivideBelow(below as real + (equal as real + 1.0) / 2.0, |values| as real + 1.0, 0.5);
  }

  // ---------------------------------------------------------------------------------------------
  // Splits
  // ---------------------------------------------------------------------------------------------

  /** A slice, cut off at the end of the row. */
  function Slice(row: seq<real>, lo: nat, hi: nat): seq<real> {
    if lo >= |row| || hi <= lo then [] else if hi > |row| then row[lo..] else row[lo..hi]
  }

  function Segment(row: seq<real>, size: nat, j: nat): seq<real> {
    Slice(row, j * size, (j + 1) * size)
  }

  function Pooled(row: seq<real>, size: nat, combo: seq<nat>): seq<real> {
    if |combo| == 0 then [] else Pooled(row, size, combo[..|combo| - 1]) + Segment(row, size, combo[|combo| - 1])
  }

  method MetricOver(metric: Metric, row: seq<real>, size: nat, combo: seq<nat>) returns (r: Option<real>)
    ensures r == metric(Pooled(row, size, combo))
  {
    var pooled: seq<real> := [];
    for i := 0 to |combo|
      invariant pooled == Pooled(row, size, combo[..i])
    {
      assert combo[..i + 1][..i] == combo[..i];
      pooled := pooled + Segment(row, size, combo[i]);
    }
    assert combo[..|combo|] == combo;
    r := metric(pooled);
  }

  /** The segments not chosen, in order. */
  function Complement(n: nat, combo: seq<nat>): seq<nat> {
    if n == 0 then [] else Complement(n - 1, combo) + if n - 1 in combo then [] else [n - 1]
  }

  /** All strategies' metrics on one side of a split; None when one is not finite. */
  function Metrics(metric: Metric, rows: seq<seq<real>>, size: nat, combo: seq<nat>): (r: Option<seq<real>>)
    ensures r.Some? ==> |r.value| == |rows| && forall m | 0 <= m < |rows| :: metric(Pooled(rows[m], size, combo)) == Some(r.value[m])
    ensures r.None? ==> exists m :: 0 <= m < |rows| && metric(Pooled(rows[m], size, combo)).None?
  {
    if |rows| == 0 then Some([])
    else
      var n := |rows| - 1;
      match (Metrics(metric, rows[..n], size, combo), metric(Pooled(rows[n], size, combo)))
      case (Some(vs), Some(v)) => Some(vs + [v])
      case _ => None
  }

  /** Where the in-sample winner stands on the other segments; None when a metric is not finite. */
  function WinnerRank(inSample: Option<seq<real>>, outOfSample: Option<seq<real>>): Option<real> {
    if inSample.Some? && outOfSample.Some? && 0 < |inSample.value| == |outOfSample.value|
    then Some(RelativeRank(outOfSample.value, WinnerOf(inSample.value)))
    else None
  }

  function SplitRank(metric: Metric, rows: seq<seq<real>>, size: nat, n: nat): seq<nat> -> Option<real> {
    (combo: seq<nat>) => WinnerRank(Metrics(metric, rows, size, combo), Metrics(metric, rows, size, Complement(n, combo)))
  }

  /** The ranks of the splits that have one, in split order. */
  function Ranks(rank: seq<nat> -> Option<real>, combos: seq<seq<nat>>): seq<real> {
    if |combos| == 0 then []
    else Ranks(rank, combos[..|combos| - 1]) + AsSeq(rank(combos[|combos| - 1]))
  }

  function AsSeq(rank: Option<real>): seq<real> {
    match rank case Some(w) => [w] case None => []
  }

  lemma RanksOneMore(rank: seq<nat> -> Option<real>, combos: seq<seq<nat>>, c: nat)
    requires c < |combos|
    ensures Ranks(rank, combos[..c + 1]) == Ranks(rank, combos[..c]) + AsSeq(rank(combos[c]))
  {
    assert combos[..c + 1][..c] == combos[..c];
  }

  function Overfit(ranks: seq<real>): (k: nat)
    ensures k <= |ranks|
  {
    if |ranks| == 0 then 0 else (if Odds(ranks[0]) < 1.0 then 1 else 0) + Overfit(ranks[1..])
  }

  datatype Pbo = Pbo(pbo: real, strategies: nat, observations: nat, segments: nat, combinations: nat, ranks: seq<real>)

  predicate SameLengths(rows: seq<seq<real>>) {
    forall m | 0 <= m < |rows| :: |rows[m]| == |rows[0]|
  }

  /** Observations per segment; a remainder at the end is dropped. */
  function SegmentSize(t: nat, n: nat): nat
    requires n > 0
  {
    t / n
  }

  /** The first input check that fails. */
  function InputError(rows: seq<seq<real>>, nSegments: int, minObs: int): Option<Error> {
    if |rows| < MIN_STRATEGIES then Some(TooFewStrategies)
    else if nSegments < MIN_SEGMENTS || nSegments % 2 != 0 then Some(BadSegments)
    else if minObs < 1 then Some(BadMinObs)
    else if !SameLengths(rows) then Some(Ragged)
    else if SegmentSize(|rows[0]|, nSegments) < minObs then Some(TooFewObs)
    else None
  }

  /** The ranks over every symmetric split. */
  function AllRanks(metric: Metric, rows: seq<seq<real>>, nSegments: nat): seq<real>
    requires |rows| > 0 && nSegments > 0
  {
    Ranks(SplitRank(metric, rows, SegmentSize(|rows[0]|, nSegments), nSegments), Combos(0, nSegments, nSegments / 2))
  }

  /** Every strategy's metric on one side of a split, stopping at one that is not finite. */
  method AllMetrics(metric: Metric, rows: seq<seq<real>>, size: nat, combo: seq<nat>) returns (r: Option<seq<real>>)
    ensures r == Metrics(metric, rows, size, combo)
  {
    var values: seq<real> := [];
    for m := 0 to |rows|
      invariant Metrics(metric, rows[..m], size, combo) == Some(values)
    {
      var v := MetricOver(metric, rows[m], size, combo);
      assert rows[..m + 1][..m] == rows[..m];
      if v.None? {
        MetricsStopped(metric, rows, size, combo, m + 1);
        return None;
      }
      values := values + [v.value];
    }
    assert rows[..|rows|] == rows;
    r := Some(values);
  }

  lemma {:induction false} MetricsStopped(metric: Metric, rows: seq<seq<real>>, size: nat, combo: seq<nat>, m: nat)
    requires m <= |rows| && Metrics(metric, rows[..m], size, combo).None?
    ensures Metrics(metric, rows, size, combo).None?
    decreases |rows|
  {
    if m < |rows| {
      assert rows[..|rows| - 1][..m] == rows[..m];
      MetricsStopped(metric, rows[..|rows| - 1], size, combo, m);
    } else {
      assert rows[..m] == rows;
    }
  }

  method RankSplit(metric: Metric, rows: seq<seq<real>>, size: nat, nSegments: nat, combo: seq<nat>) returns (r: Option<real>)
    requires |rows| > 0
    ensures r == SplitRank(metric, rows, size, nSegments)(combo)
  {
    var rest := Complement(nSegments, combo);
    var inSample := AllMetrics(metric, rows, size, combo);
    var outOfSample := AllMetrics(metric, rows, size, rest);
    if inSample.None? || outOfSample.None? {
      return None;
    }
    var winner := Argmax(inSample.value);
    ArgmaxUnique(inSample.value, winner, WinnerOf(inSample.value));
    r := Some(RelativeRank(outOfSample.value, winner));
  }

  method SplitRanks(metric: Metric, rows: seq<seq<real>>, size: nat, nSegments: nat, combos: seq<seq<nat>>) returns (ranks: seq<real>)
    requires |rows| > 0
    ensures ranks == Ranks(SplitRank(metric, rows, size, nSegments), combos)
  {
    ranks := [];
    for c := 0 to |combos|
      invariant ranks == Ranks(SplitRank(metric, rows, size, nSegments), combos[..c])
    {
      var w := RankSplit(metric, rows, size, nSegments, combos[c]);
      if w.Some? {
        ranks := ranks + [w.value];
      }
      RanksOneMore(SplitRank(metric, rows, size, nSegments), combos, c);
    }
    assert combos[..|combos|] == combos;
  }

  /** The probability drawn from the ranks, unless no split has one. */
  predicate Concludes(r: Result<Pbo, Error>, ranks: seq<real>, strategies: nat, size: nat, nSegments: nat, combinations: nat) {
    if |ranks| == 0 then r == Failure(NoFiniteSplit)
    else r.Success? && IsSummary(r.value, ranks, strategies, size, nSegments, combinations)
  }

  predicate Answers(r: Result<Pbo, Error>, metric: Metric, rows: seq<seq<real>>, nSegments: nat)
    requires |rows| > 0 && nSegments > 0
  {
    Concludes(r, AllRanks(metric, rows, nSegments), |rows|, SegmentSize(|rows[0]|, nSegments), nSegments, |Combos(0, nSegments, nSegments / 2)|)
  }

  /** The share of splits whose in-sample winner falls below the out-of-sample median. */
  method CscvPbo(rows: seq<seq<real>>, nSegments: int, metric: Metric, minObs: int) returns (r: Result<Pbo, Error>)
    ensures match InputError(rows, nSegments, minObs)
            case Some(e) => r == Failure(e)
            case None => Answers(r, metric, rows, nSegments)
  {
    var invalid := InputError(rows, nSegments, minObs);
    if invalid.Some? {
      return Failure(invalid.value);
    }
    r := Evaluate(rows, nSegments, metric);
  }

  method RankAll(rows: seq<seq<real>>, nSegments: nat, metric: Metric) returns (ranks: seq<real>)
    requires |rows| > 0 && nSegments > 0
    ensures ranks == AllRanks(metric, rows, nSegments)
  {
    ranks := SplitRanks(metric, rows, SegmentSize(|rows[0]|, nSegments), nSegments, Combos(0, nSegments, nSegments / 2));
  }

  method CountSplits(nSegments: nat) returns (count: nat)
    ensures count == |Combos(0, nSegments, nSegments / 2)|
  {
    CombosCount(0, nSegments, nSegments / 2);
    count := Choose(nSegments, nSegments / 2);
  }

  method Evaluate(rows: seq<seq<real>>, nSegments: nat, metric: Metric) returns (r: Result<Pbo, Error>)
    requires |rows| > 0 && nSegments > 0
    ensures Answers(r, metric, rows, nSegments)
  {
    var ranks := RankAll(rows, nSegments, metric);
    var count := CountSplits(nSegments);
    r := Summarise(ranks, |rows|, SegmentSize(|rows[0]|, nSegments), nSegments, count);
  }

  method Summarise(ranks: seq<real>, strategies: nat, size: nat, nSegments: nat, combinations: nat) returns (r: Result<Pbo, Error>)
    ensures Concludes(r, ranks, strategies, size, nSegments, combinations)
  {
    if |ranks| == 0 {
      return Failure(NoFiniteSplit);
    }
    var negative := CountOverfit(ranks);
    r := Success(Pbo(Share(negative, |ranks|), strategies, size * nSegments, nSegments, combinations, ranks));
  }

  function Share(k: nat, n: nat): real
    requires n > 0
  {
    k as real / n as real
  }

  method CountOverfit(ranks: seq<real>) returns (negative: nat)
    ensures negative == Overfit(ranks)
  {
    negative := 0;
    for i := 0 to |ranks|
      invariant negative + Overfit(ranks[i..]) == Overfit(ranks)
    {
      assert ranks[i..][1..] == ranks[i + 1..];
      if Odds(ranks[i]) < 1.0 {
        negative := negative + 1;
      }
    }
  }

  predicate IsSummary(p: Pbo, ranks: seq<real>, strategies: nat, size: nat, nSegments: nat, combinations: nat) {
    && p.ranks == ranks && |ranks| > 0 && p.pbo == Share(Overfit(ranks), |ranks|)
    && p.strategies == strategies && p.segments == nSegments && p.observations == size * nSegments && p.combinations == combinations
  }

  predicate IsPbo(p: Pbo, metric: Metric, rows: seq<seq<real>>, nSegments: int) {
    |rows| > 0 && nSegments > 0 && Answers(Success(p), metric, rows, nSegments)
  }

  // ---------------------------------------------------------------------------------------------
  // The splits are symmetric
  // ---------------------------------------------------------------------------------------------

  /** Every segment is in sample in exactly half of the splits. */
  lemma InSampleHalfTheTime(nSegments: nat, j: nat)
    requires nSegments % 2 == 0 && j < nSegments
    ensures var combos := Combos(0, nSegments, nSegments / 2); 2 * CountWith(combos, j) == |combos|
  {
    var half := nSegments / 2;
    EachChosenEqually(0, nSegments, half, j);
    CombosCount(0, nSegments, half);
    HalfEach(half);
  }

  lemma {:induction false} ComplementExact(n: nat, combo: seq<nat>)
    ensures forall j: nat :: j in Complement(n, combo) <==> j < n && j !in combo
    ensures forall a, b | 0 <= a < b < |Complement(n, combo)| :: Complement(n, combo)[a] < Complement(n, combo)[b]
  {
    if n > 0 {
      ComplementExact(n - 1, combo);
      var s := Complement(n - 1, combo);
      forall a | 0 <= a < |s| ensures s[a] < n - 1 {
        assert s[a] in s;
      }
    }
  }

  lemma {:induction false} ComplementLength(n: nat, k: nat, combo: seq<nat>)
    requires Choice(combo, 0, n, k)
    ensures |Complement(n, combo)| == n - k
  {
    assert k == 0 || combo[0] < n;
    if n > 0 {
      if k > 0 && combo[k - 1] == n - 1 {
        var fewer := combo[..k - 1];
        ComplementLength(n - 1, k - 1, fewer);
        SameComplement(n - 1, combo, fewer);
      } else {
        if k > 0 {
          assert forall i | 0 <= i < k :: combo[i] <= combo[k - 1];
        }
        ComplementLength(n - 1, k, combo);
      }
    }
  }

  lemma {:induction false} SameComplement(n: nat, a: seq<nat>, b: seq<nat>)
    requires forall j: nat | j < n :: j in a <==> j in b
    ensures Complement(n, a) == Complement(n, b)
  {
    if n > 0 {
      SameComplement(n - 1, a, b);
    }
  }

  /** The out-of-sample half of each split is the in-sample half of another: each partition of the
    * segments is used both ways round. */
  lemma OtherHalfIsASplit(nSegments: nat, combo: seq<nat>)
    requires nSegments % 2 == 0 && Choice(combo, 0, nSegments, nSegments / 2)
    ensures Complement(nSegments, combo) in Combos(0, nSegments, nSegments / 2)
    ensures forall j: nat | j < nSegments :: j in combo <==> j !in Complement(nSegments, combo)
  {
    var rest := Complement(nSegments, combo);
    ComplementExact(nSegments, combo);
    ComplementLength(nSegments, nSegments / 2, combo);
    forall a | 0 <= a < |rest| ensures rest[a] < nSegments {
      assert rest[a] in rest;
    }
    ChoicesAreListed(0, nSegments, nSegments / 2, rest);
  }

  // ---------------------------------------------------------------------------------------------
  // Only the order of the metric matters
  // ---------------------------------------------------------------------------------------------

  ghost predicate Increasing(g: real -> real) {
    forall x, y :: x < y ==> g(x) < g(y)
  }

  function Rescaled(metric: Metric, g: real -> real): Metric {
    (pooled: seq<real>) => match metric(pooled) case Some(v) => Some(g(v)) case None => None
  }

  function MapSeq(g: real -> real, vs: seq<real>): (r: seq<real>)
    ensures |r| == |vs| && forall i | 0 <= i < |vs| :: r[i] == g(vs[i])
  {
    seq(|vs|, i requires 0 <= i < |vs| => g(vs[i]))
  }

  lemma {:induction false} RescaledMetrics(metric: Metric, g: real -> real, rows: seq<seq<real>>, size: nat, combo: seq<nat>)
    ensures var a, b := Metrics(metric, rows, size, combo), Metrics(Rescaled(metric, g), rows, size, combo);
            if a.Some? then b == Some(MapSeq(g, a.value)) else b.None?
  {
    if |rows| > 0 {
      RescaledMetrics(metric, g, rows[..|rows| - 1], size, combo);
      var a, b := Metrics(metric, rows, size, combo), Metrics(Rescaled(metric, g), rows, size, combo);
      if a.Some? {
        assert b.value == MapSeq(g, a.value);
      }
    }
  }

  lemma RescaledArgmax(g: real -> real, vs: seq<real>, i: nat)
    requires Increasing(g) && IsArgmax(vs, i)
    ensures IsArgmax(MapSeq(g, vs), i)
  {
  }

  lemma {:induction false} RescaledCounts(g: real -> real, vs: seq<real>, x: real)
    requires Increasing(g)
    ensures CountBelow(MapSeq(g, vs), g(x)) == CountBelow(vs, x) && CountEqual(MapSeq(g, vs), g(x)) == CountEqual(vs, x)
  {
    if |vs| > 0 {
      RescaledCounts(g, vs[1..], x);
      assert MapSeq(g, vs)[1..] == MapSeq(g, vs[1..]);
    }
  }

  lemma RescaledWinner(g: real -> real, a: seq<real>, b: seq<real>)
    requires Increasing(g) && 0 < |a| == |b|
    ensures RelativeRank(MapSeq(g, b), WinnerOf(MapSeq(g, a))) == RelativeRank(b, WinnerOf(a))
  {
    var i := WinnerOf(a);
    SameWinner(g, a);
    RescaledCounts(g, b, b[i]);
    assert CountBelow(MapSeq(g, b), MapSeq(g, b)[i]) == CountBelow(b, b[i]);
    assert CountEqual(MapSeq(g, b), MapSeq(g, b)[i]) == CountEqual(b, b[i]);
  }

  lemma SameWinner(g: real -> real, a: seq<real>)
    requires Increasing(g) && |a| > 0
    ensures WinnerOf(MapSeq(g, a)) == WinnerOf(a)
  {
    RescaledArgmax(g, a, WinnerOf(a));
    ArgmaxUnique(MapSeq(g, a), WinnerOf(a), WinnerOf(MapSeq(g, a)));
  }

  lemma RescaledRank(metric: Metric, g: real -> real, rows: seq<seq<real>>, size: nat, n: nat, combo: seq<nat>)
    requires Increasing(g)
    ensures SplitRank(Rescaled(metric, g), rows, size, n)(combo) == SplitRank(metric, rows, size, n)(combo)
  {
    RescaledMetrics(metric, g, rows, size, combo);
    RescaledMetrics(metric, g, rows, size, Complement(n, combo));
    RescaledWinnerRank(g, Metrics(metric, rows, size, combo), Metrics(metric, rows, size, Complement(n, combo)),
                       Metrics(Rescaled(metric, g), rows, size, combo), Metrics(Rescaled(metric, g), rows, size, Complement(n, combo)));
  }

  lemma RescaledWinnerRank(g: real -> real, a: Option<seq<real>>, b: Option<seq<real>>, c: Option<seq<real>>, d: Option<seq<real>>)
    requires Increasing(g)
    requires if a.Some? then c == Some(MapSeq(g, a.value)) else c.None?
    requires if b.Some? then d == Some(MapSeq(g, b.value)) else d.None?
    ensures WinnerRank(c, d) == WinnerRank(a, b)
  {
    if a.Some? && b.Some? && 0 < |a.value| == |b.value| {
      RescaledWinner(g, a.value, b.value);
    }
  }

  lemma {:induction false} SameRanks(rank: seq<nat> -> Option<real>, other: seq<nat> -> Option<real>, combos: seq<seq<nat>>)
    requires forall combo | combo in combos :: rank(combo) == other(combo)
    ensures Ranks(rank, combos) == Ranks(other, combos)
  {
    if |combos| > 0 {
      SameRanks(rank, other, combos[..|combos| - 1]);
    }
  }

  /** A strictly increasing change of the metric, such as annualising, changes no rank and so not the
    * probability of overfitting. */
  lemma OnlyOrderMatters(p: Pbo, q: Pbo, metric: Metric, g: real -> real, rows: seq<seq<real>>, nSegments: int)
    requires Increasing(g) && IsPbo(p, metric, rows, nSegments) && IsPbo(q, Rescaled(metric, g), rows, nSegments)
    ensures p == q
  {
    RescaledAllRanks(metric, g, rows, nSegments);
  }

  lemma RescaledAllRanks(metric: Metric, g: real -> real, rows: seq<seq<real>>, nSegments: nat)
    requires Increasing(g) && |rows| > 0 && nSegments > 0
    ensures AllRanks(Rescaled(metric, g), rows, nSegments) == AllRanks(metric, rows, nSegments)
  {
    var size := SegmentSize(|rows[0]|, nSegments);
    var combos := Combos(0, nSegments, nSegments / 2);
    var rank, other := SplitRank(Rescaled(metric, g), rows, size, nSegments), SplitRank(metric, rows, size, nSegments);
    forall combo | combo in combos ensures rank(combo) == other(combo) {
      RescaledRank(metric, g, rows, size, nSegments, combo);
    }
    SameRanks(rank, other, combos);
  }

  // ---------------------------------------------------------------------------------------------
  // Bounds and the degenerate case
  // ---------------------------------------------------------------------------------------------

  lemma PboIsAProbability(p: Pbo, metric: Metric, rows: seq<seq<real>>, nSegments: int)
    requires IsPbo(p, metric, rows, nSegments)
    ensures 0.0 <= p.pbo <= 1.0
  {
    ShareBounds(Overfit(p.ranks) as real, |p.ranks| as real);
  }

  lemma ShareBounds(a: real, b: real)
    requires 0.0 <= a <= b && b > 0.0
    ensures 0.0 <= a / b <= 1.0
  {
    DivideBelow(a, b, 0.0);
    var share := a / b;
    assert share * b == a;
    if share > 1.0 {
      MulOrder(1.0, share, b);
    }
  }

  lemma {:induction false} AllEqualCounts(vs: seq<real>, x: real)
    requires forall i | 0 <= i < |vs| :: vs[i] == x
    ensures CountBelow(vs, x) == 0 && CountAbove(vs, x) == 0
  {
    if |vs| > 0 {
      AllEqualCounts(vs[1..], x);
    }
  }

  /** A rank that is not counted, or no rank. */
  predicate NotOverfit(rank: Option<real>) {
    rank.Some? ==> Odds(rank.value) >= 1.0
  }

  lemma EqualMetrics(inSample: Option<seq<real>>, outOfSample: Option<seq<real>>)
    requires outOfSample.Some? ==> forall m | 0 <= m < |outOfSample.value| :: outOfSample.value[m] == outOfSample.value[0]
    ensures NotOverfit(WinnerRank(inSample, outOfSample))
  {
    if inSample.Some? && outOfSample.Some? && 0 < |inSample.value| == |outOfSample.value| {
      var i := WinnerOf(inSample.value);
      AllEqualCounts(outOfSample.value, outOfSample.value[i]);
      BelowMedian(outOfSample.value, i);
    }
  }

  /** Identical strategies: the winner sits at the median of every split. */
  lemma IdenticalSplit(metric: Metric, rows: seq<seq<real>>, size: nat, n: nat, combo: seq<nat>)
    requires forall m | 0 <= m < |rows| :: rows[m] == rows[0]
    ensures NotOverfit(SplitRank(metric, rows, size, n)(combo))
  {
    EqualMetrics(Metrics(metric, rows, size, combo), Metrics(metric, rows, size, Complement(n, combo)));
  }

  lemma NotCounted(rank: Option<real>)
    requires NotOverfit(rank)
    ensures Overfit(AsSeq(rank)) == 0
  {
  }

  lemma {:induction false} NoneOverfit(rank: seq<nat> -> Option<real>, combos: seq<seq<nat>>)
    requires forall combo | combo in combos :: NotOverfit(rank(combo))
    ensures Overfit(Ranks(rank, combos)) == 0
  {
    if |combos| > 0 {
      var last := |combos| - 1;
      NoneOverfit(rank, combos[..last]);
      OverfitAppend(Ranks(rank, combos[..last]), AsSeq(rank(combos[last])));
      NotCounted(rank(combos[last]));
    }
  }

  lemma {:induction false} OverfitAppend(a: seq<real>, b: seq<real>)
    ensures Overfit(a + b) == Overfit(a) + Overfit(b)
  {
    if |a| == 0 {
      assert a + b == b;
    } else {
      OverfitAppend(a[1..], b);
      assert (a + b)[1..] == a[1..] + b;
    }
  }

  lemma IdenticalRanks(metric: Metric, rows: seq<seq<real>>, size: nat, n: nat, combos: seq<seq<nat>>)
    requires forall m | 0 <= m < |rows| :: rows[m] == rows[0]
    ensures Overfit(Ranks(SplitRank(metric, rows, size, n), combos)) == 0
  {
    forall combo | combo in combos ensures NotOverfit(SplitRank(metric, rows, size, n)(combo)) {
      IdenticalSplit(metric, rows, size, n, combo);
    }
    NoneOverfit(SplitRank(metric, rows, size, n), combos);
  }

  lemma IdenticalAllRanks(metric: Metric, rows: seq<seq<real>>, nSegments: nat)
    requires |rows| > 0 && nSegments > 0 && forall m | 0 <= m < |rows| :: rows[m] == rows[0]
    ensures Overfit(AllRanks(metric, rows, nSegments)) == 0
  {
    IdenticalRanks(metric, rows, SegmentSize(|rows[0]|, nSegments), nSegments, Combos(0, nSegments, nSegments / 2));
  }

  /** So identical strategies give a probability of zero, not one half. */
  lemma IdenticalGiveZero(p: Pbo, metric: Metric, rows: seq<seq<real>>, nSegments: int)
    requires IsPbo(p, metric, rows, nSegments) && forall m | 0 <= m < |rows| :: rows[m] == rows[0]
    ensures p.pbo == 0.0
  {
    IdenticalAllRanks(metric, rows, nSegments);
    ZeroShare(|p.ranks|);
  }

  lemma ZeroShare(n: nat)
    requires n > 0
    ensures Share(0, n) == 0.0
  {
  }

  // ---------------------------------------------------------------------------------------------
  // What the probability counts
  // ---------------------------------------------------------------------------------------------

  /** Every strategy's metric over the chosen segments. */
  ghost predicate Measured(metric: Metric, rows: seq<seq<real>>, size: nat, combo: seq<nat>, values: seq<real>) {
    |values| == |rows| && forall m | 0 <= m < |rows| :: metric(Pooled(rows[m], size, combo)) == Some(values[m])
  }

  /** The first best strategy over the chosen segments is beaten by more strategies over the others than it beats. */
  ghost predicate LosesOutside(metric: Metric, rows: seq<seq<real>>, size: nat, combo: seq<nat>, rest: seq<nat>) {
    exists inside: seq<real>, outside: seq<real>, best: nat ::
      && Measured(metric, rows, size, combo, inside) && Measured(metric, rows, size, rest, outside)
      && IsArgmax(inside, best) && CountBelow(outside, outside[best]) < CountAbove(outside, outside[best])
  }

  ghost function CountLosing(metric: Metric, rows: seq<seq<real>>, size: nat, n: nat, combos: seq<seq<nat>>): nat {
    if |combos| == 0 then 0
    else
      var combo := combos[|combos| - 1];
      CountLosing(metric, rows, size, n, combos[..|combos| - 1]) + Losing(metric, rows, size, n, combo)
  }

  ghost function Losing(metric: Metric, rows: seq<seq<real>>, size: nat, n: nat, combo: seq<nat>): nat {
    if LosesOutside(metric, rows, size, combo, Complement(n, combo)) then 1 else 0
  }

  lemma MeasuredOnce(metric: Metric, rows: seq<seq<real>>, size: nat, combo: seq<nat>, x: seq<real>, y: seq<real>)
    requires Measured(metric, rows, size, combo, x) && Measured(metric, rows, size, combo, y)
    ensures x == y
  {
    forall m | 0 <= m < |rows| ensures x[m] == y[m] {
      assert metric(Pooled(rows[m], size, combo)) == Some(x[m]) && metric(Pooled(rows[m], size, combo)) == Some(y[m]);
    }
  }

  lemma MetricsMeasure(metric: Metric, rows: seq<seq<real>>, size: nat, combo: seq<nat>, values: seq<real>)
    ensures Measured(metric, rows, size, combo, values) <==> Metrics(metric, rows, size, combo) == Some(values)
  {
    if Measured(metric, rows, size, combo, values) {
      assert Metrics(metric, rows, size, combo).Some?;
      MeasuredOnce(metric, rows, size, combo, values, Metrics(metric, rows, size, combo).value);
    }
  }

  /** A split counts exactly when its winner loses on the segments outside it. */
  lemma SplitCounts(metric: Metric, rows: seq<seq<real>>, size: nat, n: nat, combo: seq<nat>)
    requires |rows| > 0
    ensures Overfit(AsSeq(SplitRank(metric, rows, size, n)(combo))) == Losing(metric, rows, size, n, combo)
  {
    var rest := Complement(n, combo);
    var inside, outside := Metrics(metric, rows, size, combo), Metrics(metric, rows, size, rest);
    if inside.Some? && outside.Some? {
      var best := WinnerOf(inside.value);
      BelowMedian(outside.value, best);
      LosesIff(metric, rows, size, combo, rest, inside.value, outside.value, best);
      RankAlone(RelativeRank(outside.value, best));
    } else {
      NotMeasured(metric, rows, size, combo, rest);
    }
  }

  lemma RankAlone(w: real)
    ensures Overfit([w]) == if Odds(w) < 1.0 then 1 else 0
  {
    assert [w][1..] == [];
  }

  lemma LosesIff(metric: Metric, rows: seq<seq<real>>, size: nat, combo: seq<nat>, rest: seq<nat>, inside: seq<real>, outside: seq<real>, best: nat)
    requires Metrics(metric, rows, size, combo) == Some(inside) && Metrics(metric, rows, size, rest) == Some(outside) && IsArgmax(inside, best)
    ensures LosesOutside(metric, rows, size, combo, rest) <==> CountBelow(outside, outside[best]) < CountAbove(outside, outside[best])
  {
    MetricsMeasure(metric, rows, size, combo, inside);
    MetricsMeasure(metric, rows, size, rest, outside);
    if LosesOutside(metric, rows, size, combo, rest) {
      var x: seq<real>, y: seq<real>, b: nat :| Measured(metric, rows, size, combo, x) && Measured(metric, rows, size, rest, y)
        && IsArgmax(x, b) && CountBelow(y, y[b]) < CountAbove(y, y[b]);
      MeasuredOnce(metric, rows, size, combo, x, inside);
      MeasuredOnce(metric, rows, size, rest, y, outside);
      ArgmaxUnique(inside, b, best);
    }
  }

  lemma NotMeasured(metric: Metric, rows: seq<seq<real>>, size: nat, combo: seq<nat>, rest: seq<nat>)
    requires Metrics(metric, rows, size, combo).None? || Metrics(metric, rows, size, rest).None?
    ensures !LosesOutside(metric, rows, size, combo, rest)
  {
    forall values ensures Measured(metric, rows, size, combo, values) <==> Metrics(metric, rows, size, combo) == Some(values) {
      MetricsMeasure(metric, rows, size, combo, values);
    }
    forall values ensures Measured(metric, rows, size, rest, values) <==> Metrics(metric, rows, size, rest) == Some(values) {
      MetricsMeasure(metric, rows, size, rest, values);
    }
  }

  lemma OneMoreSplit(rank: seq<nat> -> Option<real>, combos: seq<seq<nat>>)
    requires |combos| > 0
    ensures Overfit(Ranks(rank, combos)) == Overfit(Ranks(rank, combos[..|combos| - 1])) + Overfit(AsSeq(rank(combos[|combos| - 1])))
  {
    OverfitAppend(Ranks(rank, combos[..|combos| - 1]), AsSeq(rank(combos[|combos| - 1])));
  }

  /** `rank` gives a rank below the median to exactly the losing splits. */
  ghost predicate RanksLosing(rank: seq<nat> -> Option<real>, metric: Metric, rows: seq<seq<real>>, size: nat, n: nat) {
    forall combo :: Overfit(AsSeq(rank(combo))) == Losing(metric, rows, size, n, combo)
  }

  lemma SplitsRankLosing(metric: Metric, rows: seq<seq<real>>, size: nat, n: nat)
    requires |rows| > 0
    ensures RanksLosing(SplitRank(metric, rows, size, n), metric, rows, size, n)
  {
    forall combo ensures Overfit(AsSeq(SplitRank(metric, rows, size, n)(combo))) == Losing(metric, rows, size, n, combo) {
      SplitCounts(metric, rows, size, n, combo);
    }
  }

  lemma {:induction false} OverfitCounts(rank: seq<nat> -> Option<real>, metric: Metric, rows: seq<seq<real>>, size: nat, n: nat, combos: seq<seq<nat>>)
    requires RanksLosing(rank, metric, rows, size, n)
    ensures Overfit(Ranks(rank, combos)) == CountLosing(metric, rows, size, n, combos)
  {
    if |combos| > 0 {
      OverfitCounts(rank, metric, rows, size, n, combos[..|combos| - 1]);
      OneMoreSplit(rank, combos);
    }
  }

  lemma PboFacts(p: Pbo, metric: Metric, rows: seq<seq<real>>, nSegments: int)
    requires IsPbo(p, metric, rows, nSegments)
    ensures p.ranks == AllRanks(metric, rows, nSegments) && |p.ranks| > 0 && p.pbo == Share(Overfit(p.ranks), |p.ranks|)
  {
  }

  /** The probability of overfitting is the share, among the splits that could be ranked, of those whose in-sample
    * winner loses outside, over all choices of half of the segments. */
  lemma PboIsShareLosing(p: Pbo, metric: Metric, rows: seq<seq<real>>, nSegments: int, size: nat)
    requires IsPbo(p, metric, rows, nSegments) && size == |rows[0]| / nSegments
    ensures |p.ranks| > 0
    ensures p.pbo == Share(CountLosing(metric, rows, size, nSegments, Combos(0, nSegments, nSegments / 2)), |p.ranks|)
  {
    PboFacts(p, metric, rows, nSegments);
    RanksCount(p.ranks, metric, rows, nSegments, size);
  }

  lemma RanksCount(ranks: seq<real>, metric: Metric, rows: seq<seq<real>>, n: nat, size: nat)
    requires |rows| > 0 && n > 0 && size == SegmentSize(|rows[0]|, n) && ranks == AllRanks(metric, rows, n)
    ensures Overfit(ranks) == CountLosing(metric, rows, size, n, Combos(0, n, n / 2))
  {
    SplitsRankLosing(metric, rows, size, n);
    OverfitCounts(SplitRank(metric, rows, size, n), metric, rows, size, n, Combos(0, n, n / 2));
  }
}
