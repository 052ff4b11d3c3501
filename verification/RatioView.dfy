/** The ratio-adjusted research view of a series: `ratio_adjusted_closes` in futur3/data/continuous.py. */
module RatioView {
  import opened Wrappers
  import opened Broker
  import opened Backtest
  import opened Continuous

  predicate Divisible(events: seq<RollEvent>) {
    forall k | 0 <= k < |events| :: events[k].frontSettle != 0.0
  }

  /** Adjustment factor of a segment: the product of the settle ratios of all later rolls. */
  function Factor(events: seq<RollEvent>, segment: nat): real
    requires Divisible(events) && segment <= |events|
    decreases |events| - segment
  {
    if segment == |events| then 1.0
    else Factor(events, segment + 1) * (events[segment].backSettle / events[segment].frontSettle)
  }

  /** How many rolls have happened by bar `i`. */
  function Segment(flags: seq<bool>, i: nat): nat
    requires i < |flags|
  {
    CountTrue(flags[..i + 1])
  }

  /** A record whose own checks passed. */
  predicate Sound(s: Series) {
    |s.flags| == |s.bars| && CountTrue(s.flags) == |s.events|
  }

  lemma {:induction false} SegmentBound(flags: seq<bool>, i: nat)
    requires i <= |flags|
    ensures CountTrue(flags[..i]) <= CountTrue(flags)
  {
    if i < |flags| {
      var n := |flags| - 1;
      assert flags[..n][..i] == flags[..i];
      SegmentBound(flags[..n], i);
    } else {
      assert flags[..i] == flags;
    }
  }

  lemma SegmentStep(flags: seq<bool>, i: nat)
    requires i < |flags|
    ensures CountTrue(flags[..i + 1]) == CountTrue(flags[..i]) + if flags[i] then 1 else 0
    ensures CountTrue(flags[..i + 1]) <= CountTrue(flags)
  {
    assert flags[..i + 1][..i] == flags[..i];
    SegmentBound(flags, i + 1);
  }

  /** Every adjusted close is the raw close times its segment's factor. */
  ghost predicate Adjusted(s: Series, adjusted: seq<real>)
    requires Sound(s) && Divisible(s.events)
  {
    |adjusted| == |s.bars| && forall i | 0 <= i < |s.bars| :: AdjustedAt(s, adjusted[i], i)
  }

  ghost predicate AdjustedAt(s: Series, x: real, i: nat)
    requires Sound(s) && Divisible(s.events) && i < |s.bars|
  {
    SegmentBound(s.flags, i + 1);
    x == s.bars[i].close * Factor(s.events, Segment(s.flags, i))
  }

  method SegmentFactors(events: seq<RollEvent>) returns (r: Result<seq<real>, Error>)
    ensures !Divisible(events) ==> r == Failure(ZeroSettle)
    ensures Divisible(events) ==> r.Success? && |r.value| == |events| + 1 && forall j | 0 <= j <= |events| :: r.value[j] == Factor(events, j)
  {
    var ratios := [];
    for k := 0 to |events|
      invariant |ratios| == k
      invariant forall j | 0 <= j < k :: events[j].frontSettle != 0.0 && ratios[j] == events[j].backSettle / events[j].frontSettle
    {
      if events[k].frontSettle == 0.0 {
        return Failure(ZeroSettle);
      }
      ratios := ratios + [events[k].backSettle / events[k].frontSettle];
    }
    var factors := seq(|events| + 1, _ => 1.0);
    for segment := |events| downto 0
      invariant |factors| == |events| + 1
      invariant forall j | segment <= j <= |events| :: factors[j] == Factor(events, j)
    {
      factors := factors[segment := factors[segment + 1] * ratios[segment]];
    }
    r := Success(factors);
  }

  method RatioAdjustedCloses(s: Series) returns (r: Result<seq<real>, Error>)
    requires Sound(s)
    ensures !Divisible(s.events) ==> r == Failure(ZeroSettle)
    ensures Divisible(s.events) ==> r.Success? && Adjusted(s, r.value)
  {
    var factors := SegmentFactors(s.events);
    if factors.Failure? {
      return Failure(factors.error);
    }
    var adjusted, segment := [], 0;
    for i := 0 to |s.bars|
      invariant |adjusted| == i && segment == CountTrue(s.flags[..i]) <= |s.events|
      invariant forall j | 0 <= j < i :: AdjustedAt(s, adjusted[j], j)
    {
      SegmentStep(s.flags, i);
      if s.flags[i] {
        segment := segment + 1;
      }
      adjusted := adjusted + [s.bars[i].close * factors.value[segment]];
    }
    r := Success(adjusted);
  }

  /** Across a roll the adjusted settles meet. */
  lemma ContinuousAcrossRoll(events: seq<RollEvent>, k: nat)
    requires Divisible(events) && k < |events|
    ensures events[k].frontSettle * Factor(events, k) == events[k].backSettle * Factor(events, k + 1)
  {
    CancelRatio(events[k].frontSettle, events[k].backSettle, Factor(events, k + 1));
  }

  lemma CancelRatio(front: real, back: real, f: real)
    requires front != 0.0
    ensures front * (f * (back / front)) == back * f
  {
    var q := back / front;
    assert q * front == back;
    assert front * (f * q) == f * (q * front);
  }

  /** Between two bars with no roll in between, the view keeps the ratio of the closes. */
  lemma KeepsReturns(s: Series, adjusted: seq<real>, i: nat, j: nat)
    requires Sound(s) && Divisible(s.events) && i <= j < |s.bars| && Adjusted(s, adjusted)
    requires forall k | i < k <= j :: !s.flags[k]
    ensures adjusted[i] * s.bars[j].close == adjusted[j] * s.bars[i].close
  {
    assert AdjustedAt(s, adjusted[i], i) && AdjustedAt(s, adjusted[j], j);
    SameSegment(s.flags, i, j);
    SegmentBound(s.flags, i + 1);
    CrossMultiply(s.bars[i].close, s.bars[j].close, Factor(s.events, Segment(s.flags, i)));
  }

  lemma CrossMultiply(x: real, y: real, f: real)
    ensures (x * f) * y == (y * f) * x
  {
  }

  lemma {:induction false} SameSegment(flags: seq<bool>, i: nat, j: nat)
    requires i <= j < |flags| && forall k | i < k <= j :: !flags[k]
    ensures Segment(flags, i) == Segment(flags, j)
  {
    if i < j {
      SameSegment(flags, i, j - 1);
      assert flags[..j + 1][..j] == flags[..j];
    }
  }
}
