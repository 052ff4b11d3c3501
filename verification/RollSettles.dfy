/** The two prices of every roll event, from the input's own bars. */
module RollSettles {
  import opened Wrappers
  import opened Contracts
  import opened Backtest
  import opened Broker
  import opened Continuous

  /** `bars[i]` is on or before `day`, no bar so early is on a later day, and none of its day is listed before it. */
  ghost predicate LastBefore(bars: seq<Bar>, day: int, i: nat) {
    && i < |bars| && Day(bars[i].ts) <= day
    && (forall j | 0 <= j < |bars| && Day(bars[j].ts) <= day :: Day(bars[j].ts) <= Day(bars[i].ts))
    && forall j | 0 <= j < i :: Day(bars[j].ts) != Day(bars[i].ts)
  }

  /** `bars[i]` is on or after `day`, no bar so late is on an earlier day, and none of its day is listed before it. */
  ghost predicate FirstAfter(bars: seq<Bar>, day: int, i: nat) {
    && i < |bars| && Day(bars[i].ts) >= day
    && (forall j | 0 <= j < |bars| && Day(bars[j].ts) >= day :: Day(bars[j].ts) >= Day(bars[i].ts))
    && forall j | 0 <= j < i :: Day(bars[j].ts) != Day(bars[i].ts)
  }

  lemma {:induction false} FindBefore(bars: seq<Bar>, day: int) returns (i: nat)
    ensures OnOrBefore(bars, day).None? <==> forall j | 0 <= j < |bars| :: Day(bars[j].ts) > day
    ensures OnOrBefore(bars, day).Some? ==> LastBefore(bars, day, i) && OnOrBefore(bars, day).value == bars[i]
  {
    i := 0;
    if |bars| > 0 {
      var n := |bars| - 1;
      i := FindBefore(bars[..n], day);
      if OnOrBefore(bars, day) != OnOrBefore(bars[..n], day) {
        i := n;
      }
    }
  }

  lemma {:induction false} FindAfter(bars: seq<Bar>, day: int) returns (i: nat)
    ensures OnOrAfter(bars, day).None? <==> forall j | 0 <= j < |bars| :: Day(bars[j].ts) < day
    ensures OnOrAfter(bars, day).Some? ==> FirstAfter(bars, day, i) && OnOrAfter(bars, day).value == bars[i]
  {
    i := 0;
    if |bars| > 0 {
      var n := |bars| - 1;
      i := FindAfter(bars[..n], day);
      if OnOrAfter(bars, day) != OnOrAfter(bars[..n], day) {
        i := n;
      }
    }
  }

  /** Struck on the front's target: the front at its last close by then, the back at its first close from then. */
  ghost predicate Settles(input: Input, e: RollEvent) {
    && e.rollDate == input.Target(e.front) && e.front != e.back
    && (exists i: nat :: LastBefore(input.BarsOf(e.front), e.rollDate, i) && input.BarsOf(e.front)[i].close == e.frontSettle)
    && (exists i: nat :: FirstAfter(input.BarsOf(e.back), e.rollDate, i) && input.BarsOf(e.back)[i].close == e.backSettle)
  }

  lemma EventSettles(input: Input, chain: seq<Contract>, front: Contract, back: Contract, e: RollEvent)
    requires front != back && MakeRollEvent(input, chain, front, back) == Success(e)
    ensures Settles(input, e)
  {
    var i := FindBefore(input.BarsOf(front), input.Target(front));
    var j := FindAfter(input.BarsOf(back), input.Target(front));
    assert LastBefore(input.BarsOf(front), e.rollDate, i) && FirstAfter(input.BarsOf(back), e.rollDate, j);
  }

  /** A pair without a bar on the side of the roll date that it needs has no event. */
  lemma EventNeedsBars(input: Input, chain: seq<Contract>, front: Contract, back: Contract)
    requires front in chain && back in chain
    ensures MakeRollEvent(input, chain, front, back).Success? <==>
            && (exists j :: 0 <= j < |input.BarsOf(front)| && Day(input.BarsOf(front)[j].ts) <= input.Target(front))
            && (exists j :: 0 <= j < |input.BarsOf(back)| && Day(input.BarsOf(back)[j].ts) >= input.Target(front))
  {
    var _ := FindBefore(input.BarsOf(front), input.Target(front));
    var _ := FindAfter(input.BarsOf(back), input.Target(front));
  }

  lemma {:induction false} RollsSettle(input: Input, chain: seq<Contract>, bars: seq<Bar>, n: nat)
    requires 1 <= n <= |bars| && Rolls(input, chain, bars, n).Success?
    ensures forall e | e in Rolls(input, chain, bars, n).value.1 :: Settles(input, e)
  {
    if n > 1 {
      RollsSettle(input, chain, bars, n - 1);
      if bars[n - 1].contract != bars[n - 2].contract {
        EventSettles(input, chain, bars[n - 2].contract, bars[n - 1].contract,
                     MakeRollEvent(input, chain, bars[n - 2].contract, bars[n - 1].contract).value);
      }
    }
  }

  /** Every event of a built series settles at its two contracts' own closes around the roll date. */
  lemma BuiltEventsSettle(input: Input)
    requires BuildSpec(input).Success?
    ensures forall e | e in BuildSpec(input).value.events :: Settles(input, e)
  {
    var bars := Splice(input, Chain(input), |Chain(input)|);
    RollsSettle(input, Chain(input), bars, |bars|);
  }
}
