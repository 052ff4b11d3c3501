/** A built series carries a held position through its rolls exactly when it has a bar on each roll date. */
module RollSchedule {
  import opened Wrappers
  import opened Contracts
  import opened Ledger
  import opened Broker
  import opened Backtest
  import opened Sorting
  import opened Continuous
  import opened RollTelescoping

  /** The engine's roll table: events keyed by date, the last of several on one date winning. */
  function RollsByDate(events: seq<RollEvent>): map<int, RollEvent> {
    if |events| == 0 then map[]
    else RollsByDate(events[..|events| - 1])[events[|events| - 1].rollDate := events[|events| - 1]]
  }

  lemma RollsByDateAppend(events: seq<RollEvent>, e: RollEvent)
    ensures RollsByDate(events + [e]) == RollsByDate(events)[e.rollDate := e]
  {
    assert (events + [e])[..|events|] == events;
  }

  /** The table after the first `n` bars: every key is its event's front target and already past, and
    * every change of contract so far has its event. */
  ghost predicate Scheduled(input: Input, bars: seq<Bar>, n: nat, rolls: map<int, RollEvent>)
    requires 1 <= n <= |bars|
  {
    && (forall d | d in rolls :: d == input.Target(rolls[d].front) && d < input.Target(bars[n - 1].contract))
    && (forall p | 1 <= p < n && bars[p].contract != bars[p - 1].contract :: HasEvent(input, bars[p - 1], bars[p], rolls))
  }

  /** The table holds the roll from `last`'s contract into `first`'s, struck at the listed settles. */
  ghost predicate HasEvent(input: Input, last: Bar, first: Bar, rolls: map<int, RollEvent>) {
    var d := input.Target(last.contract);
    && d in rolls && rolls[d].front == last.contract && rolls[d].back == first.contract
    && OnOrAfter(input.BarsOf(first.contract), d).Some?
    && rolls[d].backSettle == OnOrAfter(input.BarsOf(first.contract), d).value.close
  }

  lemma {:induction false} RollsScheduled(input: Input, chain: seq<Contract>, bars: seq<Bar>, owners: seq<nat>, n: nat)
    requires ChainOrdered(input, chain) && WellOwned(input, chain, bars, owners) && 1 <= n <= |bars|
    requires Rolls(input, chain, bars, n).Success?
    ensures Scheduled(input, bars, n, RollsByDate(Rolls(input, chain, bars, n).value.1))
  {
    if n > 1 {
      RollsScheduled(input, chain, bars, owners, n - 1);
      var events := Rolls(input, chain, bars, n - 1).value.1;
      var more := RollsLast(input, chain, bars, n);
      if bars[n - 1].contract != bars[n - 2].contract {
        RollsByDateAppend(events, more[0]);
        EventScheduled(input, chain, bars, owners, n, RollsByDate(events), more[0]);
      } else {
        ScheduleStays(input, bars, n, RollsByDate(events));
      }
    }
  }

  lemma ScheduleStays(input: Input, bars: seq<Bar>, n: nat, rolls: map<int, RollEvent>)
    requires 2 <= n <= |bars| && Scheduled(input, bars, n - 1, rolls) && bars[n - 1].contract == bars[n - 2].contract
    ensures Scheduled(input, bars, n, rolls)
  {
  }

  lemma EventScheduled(input: Input, chain: seq<Contract>, bars: seq<Bar>, owners: seq<nat>, n: nat, rolls: map<int, RollEvent>, e: RollEvent)
    requires ChainOrdered(input, chain) && WellOwned(input, chain, bars, owners)
    requires 2 <= n <= |bars| && Scheduled(input, bars, n - 1, rolls) && bars[n - 1].contract != bars[n - 2].contract
    requires MakeRollEvent(input, chain, bars[n - 2].contract, bars[n - 1].contract) == Success(e)
    ensures Scheduled(input, bars, n, rolls[e.rollDate := e])
  {
    Neighbours(input, chain, bars, owners, n - 1);
    ScheduleGrows(input, bars, n, rolls, e);
  }

  lemma ScheduleGrows(input: Input, bars: seq<Bar>, n: nat, rolls: map<int, RollEvent>, e: RollEvent)
    requires 2 <= n <= |bars| && Scheduled(input, bars, n - 1, rolls)
    requires e.rollDate == input.Target(bars[n - 2].contract) && e.front == bars[n - 2].contract && e.back == bars[n - 1].contract
    requires input.Target(bars[n - 2].contract) < input.Target(bars[n - 1].contract)
    requires HasEvent(input, bars[n - 2], bars[n - 1], rolls[e.rollDate := e])
    ensures Scheduled(input, bars, n, rolls[e.rollDate := e])
  {
    var grown := rolls[e.rollDate := e];
    forall p | 1 <= p < n && bars[p].contract != bars[p - 1].contract ensures HasEvent(input, bars[p - 1], bars[p], grown) {
      if p < n - 1 {
        assert HasEvent(input, bars[p - 1], bars[p], rolls);
      }
    }
  }

  /** Every change of contract after bar `from` happens on a bar dated on the front's roll target. */
  ghost predicate BarOnEachRollDate(input: Input, bars: seq<Bar>, from: nat) {
    forall j | from < j < |bars| && bars[j].contract != bars[j - 1].contract :: Day(bars[j].ts) == input.Target(bars[j - 1].contract)
  }

  ghost predicate SameMultiplier(bars: seq<Bar>) {
    forall j | 0 < j < |bars| :: Mult(bars[j - 1].contract) == Mult(bars[j].contract)
  }

  /** The roll table carries a holder through every change of contract of a built series if and only if
    * the series has a bar on each of its roll dates. */
  lemma BuiltSeriesCovered(input: Input, e: nat)
    requires Clean(input) && BuildSpec(input).Success? && SameMultiplier(BuildSpec(input).value.bars) && e < |BuildSpec(input).value.bars|
    ensures var s := BuildSpec(input).value;
            Covered(RollsByDate(s.events), s.bars, e) <==> BarOnEachRollDate(input, s.bars, e)
  {
    var s := BuildSpec(input).value;
    var owners := BuiltScheduled(input, s);
    CoveredExactly(input, Chain(input), s.bars, owners, RollsByDate(s.events), e);
  }

  /** The built series' bars are owned along its chain and its events scheduled. */
  lemma BuiltScheduled(input: Input, s: Series) returns (owners: seq<nat>)
    requires Clean(input) && BuildSpec(input) == Success(s)
    ensures |s.bars| > 0 && WellOwned(input, Chain(input), s.bars, owners)
    ensures Scheduled(input, s.bars, |s.bars|, RollsByDate(s.events))
  {
    ChainFacts(input);
    SplicedBuilds(input);
    owners := SplicedOwned(input, Chain(input));
    RollsScheduled(input, Chain(input), s.bars, owners, |s.bars|);
  }

  lemma CoveredExactly(input: Input, chain: seq<Contract>, bars: seq<Bar>, owners: seq<nat>, rolls: map<int, RollEvent>, e: nat)
    requires e < |bars| && WellOwned(input, chain, bars, owners) && Scheduled(input, bars, |bars|, rolls) && SameMultiplier(bars)
    ensures Covered(rolls, bars, e) <==> BarOnEachRollDate(input, bars, e)
  {
    forall j | 0 < j < |bars|
      ensures Carries(rolls, Day(bars[j].ts), bars[j - 1].contract, bars[j].contract)
              <==> (bars[j].contract != bars[j - 1].contract ==> Day(bars[j].ts) == input.Target(bars[j - 1].contract))
    {
      assert Owned(input, chain, bars[j], owners[j]);
      CarriesExactly(input, bars, rolls, j);
    }
  }

  lemma CarriesExactly(input: Input, bars: seq<Bar>, rolls: map<int, RollEvent>, j: nat)
    requires 0 < j < |bars| && Scheduled(input, bars, |bars|, rolls)
    requires Day(bars[j].ts) < input.Target(bars[j].contract)
    ensures Carries(rolls, Day(bars[j].ts), bars[j - 1].contract, bars[j].contract)
            <==> (bars[j].contract != bars[j - 1].contract ==> Day(bars[j].ts) == input.Target(bars[j - 1].contract))
  {
    if bars[j].contract != bars[j - 1].contract {
      assert HasEvent(input, bars[j - 1], bars[j], rolls);
    }
  }

  function DayOf(b: Bar): int {
    Day(b.ts)
  }

  /** One bar a day per contract. */
  ghost predicate Daily(input: Input) {
    forall c | c in input.bars :: DistinctKeys(DayOf, input.bars[c])
  }

  /** On daily data the back settle of a roll is the close of the bar that starts the new contract,
    * so on that bar the roll adds nothing beyond the front's own last move. */
  lemma BackSettleIsTheClose(input: Input, j: nat)
    requires Clean(input) && Daily(input) && BuildSpec(input).Success?
    requires var bars := BuildSpec(input).value.bars;
             && 0 < j < |bars| && bars[j].contract != bars[j - 1].contract
             && Day(bars[j].ts) == input.Target(bars[j - 1].contract)
    ensures var s := BuildSpec(input).value;
            && Day(s.bars[j].ts) in RollsByDate(s.events)
            && RollsByDate(s.events)[Day(s.bars[j].ts)].backSettle == s.bars[j].close
  {
    var s := BuildSpec(input).value;
    var owners := BuiltScheduled(input, s);
    assert Owned(input, Chain(input), s.bars[j], owners[j]);
    assert HasEvent(input, s.bars[j - 1], s.bars[j], RollsByDate(s.events));
    SettleIsClose(input, s.bars[j - 1], s.bars[j], RollsByDate(s.events));
  }

  lemma SettleIsClose(input: Input, last: Bar, first: Bar, rolls: map<int, RollEvent>)
    requires Daily(input) && first in input.BarsOf(first.contract) && HasEvent(input, last, first, rolls)
    requires Day(first.ts) == input.Target(last.contract)
    ensures rolls[Day(first.ts)].backSettle == first.close
  {
    var bars, d := input.BarsOf(first.contract), Day(first.ts);
    AfterFound(bars, d, first);
    SameDaySameBar(bars, OnOrAfter(bars, d).value, first);
  }

  lemma SameDaySameBar(bars: seq<Bar>, x: Bar, y: Bar)
    requires x in bars && y in bars && DayOf(x) == DayOf(y) && DistinctKeys(DayOf, bars)
    ensures x == y
  {
    var i :| 0 <= i < |bars| && bars[i] == x;
    var k :| 0 <= k < |bars| && bars[k] == y;
    assert i == k;
  }

  /** The engine run on a built series with its own roll events: once the run holds `quantity`, every
    * later curve point is the earlier one plus quantity times multiplier times the move of the
    * stream's close, less the roll costs booked since. */
  lemma BuiltSeriesTelescopes(cfg: Config, input: Input, s: Series, a: Account, e: nat, quantity: int)
    requires Clean(input) && BuildSpec(input) == Success(s) && BarOnEachRollDate(input, s.bars, e) && SameMultiplier(s.bars)
    requires cfg.rolls == RollsByDate(s.events)
    requires Accounted(a) && e < |s.bars| && NonePlaced(cfg, a, s.bars, e)
    requires Holding(RunBars(cfg, a, s.bars[..e + 1]).value.account, s.bars[e].contract, quantity)
    ensures MovesWithClose(s.bars, e, quantity, RunBars(cfg, a, s.bars[..e + 1]).value, RunBars(cfg, a, s.bars).value)
  {
    BuiltSeriesCovered(input, e);
    assert Covered(cfg.rolls, s.bars, e);
    Telescopes(cfg, a, s.bars, e, quantity);
  }
}
