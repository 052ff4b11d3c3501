/** A built series without a bar on its roll date, and the position it leaves behind. */
module RollGap {
  import opened Wrappers
  import opened Contracts
  import opened Ledger
  import opened Broker
  import opened Backtest
  import opened BacktestTarget
  import opened Sorting
  import opened Continuous
  import opened RollTelescoping
  import opened RollSchedule
  import opened RollRuns

  const ROLL_DAY := 10

  function DayBar(c: Contract, day: int, price: real): Bar {
    Bar(c, 86400 * day, price, price, price, price)
  }

  function FrontBars(front: Contract): seq<Bar> {
    [DayBar(front, 8, 100.0), DayBar(front, 9, 101.0)]
  }

  function BackBars(back: Contract): seq<Bar> {
    [DayBar(back, 11, 120.0), DayBar(back, 12, 121.0)]
  }

  /** Two contracts, the front rolling on day 10, with bars on days 8, 9, 11 and 12. */
  function Gap(front: Contract, back: Contract, root: string): Input {
    Input([front, back], map[front := FrontBars(front), back := BackBars(back)], map[front := ROLL_DAY, back := 100], root)
  }

  function GapRoll(front: Contract, back: Contract): RollEvent {
    RollEvent(ROLL_DAY, front, back, 101.0, 120.0)
  }

  function GapSeries(front: Contract, back: Contract): Series {
    Series(FrontBars(front) + BackBars(back), [GapRoll(front, back)], [false, false, true, false])
  }

  // ---------------------------------------------------------------------------------------------
  // The build
  // ---------------------------------------------------------------------------------------------

  lemma SortedPair<T>(key: T -> int, x: T, y: T)
    requires key(x) <= key(y)
    ensures SortBy(key, [x, y]) == [x, y]
  {
    assert [x, y][..1] == [x] && [x][..0] == [];
    assert SortBy(key, [x]) == [x];
  }

  lemma SelectBoth(x: Bar, y: Bar, start: Option<int>, end: int)
    requires InWindow(Day(x.ts), start, end) && InWindow(Day(y.ts), start, end)
    ensures Select([x, y], start, end) == [x, y]
  {
    assert [x, y][..1] == [x] && [x][..0] == [];
    assert Select([x], start, end) == [x];
  }

  lemma GapChain(front: Contract, back: Contract, root: string)
    requires front != back
    ensures Chain(Gap(front, back, root)) == [front, back]
  {
    var input := Gap(front, back, root);
    assert Present(input, 1) == [front];
    assert Present(input, 2) == [front, back];
    SortedPair(c => input.Target(c), front, back);
  }

  lemma GapWindows(front: Contract, back: Contract, root: string)
    requires front != back
    ensures Splice(Gap(front, back, root), [front, back], 2) == FrontBars(front) + BackBars(back)
  {
    var input := Gap(front, back, root);
    var f, b := FrontBars(front), BackBars(back);
    SelectBoth(f[0], f[1], None, ROLL_DAY);
    SortedPair(Stamp, f[0], f[1]);
    SelectBoth(b[0], b[1], Some(ROLL_DAY), 100);
    SortedPair(Stamp, b[0], b[1]);
    assert Window(input, [front, back], 0) == f;
    assert Window(input, [front, back], 1) == b;
    assert Splice(input, [front, back], 1) == [] + f;
  }

  lemma GapEvent(front: Contract, back: Contract, root: string)
    requires front != back
    ensures MakeRollEvent(Gap(front, back, root), [front, back], front, back) == Success(GapRoll(front, back))
  {
    var f, b := FrontBars(front), BackBars(back);
    assert f[..1] == [f[0]] && f[..1][..0] == [] && b[..1] == [b[0]] && b[..1][..0] == [];
    assert OnOrBefore(f[..1], ROLL_DAY) == Some(f[0]) && OnOrAfter(b[..1], ROLL_DAY) == Some(b[0]);
    assert OnOrBefore(f, ROLL_DAY) == Some(f[1]) && OnOrAfter(b, ROLL_DAY) == Some(b[0]);
  }

  lemma StaysStep(input: Input, chain: seq<Contract>, bars: seq<Bar>, n: nat, flags: seq<bool>, events: seq<RollEvent>)
    requires 2 <= n <= |bars| && Rolls(input, chain, bars, n - 1) == Success((flags, events)) && bars[n - 1].contract == bars[n - 2].contract
    ensures Rolls(input, chain, bars, n) == Success((flags + [false], events))
  {
  }

  lemma ChangesStep(input: Input, chain: seq<Contract>, bars: seq<Bar>, n: nat, flags: seq<bool>, events: seq<RollEvent>, e: RollEvent)
    requires 2 <= n <= |bars| && Rolls(input, chain, bars, n - 1) == Success((flags, events)) && bars[n - 1].contract != bars[n - 2].contract
    requires MakeRollEvent(input, chain, bars[n - 2].contract, bars[n - 1].contract) == Success(e)
    ensures Rolls(input, chain, bars, n) == Success((flags + [true], events + [e]))
  {
  }

  lemma GapRolls(front: Contract, back: Contract, root: string)
    requires front != back
    ensures Rolls(Gap(front, back, root), [front, back], FrontBars(front) + BackBars(back), 4)
            == Success(([false] + [false] + [true] + [false], [] + [GapRoll(front, back)]))
  {
    var input, chain, bars := Gap(front, back, root), [front, back], FrontBars(front) + BackBars(back);
    var e := GapRoll(front, back);
    GapEvent(front, back, root);
    StaysStep(input, chain, bars, 2, [false], []);
    ChangesStep(input, chain, bars, 3, [false] + [false], [], e);
    StaysStep(input, chain, bars, 4, [false] + [false] + [true], [] + [e]);
  }

  lemma OneFlag()
    ensures CountTrue([false] + [false] + [true] + [false]) == 1
  {
    assert [] + [false] == [false];
    CountTrueAppend([], false);
    CountTrueAppend([false], false);
    CountTrueAppend([false] + [false], true);
    CountTrueAppend([false] + [false] + [true], false);
  }

  lemma GapClean(front: Contract, back: Contract, root: string)
    requires front != back
    ensures Clean(Gap(front, back, root))
  {
  }

  lemma GapAllowed(front: Contract, back: Contract, root: string)
    requires front != back && root <= front && root <= back
    ensures Refusal(Gap(front, back, root)).None?
  {
    var input := Gap(front, back, root);
    assert Present(input, 1) == [front];
    assert Present(input, 2) == [front, back];
  }

  lemma GapAssembles(front: Contract, back: Contract, root: string)
    requires front != back
    ensures Assemble(Gap(front, back, root), [front, back], FrontBars(front) + BackBars(back)) == Success(GapSeries(front, back))
  {
    GapRolls(front, back, root);
    OneFlag();
    assert [false] + [false] + [true] + [false] == [false, false, true, false];
    assert [] + [GapRoll(front, back)] == [GapRoll(front, back)];
  }

  /** The series builds, and its one change of contract comes a day after the roll date. */
  lemma GapBuilds(front: Contract, back: Contract, root: string)
    requires front != back && root <= front && root <= back
    ensures Clean(Gap(front, back, root)) && BuildSpec(Gap(front, back, root)) == Success(GapSeries(front, back))
    ensures !BarOnEachRollDate(Gap(front, back, root), GapSeries(front, back).bars, 0)
  {
    GapClean(front, back, root);
    GapAllowed(front, back, root);
    GapChain(front, back, root);
    GapWindows(front, back, root);
    GapAssembles(front, back, root);
    GapMisses(front, back, root);
  }

  lemma GapMisses(front: Contract, back: Contract, root: string)
    requires front != back
    ensures !BarOnEachRollDate(Gap(front, back, root), GapSeries(front, back).bars, 0)
  {
    var bars := GapSeries(front, back).bars;
    assert bars[2].contract != bars[1].contract && Day(bars[2].ts) == 11;
  }

  // ---------------------------------------------------------------------------------------------
  // The run
  // ---------------------------------------------------------------------------------------------

  /** A silent bar without a roll of the held contract succeeds and trades nothing. */
  lemma SilentStep(cfg: Config, s: EngineState, bar: Bar, held: Contract, quantity: int)
    requires Holding(s.account, held, quantity) && Unmatched(cfg.rolls, Day(bar.ts), held) && QuietAfter(cfg, |s.history|)
    requires MultiplierFor(held).Some?
    ensures BarStep(cfg, s, bar).Success? && BarStep(cfg, s, bar).value.account == s.account
    ensures BarStep(cfg, s, bar).value.history == s.history + [bar]
  {
    FilledStay(s.account, |s.account.orders|, bar, cfg.slip);
    var t := Trade(cfg, s, bar).value;
    forall c | c in t.account.book.positions && t.account.book.positions[c].quantity != 0 ensures MultiplierFor(c).Some? {
      assert Quantity(t.account.book, c) != 0;
    }
  }

  /** The run stands where it began, but for the bars seen. */
  ghost predicate Untouched(cfg: Config, a: Account, bars: seq<Bar>)
    requires Shaped(a)
  {
    RunBars(cfg, a, bars).Success? && RunBars(cfg, a, bars).value.account == a && RunBars(cfg, a, bars).value.history == bars
  }

  lemma SilentLast(cfg: Config, a: Account, bars: seq<Bar>, held: Contract, quantity: int)
    requires |bars| > 0 && Holding(a, held, quantity) && QuietAfter(cfg, 0) && MultiplierFor(held).Some?
    requires Untouched(cfg, a, bars[..|bars| - 1]) && Unmatched(cfg.rolls, Day(bars[|bars| - 1].ts), held)
    ensures Untouched(cfg, a, bars)
  {
    var t, bar := bars[..|bars| - 1], bars[|bars| - 1];
    var s := RunBars(cfg, a, t).value;
    assert t + [bar] == bars;
    SilentStep(cfg, s, bar, held, quantity);
  }

  lemma {:induction false} SilentRun(cfg: Config, a: Account, bars: seq<Bar>, held: Contract, quantity: int)
    requires Holding(a, held, quantity) && QuietAfter(cfg, 0) && MultiplierFor(held).Some?
    requires forall j | 0 <= j < |bars| :: Unmatched(cfg.rolls, Day(bars[j].ts), held)
    ensures Untouched(cfg, a, bars)
  {
    if |bars| > 0 {
      SilentRun(cfg, a, bars[..|bars| - 1], held, quantity);
      SilentLast(cfg, a, bars, held, quantity);
    }
  }

  /** Run on this series with its own roll event, a holder of the front still holds it at the end, two bars
    * into the back contract. */
  lemma GapLeavesBehind(cfg: Config, front: Contract, back: Contract, a: Account, quantity: int)
    requires front != back && Holding(a, front, quantity) && QuietAfter(cfg, 0) && MultiplierFor(front).Some?
    requires cfg.rolls == RollsByDate(GapSeries(front, back).events)
    ensures var bars := GapSeries(front, back).bars;
            && bars[|bars| - 1].contract == back
            && RunBars(cfg, a, bars).Success? && RunBars(cfg, a, bars).value.account == a
            && Quantity(a.book, front) == quantity && Quantity(a.book, back) == 0
  {
    var s := GapSeries(front, back);
    RollsByDateAppend([], GapRoll(front, back));
    assert [] + [GapRoll(front, back)] == s.events;
    forall j | 0 <= j < |s.bars| ensures Unmatched(cfg.rolls, Day(s.bars[j].ts), front) {
      assert Day(s.bars[j].ts) != ROLL_DAY;
    }
    SilentRun(cfg, a, s.bars, front, quantity);
  }
}
