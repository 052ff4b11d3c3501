/** What the engine does with a position on a built series, with and without a bar on a roll date. */
module RollRuns {
  import opened Wrappers
  import opened Contracts
  import opened Ledger
  import opened Broker
  import opened Backtest
  import opened BacktestCausality
  import opened BacktestTarget
  import opened Continuous
  import opened RollTelescoping
  import opened RollSchedule

  // ---------------------------------------------------------------------------------------------
  // A bar that does not carry
  // ---------------------------------------------------------------------------------------------

  /** No roll of the held contract is dated on the bar's day. */
  predicate Unmatched(rolls: map<int, RollEvent>, day: int, held: Contract) {
    day in rolls ==> rolls[day].front != held
  }

  /** With nothing open and no matching roll, a bar trades nothing, whatever its contract. */
  lemma TradeLeaves(cfg: Config, s: EngineState, bar: Bar, held: Contract, quantity: int)
    requires Holding(s.account, held, quantity) && Unmatched(cfg.rolls, Day(bar.ts), held) && Trade(cfg, s, bar).Success?
    ensures Trade(cfg, s, bar).value.account == s.account
  {
    FilledStay(s.account, |s.account.orders|, bar, cfg.slip);
  }

  lemma StepLeaves(cfg: Config, s: EngineState, n: EngineState, bar: Bar, held: Contract, quantity: int)
    requires Holding(s.account, held, quantity) && Unmatched(cfg.rolls, Day(bar.ts), held)
    requires BarStep(cfg, s, bar) == Success(n) && n.account.orders == s.account.orders
    ensures n.account == s.account
  {
    TradeLeaves(cfg, s, bar, held, quantity);
  }

  // ---------------------------------------------------------------------------------------------
  // Held through, exactly
  // ---------------------------------------------------------------------------------------------

  /** After bar `k` the run holds `quantity` of that bar's contract and nothing else. */
  ghost predicate HoldingAt(cfg: Config, a: Account, bars: seq<Bar>, k: nat, quantity: int)
    requires Shaped(a) && k < |bars|
  {
    RunBars(cfg, a, bars[..k + 1]).Success? && Holding(RunBars(cfg, a, bars[..k + 1]).value.account, bars[k].contract, quantity)
  }

  ghost predicate HeldThroughout(cfg: Config, a: Account, bars: seq<Bar>, e: nat, quantity: int)
    requires Shaped(a)
  {
    forall k | e <= k < |bars| :: HoldingAt(cfg, a, bars, k, quantity)
  }

  lemma CoveredPrefix(rolls: map<int, RollEvent>, bars: seq<Bar>, e: nat, n: nat)
    requires n <= |bars| && Covered(rolls, bars, e)
    ensures Covered(rolls, bars[..n], e)
  {
    var shorter := bars[..n];
    forall j | e < j < |shorter|
      ensures Carries(rolls, Day(shorter[j].ts), shorter[j - 1].contract, shorter[j].contract) && Mult(shorter[j - 1].contract) == Mult(shorter[j].contract)
    {
      assert shorter[j] == bars[j] && shorter[j - 1] == bars[j - 1];
    }
  }

  lemma HoldingInPrefix(cfg: Config, a: Account, bars: seq<Bar>, e: nat, n: nat, quantity: int)
    requires Shaped(a) && e < n <= |bars|
    ensures HoldingAt(cfg, a, bars[..n], e, quantity) <==> HoldingAt(cfg, a, bars, e, quantity)
  {
    assert bars[..n][..e + 1] == bars[..e + 1];
  }

  lemma CoveredLast(cfg: Config, a: Account, bars: seq<Bar>, e: nat, quantity: int)
    requires Accounted(a) && e < |bars| && NonePlaced(cfg, a, bars, e) && Covered(cfg.rolls, bars, e)
    requires HoldingAt(cfg, a, bars, e, quantity)
    ensures HoldingAt(cfg, a, bars, |bars| - 1, quantity)
  {
    assert bars[..|bars|] == bars;
    HoldsThrough(cfg, a, bars, e, quantity);
  }

  lemma CoveredIsHeld(cfg: Config, a: Account, bars: seq<Bar>, e: nat, k: nat, quantity: int)
    requires Accounted(a) && e <= k < |bars| && NonePlaced(cfg, a, bars, e) && Covered(cfg.rolls, bars, e)
    requires HoldingAt(cfg, a, bars, e, quantity)
    ensures HoldingAt(cfg, a, bars, k, quantity)
  {
    var early := bars[..k + 1];
    NonePlacedBefore(cfg, a, bars, e, k + 1);
    CoveredPrefix(cfg.rolls, bars, e, k + 1);
    HoldingInPrefix(cfg, a, bars, e, k + 1, quantity);
    CoveredLast(cfg, a, early, e, quantity);
    HoldingInPrefix(cfg, a, bars, k, k + 1, quantity);
  }

  /** A last bar on a day without the held contract's roll. */
  lemma LastLeaves(cfg: Config, a: Account, bars: seq<Bar>, held: Contract, quantity: int)
    requires Accounted(a) && |bars| > 1 && NonePlaced(cfg, a, bars, |bars| - 2)
    requires Holding(RunBars(cfg, a, bars[..|bars| - 1]).value.account, held, quantity)
    requires Unmatched(cfg.rolls, Day(bars[|bars| - 1].ts), held)
    ensures Holding(RunBars(cfg, a, bars).value.account, held, quantity)
  {
    var s, n := RunLast(cfg, a, bars);
    StepLeaves(cfg, s, n, bars[|bars| - 1], held, quantity);
  }

  lemma HoldsOne(a: Account, c: Contract, d: Contract, quantity: int)
    requires Holding(a, c, quantity) && c != d
    ensures !Holding(a, d, quantity)
  {
  }

  /** A last bar that changes contract on a day without the held contract's roll leaves the position behind. */
  lemma LastLeftBehind(cfg: Config, a: Account, bars: seq<Bar>, quantity: int)
    requires Accounted(a) && |bars| > 1 && NonePlaced(cfg, a, bars, |bars| - 2)
    requires HoldingAt(cfg, a, bars, |bars| - 2, quantity)
    requires bars[|bars| - 1].contract != bars[|bars| - 2].contract
    requires Unmatched(cfg.rolls, Day(bars[|bars| - 1].ts), bars[|bars| - 2].contract)
    ensures Holding(RunBars(cfg, a, bars).value.account, bars[|bars| - 2].contract, quantity)
    ensures !Holding(RunBars(cfg, a, bars).value.account, bars[|bars| - 1].contract, quantity)
  {
    LastLeaves(cfg, a, bars, bars[|bars| - 2].contract, quantity);
    HoldsOne(RunBars(cfg, a, bars).value.account, bars[|bars| - 2].contract, bars[|bars| - 1].contract, quantity);
  }

  /** On any other day than the front's target, the table of a built series has no roll of the front. */
  lemma OtherDayUnmatched(input: Input, bars: seq<Bar>, rolls: map<int, RollEvent>, day: int, front: Contract)
    requires |bars| > 0 && Scheduled(input, bars, |bars|, rolls)
    ensures day != input.Target(front) ==> Unmatched(rolls, day, front)
  {
  }

  /** Seen up to bar `j`, which changes contract. */
  lemma HeldNeedsBarLast(cfg: Config, a: Account, bars: seq<Bar>, quantity: int)
    requires Accounted(a) && |bars| > 1 && NonePlaced(cfg, a, bars, |bars| - 2)
    requires HoldingAt(cfg, a, bars, |bars| - 2, quantity) && HoldingAt(cfg, a, bars, |bars| - 1, quantity)
    requires bars[|bars| - 1].contract != bars[|bars| - 2].contract
    ensures !Unmatched(cfg.rolls, Day(bars[|bars| - 1].ts), bars[|bars| - 2].contract)
  {
    assert bars[..|bars|] == bars;
    if Unmatched(cfg.rolls, Day(bars[|bars| - 1].ts), bars[|bars| - 2].contract) {
      LastLeftBehind(cfg, a, bars, quantity);
    }
  }

  lemma HeldNeedsBar(cfg: Config, input: Input, a: Account, bars: seq<Bar>, e: nat, j: nat, quantity: int)
    requires Accounted(a) && e < j < |bars| && NonePlaced(cfg, a, bars, e)
    requires Scheduled(input, bars, |bars|, cfg.rolls) && HeldThroughout(cfg, a, bars, e, quantity)
    requires bars[j].contract != bars[j - 1].contract
    ensures Day(bars[j].ts) == input.Target(bars[j - 1].contract)
  {
    HeldUpTo(cfg, a, bars, e, j, quantity);
    HeldNeedsBarLast(cfg, a, bars[..j + 1], quantity);
    OtherDayUnmatched(input, bars, cfg.rolls, Day(bars[j].ts), bars[j - 1].contract);
  }

  lemma NonePlacedSince(cfg: Config, a: Account, bars: seq<Bar>, e: nat, j: nat)
    requires Accounted(a) && e < j < |bars| && NonePlaced(cfg, a, bars, e)
    ensures NonePlaced(cfg, a, bars[..j + 1], j - 1)
  {
    assert bars[..j + 1][..j] == bars[..j];
    NonePlacedBefore(cfg, a, bars, e, j);
    NonePlacedBefore(cfg, a, bars, e, j + 1);
  }

  lemma HeldUpTo(cfg: Config, a: Account, bars: seq<Bar>, e: nat, j: nat, quantity: int)
    requires Accounted(a) && e < j < |bars| && NonePlaced(cfg, a, bars, e) && HeldThroughout(cfg, a, bars, e, quantity)
    ensures NonePlaced(cfg, a, bars[..j + 1], j - 1)
    ensures HoldingAt(cfg, a, bars[..j + 1], j - 1, quantity) && HoldingAt(cfg, a, bars[..j + 1], j, quantity)
  {
    NonePlacedSince(cfg, a, bars, e, j);
    HeldInPrefix(cfg, a, bars, e, j - 1, j + 1, quantity);
    HeldInPrefix(cfg, a, bars, e, j, j + 1, quantity);
  }

  lemma HeldInPrefix(cfg: Config, a: Account, bars: seq<Bar>, e: nat, k: nat, n: nat, quantity: int)
    requires Shaped(a) && HeldThroughout(cfg, a, bars, e, quantity) && e <= k < n <= |bars|
    ensures HoldingAt(cfg, a, bars[..n], k, quantity)
  {
    assert HoldingAt(cfg, a, bars, k, quantity);
    HoldingInPrefix(cfg, a, bars, k, n, quantity);
  }

  /** Run on a built series with its own roll events, a position held at bar `e` is held in every later
    * bar's contract if and only if every later change of contract has its bar on the roll date. */
  lemma HeldExactly(cfg: Config, input: Input, s: Series, a: Account, e: nat, quantity: int)
    requires Clean(input) && BuildSpec(input) == Success(s) && SameMultiplier(s.bars)
    requires cfg.rolls == RollsByDate(s.events)
    requires Accounted(a) && e < |s.bars| && NonePlaced(cfg, a, s.bars, e)
    requires HoldingAt(cfg, a, s.bars, e, quantity)
    ensures HeldThroughout(cfg, a, s.bars, e, quantity) <==> BarOnEachRollDate(input, s.bars, e)
  {
    BuiltSeriesCovered(input, e);
    var owners := BuiltScheduled(input, s);
    HeldByTable(cfg, input, a, s.bars, e, quantity);
  }

  lemma HeldByTable(cfg: Config, input: Input, a: Account, bars: seq<Bar>, e: nat, quantity: int)
    requires Accounted(a) && e < |bars| && NonePlaced(cfg, a, bars, e)
    requires Scheduled(input, bars, |bars|, cfg.rolls) && HoldingAt(cfg, a, bars, e, quantity)
    requires Covered(cfg.rolls, bars, e) <==> BarOnEachRollDate(input, bars, e)
    ensures HeldThroughout(cfg, a, bars, e, quantity) <==> BarOnEachRollDate(input, bars, e)
  {
    if BarOnEachRollDate(input, bars, e) {
      forall k | e <= k < |bars| ensures HoldingAt(cfg, a, bars, k, quantity) {
        CoveredIsHeld(cfg, a, bars, e, k, quantity);
      }
    }
    if HeldThroughout(cfg, a, bars, e, quantity) {
      forall j | e < j < |bars| && bars[j].contract != bars[j - 1].contract ensures Day(bars[j].ts) == input.Target(bars[j - 1].contract) {
        HeldNeedsBar(cfg, input, a, bars, e, j, quantity);
      }
    }
  }
}
