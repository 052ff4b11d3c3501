/** The backtest never looks ahead: causality of runs, and what every run keeps. */
module BacktestCausality {
  import opened Wrappers
  import opened Broker
  import opened Backtest

  // ---------------------------------------------------------------------------------------------
  // What one bar keeps
  // ---------------------------------------------------------------------------------------------

  /** Every order the engine holds is a market order. */
  ghost predicate AllMarket(a: Account) {
    forall id | 0 <= id < |a.orders| :: a.orders[id].kind == Market
  }

  lemma DecidedOrdersAreMarket(cfg: Config, m: EngineState, bar: Bar, equity: real)
    requires Decide(cfg, m, bar, equity).Success?
    ensures var c := Decide(cfg, m, bar, equity).value; c.order.Some? ==> c.order.value.kind == Market
  {
  }

  /** Trading on a bar only appends fills, all of orders that were already there. */
  lemma TradeExtends(cfg: Config, s: EngineState, bar: Bar)
    requires Accounted(s.account) && Trade(cfg, s, bar).Success?
    ensures var t := Trade(cfg, s, bar).value;
            && Accounted(t.account) && t.account.orders == s.account.orders && s.account.fills <= t.account.fills
            && t.curve == s.curve && t.history == s.history
  {
    AdvanceAccounted(s.account, |s.account.orders|, bar, cfg.slip);
    RollKeepsOrders(cfg.rolls, Advanced(s.account, bar, cfg.slip).account, Day(bar.ts));
  }

  ghost predicate Extends(s: EngineState, n: EngineState, bar: Bar) {
    && Accounted(n.account) && s.account.orders <= n.account.orders && s.account.fills <= n.account.fills
    && |n.curve| == |s.curve| + 1 && s.curve <= n.curve && n.history == s.history + [bar]
    && (AllMarket(s.account) ==> AllMarket(n.account))
    && (forall k | 0 <= k < |n.account.fills| :: n.account.fills[k].id < |s.account.orders|)
  }

  lemma StepExtends(cfg: Config, s: EngineState, bar: Bar)
    requires Accounted(s.account) && BarStep(cfg, s, bar).Success?
    ensures Extends(s, BarStep(cfg, s, bar).value, bar)
  {
    TradeExtends(cfg, s, bar);
    var m := Mark(cfg, s, bar).value;
    var c := Decide(cfg, m, bar, m.curve[|m.curve| - 1]).value;
    DecidedOrdersAreMarket(cfg, m, bar, m.curve[|m.curve| - 1]);
    if c.order.Some? {
      PlaceAccounted(m.account, c.order.value);
    }
  }

  ghost predicate Kept(s: EngineState, bars: seq<Bar>) {
    Accounted(s.account) && s.history == bars && |s.curve| == |bars|
  }

  lemma KeptAfter(s: EngineState, n: EngineState, bars: seq<Bar>)
    requires |bars| > 0 && Kept(s, bars[..|bars| - 1]) && Extends(s, n, bars[|bars| - 1])
    ensures Kept(n, bars)
  {
  }

  lemma {:induction false} RunKeeps(cfg: Config, a: Account, bars: seq<Bar>)
    requires Accounted(a) && RunBars(cfg, a, bars).Success?
    ensures Kept(RunBars(cfg, a, bars).value, bars)
  {
    if |bars| > 0 {
      RunKeeps(cfg, a, bars[..|bars| - 1]);
      RunExtends(cfg, a, bars);
      KeptAfter(RunBars(cfg, a, bars[..|bars| - 1]).value, RunBars(cfg, a, bars).value, bars);
    }
  }

  /** A broker holding only market orders still does after any run. */
  lemma {:induction false} RunKeepsMarket(cfg: Config, a: Account, bars: seq<Bar>)
    requires Accounted(a) && AllMarket(a) && RunBars(cfg, a, bars).Success?
    ensures AllMarket(RunBars(cfg, a, bars).value.account)
  {
    if |bars| > 0 {
      RunKeepsMarket(cfg, a, bars[..|bars| - 1]);
      RunKeeps(cfg, a, bars[..|bars| - 1]);
      RunExtends(cfg, a, bars);
    }
  }

  /** A run on one bar more is the shorter run followed by one step. */
  lemma RunLast(cfg: Config, a: Account, bars: seq<Bar>) returns (s: EngineState, n: EngineState)
    requires Shaped(a) && |bars| > 0 && RunBars(cfg, a, bars).Success?
    ensures RunBars(cfg, a, bars[..|bars| - 1]) == Success(s) && RunBars(cfg, a, bars) == Success(n)
    ensures Shaped(s.account) && BarStep(cfg, s, bars[|bars| - 1]) == Success(n)
  {
    s := RunBars(cfg, a, bars[..|bars| - 1]).value;
    n := RunBars(cfg, a, bars).value;
  }

  lemma RunExtends(cfg: Config, a: Account, bars: seq<Bar>)
    requires Shaped(a) && |bars| > 0 && RunBars(cfg, a, bars).Success?
    requires RunBars(cfg, a, bars[..|bars| - 1]).Success? && Accounted(RunBars(cfg, a, bars[..|bars| - 1]).value.account)
    ensures Extends(RunBars(cfg, a, bars[..|bars| - 1]).value, RunBars(cfg, a, bars).value, bars[|bars| - 1])
  {
    var s, n := RunLast(cfg, a, bars);
    StepExtends(cfg, s, bars[|bars| - 1]);
  }

  // ---------------------------------------------------------------------------------------------
  // Causality
  // ---------------------------------------------------------------------------------------------

  /** The run on the first `k` bars is the first `k` bars of the run: equity points, placements and
    * fills are never revised by what comes later. */
  lemma {:induction false} PrefixCausality(cfg: Config, a: Account, bars: seq<Bar>, k: nat)
    requires Accounted(a) && k <= |bars| && RunBars(cfg, a, bars).Success?
    ensures RunBars(cfg, a, bars[..k]).Success?
    ensures var early, late := RunBars(cfg, a, bars[..k]).value, RunBars(cfg, a, bars).value;
            |early.curve| == k && early.curve <= late.curve && early.account.orders <= late.account.orders && early.account.fills <= late.account.fills
    decreases |bars|
  {
    if k == |bars| {
      assert bars[..k] == bars;
      RunKeeps(cfg, a, bars);
    } else {
      var shorter := bars[..|bars| - 1];
      assert shorter[..k] == bars[..k];
      PrefixCausality(cfg, a, shorter, k);
      RunKeeps(cfg, a, shorter);
      RunExtends(cfg, a, bars);
    }
  }

  /** No order fills on the bar that placed it, nor before: by the end of bar `k` every fill belongs
    * to an order placed on an earlier bar. */
  lemma NoSameBarFill(cfg: Config, a: Account, bars: seq<Bar>, k: nat)
    requires Accounted(a) && k < |bars| && RunBars(cfg, a, bars[..k + 1]).Success?
    ensures RunBars(cfg, a, bars[..k]).Success?
    ensures var early, late := RunBars(cfg, a, bars[..k]).value, RunBars(cfg, a, bars[..k + 1]).value;
            && (forall f | 0 <= f < |late.account.fills| :: late.account.fills[f].id < |early.account.orders|)
            && forall id: nat | |early.account.orders| <= id < |late.account.orders| :: late.account.filled[id] == 0
  {
    assert bars[..k + 1][..k] == bars[..k];
    RunKeeps(cfg, a, bars[..k]);
    var early, late := RunBars(cfg, a, bars[..k]).value, RunBars(cfg, a, bars[..k + 1]).value;
    StepExtends(cfg, early, bars[k]);
    forall id: nat | |early.account.orders| <= id < |late.account.orders| ensures late.account.filled[id] == 0 {
      FilledByAbsent(late.account.fills, id);
    }
  }

  /** Against market orders, two bars with the same contract, time and open trade alike. */
  lemma {:induction false} AdvanceSeesOnlyTheOpen(a: Account, n: nat, b1: Bar, b2: Bar, slip: Option<Slippage>)
    requires Shaped(a) && AllMarket(a) && n <= |a.orders|
    requires b1.contract == b2.contract && b1.ts == b2.ts && b1.openPrice == b2.openPrice
    ensures AdvanceFirst(a, n, b1, slip) == AdvanceFirst(a, n, b2, slip)
  {
    if n > 0 {
      AdvanceSeesOnlyTheOpen(a, n - 1, b1, b2, slip);
    }
  }

  lemma StepSeesOnlyTheOpen(cfg: Config, s: EngineState, b1: Bar, b2: Bar)
    requires Shaped(s.account) && AllMarket(s.account)
    requires b1.contract == b2.contract && b1.ts == b2.ts && b1.openPrice == b2.openPrice
    requires BarStep(cfg, s, b1).Success? && BarStep(cfg, s, b2).Success?
    ensures var n1, n2 := BarStep(cfg, s, b1).value, BarStep(cfg, s, b2).value;
            n1.account.fills == n2.account.fills && n1.account.book == n2.account.book && n1.rollCost == n2.rollCost
  {
    AdvanceSeesOnlyTheOpen(s.account, |s.account.orders|, b1, b2, cfg.slip);
  }

  /** Two runs that agree before bar `k` and on its open trade identically on bar `k`: the close, high
    * and low of a bar cannot move the fills, positions or rolls of that bar. */
  lemma FillsSeeOnlyTheOpen(cfg: Config, a: Account, past: seq<Bar>, b1: Bar, b2: Bar)
    requires Accounted(a) && AllMarket(a)
    requires b1.contract == b2.contract && b1.ts == b2.ts && b1.openPrice == b2.openPrice
    requires RunBars(cfg, a, past + [b1]).Success? && RunBars(cfg, a, past + [b2]).Success?
    ensures RunBars(cfg, a, past + [b1]).value.account.fills == RunBars(cfg, a, past + [b2]).value.account.fills
    ensures RunBars(cfg, a, past + [b1]).value.account.book == RunBars(cfg, a, past + [b2]).value.account.book
    ensures RunBars(cfg, a, past + [b1]).value.rollCost == RunBars(cfg, a, past + [b2]).value.rollCost
  {
    assert (past + [b1])[..|past|] == past && (past + [b2])[..|past|] == past;
    RunKeeps(cfg, a, past);
    RunKeepsMarket(cfg, a, past);
    StepSeesOnlyTheOpen(cfg, RunBars(cfg, a, past).value, b1, b2);
  }

  /** A ruined or blocked account places nothing. */
  lemma RuinedPlacesNothing(cfg: Config, s: EngineState, bar: Bar)
    requires Accounted(s.account) && BarStep(cfg, s, bar).Success?
    ensures var n := BarStep(cfg, s, bar).value;
            |n.curve| > 0 && (cfg.blockAll || n.curve[|n.curve| - 1] <= 0.0 ==> n.account.orders == s.account.orders)
  {
    TradeExtends(cfg, s, bar);
  }

  /** The counters of a run agree with its account: one order at most a bar, every placement and every fill counted. */
  lemma {:induction false} CountersAgree(cfg: Config, a: Account, bars: seq<Bar>)
    requires Accounted(a) && RunBars(cfg, a, bars).Success?
    ensures var s := RunBars(cfg, a, bars).value;
            && s.orders == |s.account.orders| - |a.orders| && s.fills == |s.account.fills| - |a.fills|
            && s.orders <= |bars| && s.signals <= |bars| && s.capped <= s.signals
  {
    if |bars| > 0 {
      CountersAgree(cfg, a, bars[..|bars| - 1]);
      RunKeeps(cfg, a, bars[..|bars| - 1]);
      var s, n := RunLast(cfg, a, bars);
      StepCounts(cfg, s, n, bars[|bars| - 1]);
    }
  }

  lemma StepCounts(cfg: Config, s: EngineState, n: EngineState, bar: Bar)
    requires Accounted(s.account) && BarStep(cfg, s, bar) == Success(n)
    ensures n.orders - s.orders == |n.account.orders| - |s.account.orders| <= 1
    ensures n.fills - s.fills == |n.account.fills| - |s.account.fills|
    ensures s.signals <= n.signals <= s.signals + 1 && n.capped - s.capped <= n.signals - s.signals
  {
    TradeCounts(cfg, s, bar);
    var m := Mark(cfg, s, bar).value;
    CappedSpeaks(cfg, m, bar, m.curve[|m.curve| - 1]);
  }

  lemma TradeCounts(cfg: Config, s: EngineState, bar: Bar)
    requires Accounted(s.account) && Trade(cfg, s, bar).Success?
    ensures var t := Trade(cfg, s, bar).value;
            && t.account.orders == s.account.orders && t.fills - s.fills == |t.account.fills| - |s.account.fills|
            && t.orders == s.orders && t.signals == s.signals && t.capped == s.capped
  {
    TradeExtends(cfg, s, bar);
    RollKeepsOrders(cfg.rolls, Advanced(s.account, bar, cfg.slip).account, Day(bar.ts));
  }

  lemma CappedSpeaks(cfg: Config, m: EngineState, bar: Bar, equity: real)
    requires Decide(cfg, m, bar, equity).Success?
    ensures Decide(cfg, m, bar, equity).value.capped ==> Decide(cfg, m, bar, equity).value.signalled
  {
  }
}
