/** Over a whole run in target mode, what is held was affordable at the bar that asked for it. */
module BacktestBudgets {
  import opened Wrappers
  import opened Contracts
  import opened Ledger
  import opened Broker
  import opened Backtest
  import opened BacktestCausality
  import opened BacktestTarget
  import RiskManager

  /** Closes of a stream, oldest first. */
  function Closes(bars: seq<Bar>): (closes: seq<real>)
    ensures |closes| == |bars|
  {
    if |bars| == 0 then [] else Closes(bars[..|bars| - 1]) + [bars[|bars| - 1].close]
  }

  // ---------------------------------------------------------------------------------------------
  // The state a bar decides on
  // ---------------------------------------------------------------------------------------------

  /** The marked state at the last bar of a run. */
  ghost function MarkedAt(cfg: Config, bars: seq<Bar>): Result<EngineState, Ledger.Error>
    requires |bars| > 0 && RunBars(cfg, NEW_ACCOUNT, bars[..|bars| - 1]).Success?
  {
    Mark(cfg, RunBars(cfg, NEW_ACCOUNT, bars[..|bars| - 1]).value, bars[|bars| - 1])
  }

  /** The run has seen exactly `bars`, and its close history, when kept, is theirs. */
  ghost predicate Seen(cfg: Config, s: EngineState, bars: seq<Bar>, c: Contract) {
    s.history == bars && |s.curve| == |bars| && (cfg.survivalGate ==> ClosesOf(s.closes, c) == Closes(bars))
  }

  lemma MarkSees(cfg: Config, s: EngineState, bars: seq<Bar>, c: Contract)
    requires |bars| > 0 && bars[|bars| - 1].contract == c && Seen(cfg, s, bars[..|bars| - 1], c)
    requires Shaped(s.account) && Mark(cfg, s, bars[|bars| - 1]).Success?
    ensures Seen(cfg, Mark(cfg, s, bars[|bars| - 1]).value, bars, c)
  {
    assert bars[..|bars| - 1] + [bars[|bars| - 1]] == bars;
  }

  lemma StepSees(cfg: Config, s: EngineState, bars: seq<Bar>, c: Contract)
    requires |bars| > 0 && bars[|bars| - 1].contract == c && Seen(cfg, s, bars[..|bars| - 1], c)
    requires Shaped(s.account) && BarStep(cfg, s, bars[|bars| - 1]).Success?
    ensures Seen(cfg, BarStep(cfg, s, bars[|bars| - 1]).value, bars, c)
    ensures BarStep(cfg, s, bars[|bars| - 1]).value.curve == Mark(cfg, s, bars[|bars| - 1]).value.curve
  {
    MarkSees(cfg, s, bars, c);
  }

  lemma {:induction false} RunSees(cfg: Config, bars: seq<Bar>, c: Contract)
    requires StreamOf(bars, c) && RunBars(cfg, NEW_ACCOUNT, bars).Success?
    ensures Seen(cfg, RunBars(cfg, NEW_ACCOUNT, bars).value, bars, c)
  {
    if |bars| > 0 {
      var s, n := RunLast(cfg, NEW_ACCOUNT, bars);
      RunSees(cfg, bars[..|bars| - 1], c);
      StepSees(cfg, s, bars, c);
    }
  }

  /** The last bar of a run decides on its whole past, at the run's last equity point. */
  lemma LastDecides(cfg: Config, bars: seq<Bar>, c: Contract)
    requires |bars| > 0 && StreamOf(bars, c) && RunBars(cfg, NEW_ACCOUNT, bars).Success?
    ensures RunBars(cfg, NEW_ACCOUNT, bars[..|bars| - 1]).Success? && MarkedAt(cfg, bars).Success?
    ensures Seen(cfg, MarkedAt(cfg, bars).value, bars, c)
    ensures MarkedAt(cfg, bars).value.curve == RunBars(cfg, NEW_ACCOUNT, bars).value.curve
  {
    var s, n := RunLast(cfg, NEW_ACCOUNT, bars);
    RunSees(cfg, bars[..|bars| - 1], c);
    StepSees(cfg, s, bars, c);
    MarkSees(cfg, s, bars, c);
  }

  /** What the survival gate is given: nothing while off or with fewer than three closes; otherwise the return from
    * each close to the next, and the run's seed moved on by the bar's index; it fails on a zero close before the last. */
  lemma SurvivalInputsAre(cfg: Config, closes: seq<real>, index: int)
    ensures SurvivalInputs(cfg, closes, index) == Success(None) <==> !cfg.survivalGate || |closes| < 3
    ensures SurvivalInputs(cfg, closes, index).Failure? <==>
              cfg.survivalGate && |closes| >= 3 && exists j :: 0 <= j < |closes| - 1 && closes[j] == 0.0
    ensures SurvivalInputs(cfg, closes, index).Success? && SurvivalInputs(cfg, closes, index).value.Some? ==>
              var h := SurvivalInputs(cfg, closes, index).value.value;
              && |h.trailing| == |closes| - 1 && h.seed == cfg.survivalSeed + index
              && forall j | 0 <= j < |h.trailing| :: closes[j + 1] == closes[j] * (1.0 + h.trailing[j])
  {
    if SurvivalInputs(cfg, closes, index).Success? && SurvivalInputs(cfg, closes, index).value.Some? {
      var h := SurvivalInputs(cfg, closes, index).value.value;
      forall j | 0 <= j < |h.trailing| ensures closes[j + 1] == closes[j] * (1.0 + h.trailing[j]) {
        GrowsBy(closes[j], closes[j + 1], h.trailing[j]);
      }
    }
  }

  lemma GrowsBy(was: real, close: real, r: real)
    requires was != 0.0 && r == close / was - 1.0
    ensures close == was * (1.0 + r)
  {
  }

  // ---------------------------------------------------------------------------------------------
  // Affordable at one bar
  // ---------------------------------------------------------------------------------------------

  /** At the last close, `size` contracts have their margin within its share of `equity`, their notional within the
    * leverage cap and the scaled Kelly fraction, and pass the survival gate on the closes so far when it is on. */
  ghost predicate AffordableOn(cfg: Config, rm: RiskManager.Manager, bars: seq<Bar>, equity: real, c: Contract, size: int)
    requires rm.Valid() && |bars| > 0
  {
    var sig, history := cfg.strategy(bars), SurvivalInputs(cfg, Closes(bars), |bars| - 1);
    && equity > 0.0 && sig.Some? && sig.value.contract == c && history.Success?
    && RiskManager.Affordable(rm, sig.value.kelly, size, equity, RiskManager.NotionalFor(c, bars[|bars| - 1].close),
                              RiskManager.MarginFor(rm, c), history.value)
  }

  lemma SameInputs(cfg: Config, closes: seq<real>, others: seq<real>, index: int)
    requires cfg.survivalGate ==> closes == others
    ensures SurvivalInputs(cfg, closes, index) == SurvivalInputs(cfg, others, index)
  {
  }

  /** A target asked for by the last bar of a run is affordable there. */
  lemma LastAskAffordable(cfg: Config, rm: RiskManager.Manager, bars: seq<Bar>, c: Contract, target: int)
    requires SingleStream(cfg, c) && |bars| > 0 && StreamOf(bars, c) && RunBars(cfg, NEW_ACCOUNT, bars).Success?
    requires SizedBy(cfg, rm) && RiskManager.MarginFor(rm, c) > 0.0 && WantedAt(cfg, bars) == Some(target) && target != 0
    ensures |RunBars(cfg, NEW_ACCOUNT, bars).value.curve| == |bars|
    ensures AffordableOn(cfg, rm, bars, RunBars(cfg, NEW_ACCOUNT, bars).value.curve[|bars| - 1], c, Abs(target))
  {
    LastDecides(cfg, bars, c);
    var m := MarkedAt(cfg, bars).value;
    var equity := m.curve[|m.curve| - 1];
    assert Wanted(cfg, m, bars[|bars| - 1], equity) == Some(target);
    TargetWithinBudgets(cfg, rm, m, bars[|bars| - 1], equity, c);
    SameInputs(cfg, ClosesOf(m.closes, c), Closes(bars), |bars| - 1);
  }

  // ---------------------------------------------------------------------------------------------
  // Over the run
  // ---------------------------------------------------------------------------------------------

  /** Bar `j` asked for `target`, and could afford it at its own equity, close and history. */
  ghost predicate AskedAndAfforded(cfg: Config, rm: RiskManager.Manager, bars: seq<Bar>, c: Contract, j: nat, target: int)
    requires rm.Valid() && j < |bars| && RunBars(cfg, NEW_ACCOUNT, bars).Success?
  {
    var curve := RunBars(cfg, NEW_ACCOUNT, bars).value.curve;
    && WantedAt(cfg, bars[..j + 1]) == Some(target)
    && j < |curve| && AffordableOn(cfg, rm, bars[..j + 1], curve[j], c, Abs(target))
  }

  lemma TargetKept(cfg: Config, bars: seq<Bar>)
    requires |bars| > 0
    ensures WantedAt(cfg, bars) == Some(LastTarget(cfg, bars)) || LastTarget(cfg, bars) == LastTarget(cfg, bars[..|bars| - 1])
  {
  }

  /** The last target asked for is some bar's, unless it is flat. */
  lemma {:induction false} TargetIsAsked(cfg: Config, bars: seq<Bar>, k: nat) returns (j: nat)
    requires k <= |bars| && LastTarget(cfg, bars[..k]) != 0
    ensures j < k && WantedAt(cfg, bars[..j + 1]) == Some(LastTarget(cfg, bars[..k]))
    decreases k
  {
    var before, upTo := bars[..k - 1], bars[..k];
    assert upTo[..k - 1] == before;
    j := k - 1;
    TargetKept(cfg, upTo);
    if WantedAt(cfg, upTo) != Some(LastTarget(cfg, upTo)) {
      j := TargetIsAsked(cfg, bars, k - 1);
    }
  }

  lemma NewMarket()
    ensures Accounted(NEW_ACCOUNT) && AllMarket(NEW_ACCOUNT)
  {
  }

  lemma AskAffordable(cfg: Config, rm: RiskManager.Manager, bars: seq<Bar>, c: Contract, j: nat, target: int)
    requires SingleStream(cfg, c) && StreamOf(bars, c) && j < |bars| && RunBars(cfg, NEW_ACCOUNT, bars).Success?
    requires SizedBy(cfg, rm) && RiskManager.MarginFor(rm, c) > 0.0 && WantedAt(cfg, bars[..j + 1]) == Some(target) && target != 0
    ensures AskedAndAfforded(cfg, rm, bars, c, j, target)
  {
    NewMarket();
    PrefixCausality(cfg, NEW_ACCOUNT, bars, j + 1);
    LastAskAffordable(cfg, rm, bars[..j + 1], c, target);
  }

  /** At every bar's decision the position is flat or is the target of an earlier bar, which could afford
    * it: the three budgets of that bar's equity at its close, and its survival gate. */
  lemma PositionWasAffordable(cfg: Config, rm: RiskManager.Manager, bars: seq<Bar>, k: nat, c: Contract)
    requires SingleStream(cfg, c) && StreamOf(bars, c) && k < |bars| && RunBars(cfg, NEW_ACCOUNT, bars).Success?
    requires SizedBy(cfg, rm) && RiskManager.MarginFor(rm, c) > 0.0
    ensures RunBars(cfg, NEW_ACCOUNT, bars[..k]).Success? && Mark(cfg, RunBars(cfg, NEW_ACCOUNT, bars[..k]).value, bars[k]).Success?
    ensures var held := Quantity(Mark(cfg, RunBars(cfg, NEW_ACCOUNT, bars[..k]).value, bars[k]).value.account.book, c);
            held != 0 ==> exists j :: 0 <= j < k && AskedAndAfforded(cfg, rm, bars, c, j, held)
  {
    MarkedInRun(cfg, bars, k, c);
    PositionIsLastTarget(cfg, bars[..k], bars[k], c);
    if LastTarget(cfg, bars[..k]) != 0 {
      var j := TargetAfforded(cfg, rm, bars, k, c);
    }
  }

  lemma TargetAfforded(cfg: Config, rm: RiskManager.Manager, bars: seq<Bar>, k: nat, c: Contract) returns (j: nat)
    requires SingleStream(cfg, c) && StreamOf(bars, c) && k <= |bars| && RunBars(cfg, NEW_ACCOUNT, bars).Success?
    requires SizedBy(cfg, rm) && RiskManager.MarginFor(rm, c) > 0.0 && LastTarget(cfg, bars[..k]) != 0
    ensures j < k && AskedAndAfforded(cfg, rm, bars, c, j, LastTarget(cfg, bars[..k]))
  {
    j := TargetIsAsked(cfg, bars, k);
    AskAffordable(cfg, rm, bars, c, j, LastTarget(cfg, bars[..k]));
  }

  lemma MarkedInRun(cfg: Config, bars: seq<Bar>, k: nat, c: Contract)
    requires StreamOf(bars, c) && k < |bars| && RunBars(cfg, NEW_ACCOUNT, bars).Success?
    ensures RunBars(cfg, NEW_ACCOUNT, bars[..k]).Success? && Mark(cfg, RunBars(cfg, NEW_ACCOUNT, bars[..k]).value, bars[k]).Success?
  {
    NewMarket();
    PrefixCausality(cfg, NEW_ACCOUNT, bars, k + 1);
    assert bars[..k + 1][..k] == bars[..k];
    LastDecides(cfg, bars[..k + 1], c);
  }
}
