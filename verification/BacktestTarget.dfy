/** Target-position mode on a single-contract stream: the position is always the last target. */
module BacktestTarget {
  import opened Wrappers
  import opened Contracts
  import opened Ledger
  import opened Broker
  import opened Backtest
  import opened BacktestCausality
  import RiskManager

  /** One contract, signalled and streamed, with netting on and no rolls. */
  ghost predicate SingleStream(cfg: Config, c: Contract) {
    && cfg.targetPosition && cfg.rolls == map[]
    && forall h: seq<Bar> :: cfg.strategy(h).Some? ==> cfg.strategy(h).value.contract == c
  }

  predicate StreamOf(bars: seq<Bar>, c: Contract) {
    forall i | 0 <= i < |bars| :: bars[i].contract == c
  }

  /** The position a marked bar asks for: flat on a stop or a flat view, the signed gate-capped size
    * on a directional one, and None when the bar asks for nothing. */
  function Wanted(cfg: Config, m: EngineState, bar: Bar, equity: real): Option<int> {
    if equity <= 0.0 || cfg.blockAll then None
    else if StopHit(cfg.stopLoss, m.account.book, bar) then Some(0)
    else
      match cfg.strategy(m.history)
      case None => None
      case Some(sig) => if sig.direction == 0 then Some(0) else WantedSize(cfg, m, bar, equity, sig)
  }

  function WantedSize(cfg: Config, m: EngineState, bar: Bar, equity: real, sig: Signal): Option<int> {
    match SurvivalInputs(cfg, ClosesOf(m.closes, sig.contract), |m.history| - 1)
    case Failure(_) => None
    case Success(history) =>
      match cfg.sizer(sig.contract, sig.kelly, equity, bar.close, history)
      case None => None
      case Some(d) => if d.contracts <= 0 then None else Some(if sig.direction > 0 then d.contracts else -d.contracts)
  }

  /** What the last bar of a run asks for. */
  ghost function WantedAt(cfg: Config, bars: seq<Bar>): Option<int>
    requires |bars| > 0
  {
    match RunBars(cfg, NEW_ACCOUNT, bars[..|bars| - 1])
    case Failure(_) => None
    case Success(s) =>
      match Mark(cfg, s, bars[|bars| - 1])
      case Failure(_) => None
      case Success(m) => Wanted(cfg, m, bars[|bars| - 1], m.curve[|m.curve| - 1])
  }

  /** The last position asked for over a run; flat before the first. */
  ghost function LastTarget(cfg: Config, bars: seq<Bar>): int {
    if |bars| == 0 then 0
    else match WantedAt(cfg, bars) case None => LastTarget(cfg, bars[..|bars| - 1]) case Some(t) => t
  }

  /** The largest size the gate granted at any bar of the run. */
  ghost function PeakSize(cfg: Config, bars: seq<Bar>): nat {
    if |bars| == 0 then 0
    else
      MaxInt(PeakSize(cfg, bars[..|bars| - 1]), match WantedAt(cfg, bars) case None => 0 case Some(t) => Abs(t))
  }

  // ---------------------------------------------------------------------------------------------
  // Orders in flight
  // ---------------------------------------------------------------------------------------------

  ghost predicate AllFilled(a: Account, n: nat)
    requires Shaped(a) && n <= |a.orders|
  {
    forall id | 0 <= id < n :: a.filled[id] == a.orders[id].quantity
  }

  /** At most the newest order is still open, it is for `c`, and it takes the position to `target`. */
  ghost predicate Heading(a: Account, c: Contract, target: int) {
    && Accounted(a) && AllMarket(a) && a.cancelled == {}
    && (|a.orders| == 0 || AllFilled(a, |a.orders| - 1))
    && var last := |a.orders| - 1;
       if |a.orders| == 0 || a.filled[last] == a.orders[last].quantity then Quantity(a.book, c) == target
       else a.filled[last] == 0 && a.orders[last].contract == c
            && Quantity(a.book, c) + Delta(a.orders[last].side, a.orders[last].quantity) == target
  }

  /** Nothing is open and the position is the target. */
  ghost predicate Arrived(a: Account, c: Contract, target: int) {
    Heading(a, c, target) && AllFilled(a, |a.orders|) && Quantity(a.book, c) == target
  }

  lemma {:induction false} FilledStay(a: Account, n: nat, bar: Bar, slip: Option<Slippage>)
    requires Shaped(a) && n <= |a.orders| && AllFilled(a, n)
    ensures AdvanceFirst(a, n, bar, slip) == Ok(a)
  {
    if n > 0 {
      FilledStay(a, n - 1, bar, slip);
    }
  }

  /** The next bar of the contract fills whatever was in flight. */
  lemma AdvanceArrives(a: Account, c: Contract, target: int, bar: Bar, slip: Option<Slippage>)
    requires Heading(a, c, target) && bar.contract == c && Advanced(a, bar, slip).Ok?
    ensures Arrived(Advanced(a, bar, slip).account, c, target)
  {
    if |a.orders| > 0 {
      LastAdvances(a, bar, slip);
      LastArrives(a, c, target, bar, slip);
    }
  }

  /** With the others filled, only the newest order can trade. */
  lemma LastAdvances(a: Account, bar: Bar, slip: Option<Slippage>)
    requires Shaped(a) && |a.orders| > 0 && AllFilled(a, |a.orders| - 1)
    ensures Advanced(a, bar, slip) == AdvanceOne(a, |a.orders| - 1, bar, slip)
  {
    FilledStay(a, |a.orders| - 1, bar, slip);
  }

  lemma LastArrives(a: Account, c: Contract, target: int, bar: Bar, slip: Option<Slippage>)
    requires Heading(a, c, target) && bar.contract == c && |a.orders| > 0 && AdvanceOne(a, |a.orders| - 1, bar, slip).Ok?
    ensures Arrived(AdvanceOne(a, |a.orders| - 1, bar, slip).account, c, target)
  {
    var last := |a.orders| - 1;
    AdvanceOneFills(a, last, bar, slip);
    if a.filled[last] != a.orders[last].quantity {
      LastFills(a, c, bar, slip);
      NowArrived(a, AdvanceOne(a, last, bar, slip).account, c, target);
    }
  }

  /** Filling the order in flight arrives at its target. */
  lemma NowArrived(a: Account, r: Account, c: Contract, target: int)
    requires Heading(a, c, target) && |a.orders| > 0 && Accounted(r) && r.orders == a.orders && r.cancelled == a.cancelled
    requires var last := |a.orders| - 1;
             && a.filled[last] != a.orders[last].quantity && r.filled == a.filled[last := a.orders[last].quantity]
             && Quantity(r.book, c) == Quantity(a.book, c) + Delta(a.orders[last].side, a.orders[last].quantity)
    ensures Arrived(r, c, target)
  {
  }

  lemma LastFills(a: Account, c: Contract, bar: Bar, slip: Option<Slippage>)
    requires Accounted(a) && AllMarket(a) && a.cancelled == {} && |a.orders| > 0 && bar.contract == c
    requires var last := |a.orders| - 1; a.filled[last] == 0 && a.orders[last].contract == c
    requires AdvanceOne(a, |a.orders| - 1, bar, slip).Ok?
    ensures var last, r := |a.orders| - 1, AdvanceOne(a, |a.orders| - 1, bar, slip).account;
            && r.filled[last] == a.orders[last].quantity
            && Quantity(r.book, c) == Quantity(a.book, c) + Delta(a.orders[last].side, a.orders[last].quantity)
  {
    var last := |a.orders| - 1;
    var o := a.orders[last];
    var price := Executed(o, bar, FillPrice(o, bar).value, slip).value;
    FillIdentity(a.book, c, Delta(o.side, o.quantity), price, false);
  }

  // ---------------------------------------------------------------------------------------------
  // One bar
  // ---------------------------------------------------------------------------------------------

  lemma TradeArrives(cfg: Config, s: EngineState, bar: Bar, c: Contract, target: int)
    requires cfg.rolls == map[] && Heading(s.account, c, target) && bar.contract == c && Trade(cfg, s, bar).Success?
    ensures Arrived(Trade(cfg, s, bar).value.account, c, target)
  {
    AdvanceArrives(s.account, c, target, bar, cfg.slip);
  }

  /** The order a bar places is exactly the distance to the position it wants. */
  lemma DecideReaches(cfg: Config, m: EngineState, bar: Bar, equity: real, c: Contract)
    requires cfg.targetPosition && bar.contract == c && Decide(cfg, m, bar, equity).Success?
    requires cfg.strategy(m.history).Some? ==> cfg.strategy(m.history).value.contract == c
    ensures var order, wanted := Decide(cfg, m, bar, equity).value.order, Wanted(cfg, m, bar, equity);
            order == if wanted.None? then None else OrderFor(false, c, wanted.value - Quantity(m.account.book, c))
  {
  }

  lemma PlacedHeads(a: Account, c: Contract, target: int, wanted: int)
    requires Arrived(a, c, target) && wanted != Quantity(a.book, c)
    ensures Heading(Placed(a, OrderFor(false, c, wanted - Quantity(a.book, c)).value), c, wanted)
  {
    PlaceAccounted(a, OrderFor(false, c, wanted - Quantity(a.book, c)).value);
  }

  lemma ActHeads(cfg: Config, m: EngineState, bar: Bar, equity: real, c: Contract, target: int)
    requires SingleStream(cfg, c) && bar.contract == c && Arrived(m.account, c, target) && Decide(cfg, m, bar, equity).Success?
    ensures var wanted := Wanted(cfg, m, bar, equity);
            Heading(Act(m, Decide(cfg, m, bar, equity).value).account, c, if wanted.None? then target else wanted.value)
  {
    DecideReaches(cfg, m, bar, equity, c);
    OrderHeads(m.account, c, target, Wanted(cfg, m, bar, equity), Decide(cfg, m, bar, equity).value.order);
  }

  lemma OrderHeads(a: Account, c: Contract, target: int, wanted: Option<int>, order: Option<Order>)
    requires Arrived(a, c, target) && order == if wanted.None? then None else OrderFor(false, c, wanted.value - Quantity(a.book, c))
    ensures Heading(if order.None? then a else Placed(a, order.value), c, if wanted.None? then target else wanted.value)
  {
    if wanted.Some? && wanted.value != Quantity(a.book, c) {
      PlacedHeads(a, c, target, wanted.value);
    }
  }

  // ---------------------------------------------------------------------------------------------
  // Whole runs
  // ---------------------------------------------------------------------------------------------

  /** After every bar the account is heading for the last target and for nothing else. */
  lemma {:induction false} RunHeads(cfg: Config, bars: seq<Bar>, c: Contract)
    requires SingleStream(cfg, c) && StreamOf(bars, c) && RunBars(cfg, NEW_ACCOUNT, bars).Success?
    ensures Heading(RunBars(cfg, NEW_ACCOUNT, bars).value.account, c, LastTarget(cfg, bars))
  {
    if |bars| > 0 {
      var s, n := RunLast(cfg, NEW_ACCOUNT, bars);
      RunHeads(cfg, bars[..|bars| - 1], c);
      StepHeads(cfg, s, n, bars, c);
    }
  }

  lemma StepHeads(cfg: Config, s: EngineState, n: EngineState, bars: seq<Bar>, c: Contract)
    requires SingleStream(cfg, c) && |bars| > 0 && bars[|bars| - 1].contract == c
    requires RunBars(cfg, NEW_ACCOUNT, bars[..|bars| - 1]) == Success(s)
    requires Heading(s.account, c, LastTarget(cfg, bars[..|bars| - 1])) && BarStep(cfg, s, bars[|bars| - 1]) == Success(n)
    ensures Heading(n.account, c, LastTarget(cfg, bars))
  {
    var bar := bars[|bars| - 1];
    var m := Mark(cfg, s, bar).value;
    TradeArrives(cfg, s, bar, c, LastTarget(cfg, bars[..|bars| - 1]));
    ActHeads(cfg, m, bar, m.curve[|m.curve| - 1], c, LastTarget(cfg, bars[..|bars| - 1]));
  }

  /** When a bar decides, no order is open and the position is the target last asked for. */
  lemma PositionIsLastTarget(cfg: Config, past: seq<Bar>, bar: Bar, c: Contract)
    requires SingleStream(cfg, c) && StreamOf(past, c) && bar.contract == c
    requires RunBars(cfg, NEW_ACCOUNT, past).Success? && Mark(cfg, RunBars(cfg, NEW_ACCOUNT, past).value, bar).Success?
    ensures Arrived(Mark(cfg, RunBars(cfg, NEW_ACCOUNT, past).value, bar).value.account, c, LastTarget(cfg, past))
  {
    RunHeads(cfg, past, c);
    TradeArrives(cfg, RunBars(cfg, NEW_ACCOUNT, past).value, bar, c, LastTarget(cfg, past));
  }

  // ---------------------------------------------------------------------------------------------
  // Bounded exposure
  // ---------------------------------------------------------------------------------------------

  lemma {:induction false} TargetBounded(cfg: Config, bars: seq<Bar>)
    ensures Abs(LastTarget(cfg, bars)) <= PeakSize(cfg, bars)
  {
    if |bars| > 0 {
      TargetBounded(cfg, bars[..|bars| - 1]);
    }
  }

  /** The position never exceeds the largest gate-capped size granted so far. */
  lemma ExposureBounded(cfg: Config, past: seq<Bar>, bar: Bar, c: Contract)
    requires SingleStream(cfg, c) && StreamOf(past, c) && bar.contract == c
    requires RunBars(cfg, NEW_ACCOUNT, past).Success? && Mark(cfg, RunBars(cfg, NEW_ACCOUNT, past).value, bar).Success?
    ensures Abs(Quantity(Mark(cfg, RunBars(cfg, NEW_ACCOUNT, past).value, bar).value.account.book, c)) <= PeakSize(cfg, past)
  {
    PositionIsLastTarget(cfg, past, bar, c);
    TargetBounded(cfg, past);
  }

  /** The sizer is the risk manager `m`, so far as its answers go. */
  ghost predicate SizedBy(cfg: Config, m: RiskManager.Manager) {
    m.Valid() && forall c: Contract, kelly: real, equity: real, price: real, h: Option<RiskManager.History> ::
      cfg.sizer(c, kelly, equity, price, h).Some? ==>
        equity > 0.0 && RiskManager.Sized(m, kelly, equity, RiskManager.NotionalFor(c, price), RiskManager.MarginFor(m, c), h,
                                          cfg.sizer(c, kelly, equity, price, h).value)
  }

  /** A target asked for at a bar is within the Kelly, margin and leverage budgets of that bar's
    * marked equity, and passes the survival gate when that is on. */
  lemma TargetWithinBudgets(cfg: Config, rm: RiskManager.Manager, m: EngineState, bar: Bar, equity: real, c: Contract)
    requires SingleStream(cfg, c) && SizedBy(cfg, rm) && RiskManager.MarginFor(rm, c) > 0.0 && equity > 0.0
    requires Wanted(cfg, m, bar, equity).Some? && Wanted(cfg, m, bar, equity).value != 0
    ensures var sig, size := cfg.strategy(m.history).value, Abs(Wanted(cfg, m, bar, equity).value);
            var history := SurvivalInputs(cfg, ClosesOf(m.closes, c), |m.history| - 1);
            && sig.contract == c && history.Success?
            && RiskManager.Affordable(rm, sig.kelly, size, equity,
                                      RiskManager.NotionalFor(c, bar.close), RiskManager.MarginFor(rm, c), history.value)
  {
    var sig := cfg.strategy(m.history).value;
    var history := SurvivalInputs(cfg, ClosesOf(m.closes, c), |m.history| - 1).value;
    var d := cfg.sizer(c, sig.kelly, equity, bar.close, history).value;
    assert RiskManager.Sized(rm, sig.kelly, equity, RiskManager.NotionalFor(c, bar.close), RiskManager.MarginFor(rm, c), history, d);
    var size: nat := d.contracts;
    assert size <= d.contracts;
  }
}
