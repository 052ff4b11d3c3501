/** The single-stream backtest loop: futur3/engine/backtest.py. */
module Backtest {
  import opened Wrappers
  import opened Contracts
  import opened Sums
  import opened Ledger
  import opened Broker
  import opened Valuation
  import RiskManager

  /** A signal; its sign is in `direction`, its strength in `kelly`. */
  datatype Signal = Signal(contract: Contract, direction: int, kelly: real)

  datatype RollEvent = RollEvent(rollDate: int, front: Contract, back: Contract, frontSettle: real, backSettle: real)

  const MIN_CLOSES_FOR_SURVIVAL := 3

  /** Everything a run is given. The strategy sees the bar history; the sizer is the risk manager,
    * or None where it raises. */
  datatype Config = Config(
    start: real,
    blockAll: bool,
    strategy: seq<Bar> -> Option<Signal>,
    sizer: (Contract, real, real, real, Option<RiskManager.History>) -> Option<RiskManager.Decision>,
    slip: Option<Slippage>,
    survivalGate: bool,
    survivalSeed: int,
    targetPosition: bool,
    rolls: map<int, RollEvent>,
    stopLoss: Option<real>)

  datatype EngineState = EngineState(
    account: Account,
    history: seq<Bar>,
    marks: Marks,
    closes: map<Contract, seq<real>>,
    curve: seq<real>,
    signals: nat,
    orders: nat,
    fills: int,
    capped: nat,
    rolls: nat,
    rollCost: real)

  function Begin(a: Account): EngineState {
    EngineState(a, [], map[], map[], [], 0, 0, 0, 0, 0, 0.0)
  }

  function Day(ts: int): int {
    ts / 86400
  }

  function ClosesOf(closes: map<Contract, seq<real>>, c: Contract): seq<real> {
    if c in closes then closes[c] else []
  }

  // ---------------------------------------------------------------------------------------------
  // Fill, roll and mark
  // ---------------------------------------------------------------------------------------------

  /** The diagnostic cost of a roll: the settle gap over the rolled quantity. */
  function RollCost(e: RollEvent, quantity: int, mult: real): real {
    (e.backSettle - e.frontSettle) * quantity as real * mult
  }

  datatype Rolled = Rolled(account: Account, count: nat, cost: real)

  /** On a roll date, moves the held front position to the back contract at the two settles. */
  function ExecuteRoll(rolls: map<int, RollEvent>, a: Account, day: int): Result<Rolled, Ledger.Error> {
    if day !in rolls || Quantity(a.book, rolls[day].front) == 0 then Success(Rolled(a, 0, 0.0))
    else
      var e := rolls[day];
      var quantity := Quantity(a.book, e.front);
      match RollAccount(a, e.front, e.back, e.frontSettle, e.backSettle)
      case Error(_, err) => Failure(err)
      case Ok(b) =>
        match MultiplierFor(e.back)
        case None => Failure(UnknownRoot)
        case Some(m) => Success(Rolled(b, 1, RollCost(e, quantity, m)))
  }

  /** Prior orders fill at this bar, its close becomes the mark, and the roll executes. */
  function Trade(cfg: Config, s: EngineState, bar: Bar): Result<EngineState, Ledger.Error>
    requires Shaped(s.account)
  {
    match Advanced(s.account, bar, cfg.slip)
    case Error(_, e) => Failure(e)
    case Ok(a) =>
      var rolled :- ExecuteRoll(cfg.rolls, a, Day(bar.ts));
      Success(s.(
        account := rolled.account,
        marks := s.marks[bar.contract := bar.close],
        fills := s.fills + |a.fills| - |s.account.fills|,
        rolls := s.rolls + rolled.count,
        rollCost := s.rollCost + rolled.cost))
  }

  /** Equity is marked at the close and the bar joins the history. */
  ghost function Value(cfg: Config, s: EngineState, bar: Bar): Result<EngineState, Ledger.Error> {
    if !Priceable(s.account.book, s.marks) then Failure(UnknownRoot)
    else
      Success(s.(
        closes := if cfg.survivalGate then s.closes[bar.contract := ClosesOf(s.closes, bar.contract) + [bar.close]] else s.closes,
        curve := s.curve + [Equity(cfg.start, s.account.book, s.marks)],
        history := s.history + [bar]))
  }

  ghost function Mark(cfg: Config, s: EngineState, bar: Bar): Result<EngineState, Ledger.Error>
    requires Shaped(s.account)
  {
    var t :- Trade(cfg, s, bar);
    Value(cfg, t, bar)
  }

  // ---------------------------------------------------------------------------------------------
  // Decide
  // ---------------------------------------------------------------------------------------------

  /** What one bar decides: at most one market order, and the counters it moves. */
  datatype Choice = Choice(order: Option<Order>, signalled: bool, capped: bool)

  const HOLD := Choice(None, false, false)

  function MarketOrder(c: Contract, side: Side, quantity: Count): Order {
    Order(c, side, quantity, Market)
  }

  /** The broker's trade gate. */
  predicate TradeAllowed(blockAll: bool, quantity: int) {
    quantity > 0 && !blockAll
  }

  /** A market order moving the position by `delta`, when there is one to place. */
  function OrderFor(blockAll: bool, c: Contract, delta: int): Option<Order> {
    if !TradeAllowed(blockAll, Abs(delta)) then None
    else Some(MarketOrder(c, if delta > 0 then Buy else Sell, Abs(delta)))
  }

  /** The stop-loss flattens a position whose adverse move from entry reaches the limit. */
  predicate StopHit(stop: Option<real>, b: Book, bar: Bar) {
    && stop.Some? && Quantity(b, bar.contract) != 0 && AvgEntry(b, bar.contract) > 0.0
    && var entry := AvgEntry(b, bar.contract);
       (if Quantity(b, bar.contract) > 0 then (entry - bar.close) / entry else (bar.close - entry) / entry) >= stop.value
  }

  function PriceReturns(closes: seq<real>): seq<real>
    requires |closes| > 0 && forall j | 0 <= j < |closes| - 1 :: closes[j] != 0.0
  {
    seq(|closes| - 1, j requires 0 <= j < |closes| - 1 => closes[j + 1] / closes[j] - 1.0)
  }

  /** Trailing price returns and the per-bar seed, when the survival gate has enough history. */
  function SurvivalInputs(cfg: Config, closes: seq<real>, barIndex: int): Result<Option<RiskManager.History>, Ledger.Error> {
    if !cfg.survivalGate || |closes| < MIN_CLOSES_FOR_SURVIVAL then Success(None)
    else if exists j :: 0 <= j < |closes| - 1 && closes[j] == 0.0 then Failure(ZeroClose)
    else Success(Some(RiskManager.History(PriceReturns(closes), cfg.survivalSeed + barIndex)))
  }

  /** Signed quantity to trade for a sized signal. */
  function ResolveDelta(cfg: Config, size: int, sig: Signal, b: Book): int {
    var signed := if sig.direction > 0 then size else -size;
    if cfg.targetPosition then signed - Quantity(b, sig.contract) else signed
  }

  function DecideSignal(cfg: Config, s: EngineState, bar: Bar, equity: real, sig: Signal): Result<Choice, Ledger.Error> {
    var b := s.account.book;
    if sig.direction == 0 then
      Success(Choice(if cfg.targetPosition then OrderFor(cfg.blockAll, sig.contract, -Quantity(b, sig.contract)) else None, true, false))
    else
      var history :- SurvivalInputs(cfg, ClosesOf(s.closes, sig.contract), |s.history| - 1);
      match cfg.sizer(sig.contract, sig.kelly, equity, bar.close, history)
      case None => Failure(SizingFailed)
      case Some(d) =>
        var capped := d.binding == RiskManager.SurvivalGate;
        if d.contracts <= 0 then Success(Choice(None, true, capped))
        else Success(Choice(OrderFor(cfg.blockAll, sig.contract, ResolveDelta(cfg, d.contracts, sig, b)), true, capped))
  }

  /** The decision on a marked bar; a ruined account never trades. */
  function Decide(cfg: Config, s: EngineState, bar: Bar, equity: real): Result<Choice, Ledger.Error> {
    var b := s.account.book;
    if equity <= 0.0 then Success(HOLD)
    else if StopHit(cfg.stopLoss, b, bar) && !cfg.blockAll then
      Success(Choice(OrderFor(cfg.blockAll, bar.contract, -Quantity(b, bar.contract)), false, false))
    else
      match cfg.strategy(s.history)
      case None => Success(HOLD)
      case Some(sig) => DecideSignal(cfg, s, bar, equity, sig)
  }

  function Act(s: EngineState, c: Choice): EngineState {
    s.(account := if c.order.Some? then Placed(s.account, c.order.value) else s.account,
       orders := s.orders + (if c.order.Some? then 1 else 0),
       signals := s.signals + (if c.signalled then 1 else 0),
       capped := s.capped + (if c.capped then 1 else 0))
  }

  ghost function BarStep(cfg: Config, s: EngineState, bar: Bar): Result<EngineState, Ledger.Error>
    requires Shaped(s.account)
  {
    var m :- Mark(cfg, s, bar);
    var c :- Decide(cfg, m, bar, m.curve[|m.curve| - 1]);
    Success(Act(m, c))
  }

  lemma RollKeepsOrders(rolls: map<int, RollEvent>, a: Account, day: int)
    requires ExecuteRoll(rolls, a, day).Success?
    ensures ExecuteRoll(rolls, a, day).value.account == a.(book := ExecuteRoll(rolls, a, day).value.account.book)
  {
  }

  /** The whole run: one step per bar, stopping at the first raise. */
  ghost function RunBars(cfg: Config, a: Account, bars: seq<Bar>): (r: Result<EngineState, Ledger.Error>)
    requires Shaped(a)
    ensures r.Success? ==> Shaped(r.value.account)
  {
    if |bars| == 0 then Success(Begin(a))
    else
      var s :- RunBars(cfg, a, bars[..|bars| - 1]);
      BarStep(cfg, s, bars[|bars| - 1])
  }

  // ---------------------------------------------------------------------------------------------
  // The engine object
  // ---------------------------------------------------------------------------------------------

  datatype RunResult = RunResult(
    barsProcessed: nat,
    signals: nat,
    ordersPlaced: nat,
    fills: int,
    finalEquity: real,
    realizedPnl: real,
    finalPositions: map<Contract, Position>,
    curve: seq<real>,
    capped: nat,
    rolls: nat,
    rollCost: real,
    tradePnls: seq<real>)

  function Report(start: real, s: EngineState, n: nat): RunResult {
    var b := s.account.book;
    RunResult(n, s.signals, s.orders, s.fills,
              if |s.curve| > 0 then s.curve[|s.curve| - 1] else start + b.realizedPnl,
              b.realizedPnl, b.positions, s.curve, s.capped, s.rolls, s.rollCost, b.tradePnls)
  }

  /** Open profit of one position, priced the way the loop prices it. */
  lemma OpenProfit(b: Book, marks: Marks, c: Contract)
    requires c in b.positions
    ensures c !in marks || b.positions[c].quantity == 0 ==> OpenValue(b, marks, c) == 0.0
    ensures c in marks && MultiplierFor(c).Some? ==>
              OpenValue(b, marks, c)
              == (marks[c] - b.positions[c].avgEntry) * b.positions[c].quantity as real * MultiplierFor(c).value
  {
  }

  /** Sums the open profit of every position at its last-seen close; None where that raises. */
  method MarkToMarket(realizedEquity: real, b: Book, marks: Marks) returns (equity: Option<real>)
    ensures equity.Some? <==> Priceable(b, marks)
    ensures equity.Some? ==> equity.value == realizedEquity + Total(OpenValues(b, marks))
  {
    var unrealized := 0.0;
    var left := b.positions.Keys;
    ghost var rest := OpenValues(b, marks);
    while left != {}
      invariant left <= b.positions.Keys && rest.Keys == left
      invariant forall c | c in left :: rest[c] == OpenValue(b, marks, c)
      invariant unrealized + Total(rest) == Total(OpenValues(b, marks))
      invariant forall c | c in b.positions && c !in left && b.positions[c].quantity != 0 && c in marks :: MultiplierFor(c).Some?
      decreases left
    {
      var c :| c in left;
      var p := b.positions[c];
      var profit := 0.0;
      if p.quantity != 0 && c in marks {
        if MultiplierFor(c).None? {
          return None;
        }
        profit := (marks[c] - p.avgEntry) * p.quantity as real * MultiplierFor(c).value;
      }
      OpenProfit(b, marks, c);
      assert profit == rest[c];
      unrealized := unrealized + profit;
      TotalRemove(rest, c);
      rest := rest - {c};
      left := left - {c};
    }
    equity := Some(realizedEquity + unrealized);
  }

  class BacktestEngine {
    const cfg: Config
    const broker: MockBroker

    constructor (cfg: Config, broker: MockBroker)
      requires cfg.start == broker.startingEquity && cfg.blockAll == broker.blockAllTrades
      ensures this.cfg == cfg && this.broker == broker
    {
      this.cfg, this.broker := cfg, broker;
    }

    /** Runs the bars through the broker, deciding once per bar. */
    method Run(bars: seq<Bar>) returns (r: Result<RunResult, Ledger.Error>)
      requires Shaped(broker.State())
      modifies broker
      ensures match old(RunBars(cfg, broker.State(), bars))
              case Failure(e) => r == Failure(e)
              case Success(s) => r == Success(Report(cfg.start, s, |bars|)) && broker.State() == s.account
    {
      ghost var before := broker.State();
      var s := Begin(broker.State());
      for i := 0 to |bars|
        invariant broker.State() == s.account && Shaped(s.account)
        invariant RunBars(cfg, before, bars[..i]) == Success(s)
      {
        assert bars[..i + 1][..i] == bars[..i];
        var next := ProcessBar(s, bars[i]);
        if next.Failure? {
          RunStopped(cfg, before, bars, i);
          return Failure(next.error);
        }
        s := next.value;
      }
      assert bars[..|bars|] == bars;
      r := Success(Report(cfg.start, s, |bars|));
    }

    /** One turn of the loop: fill, roll, mark, decide, place. */
    method ProcessBar(s: EngineState, bar: Bar) returns (r: Result<EngineState, Ledger.Error>)
      requires Shaped(s.account) && broker.State() == s.account
      modifies broker
      ensures r == BarStep(cfg, s, bar)
      ensures r.Success? ==> broker.State() == r.value.account && Shaped(r.value.account)
    {
      var marked := MarkBar(s, bar);
      if marked.Failure? {
        return marked;
      }
      var m := marked.value;
      var choice := Decide(cfg, m, bar, m.curve[|m.curve| - 1]);
      if choice.Failure? {
        return Failure(choice.error);
      }
      if choice.value.order.Some? {
        var _ := broker.PlaceOrder(choice.value.order.value);
      }
      r := Success(Act(m, choice.value));
    }

    method MarkBar(s: EngineState, bar: Bar) returns (r: Result<EngineState, Ledger.Error>)
      requires Shaped(s.account) && broker.State() == s.account
      modifies broker
      ensures r == Mark(cfg, s, bar)
      ensures r.Success? ==> broker.State() == r.value.account && Shaped(r.value.account) && |r.value.curve| > 0
    {
      r := FillAndRoll(s, bar);
      if r.Failure? {
        return;
      }
      var t := r.value;
      var equity := MarkToMarket(cfg.start + broker.realizedPnl, t.account.book, t.marks);
      if equity.None? {
        return Failure(UnknownRoot);
      }
      var closes := t.closes;
      if cfg.survivalGate {
        closes := closes[bar.contract := ClosesOf(closes, bar.contract) + [bar.close]];
      }
      r := Success(t.(closes := closes, curve := t.curve + [equity.value], history := t.history + [bar]));
    }

    method FillAndRoll(s: EngineState, bar: Bar) returns (r: Result<EngineState, Ledger.Error>)
      requires Shaped(s.account) && broker.State() == s.account
      modifies broker
      ensures r == Trade(cfg, s, bar)
      ensures r.Success? ==> broker.State() == r.value.account && Shaped(r.value.account)
    {
      var failed := broker.Advance(bar, cfg.slip);
      if failed.Some? {
        return Failure(failed.value);
      }
      var fills := s.fills + |broker.fills| - |s.account.fills|;
      ghost var advanced := broker.State();
      var rolled := Roll(Day(bar.ts));
      if rolled.Failure? {
        return Failure(rolled.error);
      }
      RollKeepsOrders(cfg.rolls, advanced, Day(bar.ts));
      r := Success(s.(account := broker.State(), marks := s.marks[bar.contract := bar.close], fills := fills,
                      rolls := s.rolls + rolled.value.0, rollCost := s.rollCost + rolled.value.1));
    }

    method Roll(day: int) returns (r: Result<(nat, real), Ledger.Error>)
      requires Shaped(broker.State())
      modifies broker
      ensures match old(ExecuteRoll(cfg.rolls, broker.State(), day))
              case Failure(e) => r == Failure(e)
              case Success(x) => r == Success((x.count, x.cost)) && broker.State() == x.account
    {
      if day !in cfg.rolls {
        return Success((0, 0.0));
      }
      var e := cfg.rolls[day];
      if Quantity(broker.BookState(), e.front) == 0 {
        return Success((0, 0.0));
      }
      var rolled, failed := broker.RollPosition(e.front, e.back, e.frontSettle, e.backSettle);
      if failed.Some? {
        return Failure(failed.value);
      }
      if MultiplierFor(e.back).None? {
        return Failure(UnknownRoot);
      }
      r := Success((1, RollCost(e, rolled, MultiplierFor(e.back).value)));
    }
  }

  /** A raise on bar `i` is the outcome of the whole run. */
  lemma {:induction false} RunStopped(cfg: Config, a: Account, bars: seq<Bar>, i: nat)
    requires Shaped(a) && i < |bars| && RunBars(cfg, a, bars[..i + 1]).Failure?
    ensures RunBars(cfg, a, bars) == RunBars(cfg, a, bars[..i + 1])
    decreases |bars|
  {
    if i + 1 < |bars| {
      var shorter := bars[..|bars| - 1];
      assert shorter[..i + 1] == bars[..i + 1];
      RunStopped(cfg, a, shorter, i);
    } else {
      assert bars[..i + 1] == bars;
    }
  }
}
