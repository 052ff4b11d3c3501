/** The date-axis portfolio loop: futur3/engine/portfolio_backtest.py. Streams are numbered in the order
  * of their keys; within a date their bars come in that order. */
module Portfolio {
  import opened Wrappers
  import opened Contracts
  import opened Sorting
  import opened Ledger
  import opened Broker
  import opened Valuation
  import opened Backtest

  /** A bar of stream `stream`. */
  datatype Item = Item(stream: nat, bar: Bar)

  type Histories = seq<seq<Bar>>

  /** A strategy's signal for one stream; its contract is the one to trade. */
  datatype Leg = Leg(stream: nat, signal: Signal)

  /** The strategy and the leg weights see the history; the strategy's legs come in contract order.
    * The weights are None where they raise, and one throughout when risk parity is off. */
  datatype PConfig = PConfig(
    start: real,
    blockAll: bool,
    strategy: Histories -> seq<Leg>,
    weights: (Histories, seq<Leg>) -> Option<nat -> real>,
    sizer: (Contract, real, real, real) -> Option<int>,
    slip: Option<Slippage>,
    targetPosition: bool,
    rolls: map<int, seq<RollEvent>>)

  datatype PState = PState(
    account: Account,
    history: Histories,
    marks: Marks,
    curve: seq<real>,
    signals: nat,
    orders: nat,
    fills: int,
    rolls: nat,
    rollCost: real)

  function DayOf(i: Item): int {
    Day(i.bar.ts)
  }

  function Start(a: Account, streams: nat): PState {
    PState(a, seq(streams, i => []), map[], [], 0, 0, 0, 0, 0.0)
  }

  // ---------------------------------------------------------------------------------------------
  // The steps of one date
  // ---------------------------------------------------------------------------------------------

  function AddBar(h: Histories, i: Item): (r: Histories)
    ensures |r| == |h|
  {
    if i.stream < |h| then h[i.stream := h[i.stream] + [i.bar]] else h
  }

  /** One bar of the date: earlier orders fill, its close becomes the mark, it joins its history. */
  function AdvanceItem(cfg: PConfig, s: PState, i: Item): Result<PState, Ledger.Error>
    requires Shaped(s.account)
  {
    match Advanced(s.account, i.bar, cfg.slip)
    case Error(_, e) => Failure(e)
    case Ok(a) =>
      Success(s.(account := a, marks := s.marks[i.bar.contract := i.bar.close], history := AddBar(s.history, i),
                 fills := s.fills + |a.fills| - |s.account.fills|))
  }

  function AdvanceItems(cfg: PConfig, s: PState, items: seq<Item>): (r: Result<PState, Ledger.Error>)
    requires Shaped(s.account)
    ensures r.Success? ==> Shaped(r.value.account)
  {
    if |items| == 0 then Success(s)
    else
      var t :- AdvanceItems(cfg, s, items[..|items| - 1]);
      AdvanceItem(cfg, t, items[|items| - 1])
  }

  /** One roll, as far as the front is held. */
  function RollOne(s: PState, e: RollEvent): Result<PState, Ledger.Error> {
    if Quantity(s.account.book, e.front) == 0 then Success(s)
    else
      match RollAccount(s.account, e.front, e.back, e.frontSettle, e.backSettle)
      case Error(_, err) => Failure(err)
      case Ok(a) =>
        match MultiplierFor(e.back)
        case None => Failure(UnknownRoot)
        case Some(m) => Success(s.(account := a, rolls := s.rolls + 1, rollCost := s.rollCost + RollCost(e, Quantity(s.account.book, e.front), m)))
  }

  function RollAll(s: PState, events: seq<RollEvent>): Result<PState, Ledger.Error> {
    if |events| == 0 then Success(s)
    else
      var t :- RollAll(s, events[..|events| - 1]);
      RollOne(t, events[|events| - 1])
  }

  function RollsOn(cfg: PConfig, day: int): seq<RollEvent> {
    if day in cfg.rolls then cfg.rolls[day] else []
  }

  /** One equity point for the date. */
  ghost function MarkDate(cfg: PConfig, s: PState): Result<PState, Ledger.Error> {
    if !Priceable(s.account.book, s.marks) then Failure(UnknownRoot)
    else Success(s.(curve := s.curve + [Equity(cfg.start, s.account.book, s.marks)]))
  }

  /** A leg's Kelly fraction, rescaled by its stream's weight. */
  function LegKelly(weight: nat -> real, leg: Leg): real {
    leg.signal.kelly * weight(leg.stream)
  }

  /** The order for one leg; all legs net against the same book. */
  function LegOrder(cfg: PConfig, s: PState, equity: real, weight: nat -> real, leg: Leg): Result<Option<Order>, Ledger.Error> {
    var sig := leg.signal;
    var c := sig.contract;
    if c !in s.marks then Success(None)
    else if sig.direction == 0 then
      Success(if cfg.targetPosition then OrderFor(cfg.blockAll, c, -Quantity(s.account.book, c)) else None)
    else
      match cfg.sizer(c, LegKelly(weight, leg), equity, s.marks[c])
      case None => Failure(SizingFailed)
      case Some(size) =>
        if size <= 0 then Success(None)
        else
          var signed := if sig.direction > 0 then size else -size;
          Success(OrderFor(cfg.blockAll, c, if cfg.targetPosition then signed - Quantity(s.account.book, c) else signed))
  }

  function PlaceLeg(cfg: PConfig, s: PState, equity: real, weight: nat -> real, leg: Leg): Result<PState, Ledger.Error> {
    var o :- LegOrder(cfg, s, equity, weight, leg);
    Success(if o.Some? then s.(account := Placed(s.account, o.value), orders := s.orders + 1) else s)
  }

  function PlaceLegs(cfg: PConfig, s: PState, equity: real, weight: nat -> real, legs: seq<Leg>): Result<PState, Ledger.Error> {
    if |legs| == 0 then Success(s)
    else
      var t :- PlaceLegs(cfg, s, equity, weight, legs[..|legs| - 1]);
      PlaceLeg(cfg, t, equity, weight, legs[|legs| - 1])
  }

  /** The decision on a marked date; a ruined account places nothing. */
  function DecideDate(cfg: PConfig, s: PState, equity: real): Result<PState, Ledger.Error> {
    if equity <= 0.0 then Success(s)
    else
      var legs := cfg.strategy(s.history);
      if |legs| == 0 then Success(s)
      else
        match cfg.weights(s.history, legs)
        case None => Failure(SizingFailed)
        case Some(weight) => PlaceLegs(cfg, s.(signals := s.signals + |legs|), equity, weight, legs)
  }

  ghost function DateStep(cfg: PConfig, s: PState, day: int, items: seq<Item>): Result<PState, Ledger.Error>
    requires Shaped(s.account)
  {
    var filled :- AdvanceItems(cfg, s, items);
    var rolled :- RollAll(filled, RollsOn(cfg, day));
    var marked :- MarkDate(cfg, rolled);
    DecideDate(cfg, marked, marked.curve[|marked.curve| - 1])
  }

  // ---------------------------------------------------------------------------------------------
  // The run, one step per date
  // ---------------------------------------------------------------------------------------------

  /** Where the run of items of the last item's day that ends at `i` begins. */
  function GroupStart(items: seq<Item>, i: nat): (p: nat)
    requires i < |items|
    ensures p <= i
  {
    if i == 0 || DayOf(items[i - 1]) != DayOf(items[|items| - 1]) then i else GroupStart(items, i - 1)
  }

  ghost function RunDates(cfg: PConfig, a: Account, streams: nat, items: seq<Item>): (r: Result<PState, Ledger.Error>)
    requires Shaped(a)
    ensures r.Success? ==> Shaped(r.value.account)
    decreases |items|
  {
    if |items| == 0 then Success(Start(a, streams))
    else
      var p := GroupStart(items, |items| - 1);
      var s :- RunDates(cfg, a, streams, items[..p]);
      var n := DateStep(cfg, s, DayOf(items[|items| - 1]), items[p..]);
      if n.Success? then DateStepKeepsShape(cfg, s, DayOf(items[|items| - 1]), items[p..]); n else n
  }

  lemma {:induction false} RollAllKeepsOrders(s: PState, events: seq<RollEvent>)
    requires RollAll(s, events).Success?
    ensures var t := RollAll(s, events).value;
            && t.account == s.account.(book := t.account.book) && t.curve == s.curve && t.history == s.history && t.marks == s.marks
  {
    if |events| > 0 {
      RollAllKeepsOrders(s, events[..|events| - 1]);
    }
  }

  /** Placing only appends unfilled market orders. */
  ghost predicate OnlyPlaced(s: PState, t: PState) {
    && t.account.book == s.account.book && t.account.fills == s.account.fills && t.account.cancelled == s.account.cancelled
    && s.account.orders <= t.account.orders && s.account.filled <= t.account.filled
    && |t.account.filled| - |s.account.filled| == |t.account.orders| - |s.account.orders|
    && (forall id | |s.account.orders| <= id < |t.account.orders| :: t.account.orders[id].kind == Market)
    && t.curve == s.curve && t.history == s.history && t.marks == s.marks
  }

  lemma PlaceLegOnly(cfg: PConfig, s: PState, equity: real, weight: nat -> real, leg: Leg)
    requires PlaceLeg(cfg, s, equity, weight, leg).Success?
    ensures OnlyPlaced(s, PlaceLeg(cfg, s, equity, weight, leg).value)
  {
  }

  lemma {:induction false} PlaceLegsOnly(cfg: PConfig, s: PState, equity: real, weight: nat -> real, legs: seq<Leg>)
    requires PlaceLegs(cfg, s, equity, weight, legs).Success?
    ensures OnlyPlaced(s, PlaceLegs(cfg, s, equity, weight, legs).value)
  {
    if |legs| > 0 {
      PlaceLegsOnly(cfg, s, equity, weight, legs[..|legs| - 1]);
      PlaceLegOnly(cfg, PlaceLegs(cfg, s, equity, weight, legs[..|legs| - 1]).value, equity, weight, legs[|legs| - 1]);
    }
  }

  lemma DecideOnlyPlaces(cfg: PConfig, s: PState, equity: real)
    requires DecideDate(cfg, s, equity).Success?
    ensures OnlyPlaced(s, DecideDate(cfg, s, equity).value)
  {
    var legs := cfg.strategy(s.history);
    if equity > 0.0 && |legs| > 0 {
      var weight := cfg.weights(s.history, legs).value;
      PlaceLegsOnly(cfg, s.(signals := s.signals + |legs|), equity, weight, legs);
    }
  }

  lemma DateStepKeepsShape(cfg: PConfig, s: PState, day: int, items: seq<Item>)
    requires Shaped(s.account) && DateStep(cfg, s, day, items).Success?
    ensures Shaped(DateStep(cfg, s, day, items).value.account)
  {
    var filled := AdvanceItems(cfg, s, items).value;
    RollAllKeepsOrders(filled, RollsOn(cfg, day));
    var marked := MarkDate(cfg, RollAll(filled, RollsOn(cfg, day)).value).value;
    DecideOnlyPlaces(cfg, marked, marked.curve[|marked.curve| - 1]);
  }

  /** The bars of all streams in stream order. */
  function Flatten(h: Histories): seq<Item> {
    if |h| == 0 then [] else Flatten(h[..|h| - 1]) + Items(|h| - 1, h[|h| - 1])
  }

  function Items(stream: nat, bars: seq<Bar>): (r: seq<Item>)
    ensures |r| == |bars|
  {
    if |bars| == 0 then [] else Items(stream, bars[..|bars| - 1]) + [Item(stream, bars[|bars| - 1])]
  }

  /** By date, then stream, then bar order. */
  function Indexed(h: Histories): seq<Item> {
    SortBy(DayOf, Flatten(h))
  }

  // ---------------------------------------------------------------------------------------------
  // The engine object
  // ---------------------------------------------------------------------------------------------

  /** A stretch of one day's items, begun where the day changes, is the last group up to its end. */
  lemma {:induction false} GroupStartIs(items: seq<Item>, i: nat, k: nat)
    requires i <= k < |items| && (i > 0 ==> DayOf(items[i - 1]) != DayOf(items[i]))
    requires forall x | i <= x < |items| :: DayOf(items[x]) == DayOf(items[i])
    ensures GroupStart(items, k) == i
  {
    if k > i {
      GroupStartIs(items, i, k - 1);
    }
  }

  /** The end of the group starting at `i`: the next day change. */
  ghost predicate IsGroup(items: seq<Item>, i: nat, j: nat) {
    && i < j <= |items| && (i > 0 ==> DayOf(items[i - 1]) != DayOf(items[i])) && (j < |items| ==> DayOf(items[j - 1]) != DayOf(items[j]))
    && forall x | i <= x < j :: DayOf(items[x]) == DayOf(items[i])
  }

  lemma RunLastGroup(cfg: PConfig, a: Account, streams: nat, items: seq<Item>, p: nat)
    requires Shaped(a) && |items| > 0 && p == GroupStart(items, |items| - 1) && RunDates(cfg, a, streams, items[..p]).Success?
    ensures RunDates(cfg, a, streams, items)
            == DateStep(cfg, RunDates(cfg, a, streams, items[..p]).value, DayOf(items[|items| - 1]), items[p..])
  {
  }

  lemma GroupSlices(items: seq<Item>, i: nat, j: nat)
    requires IsGroup(items, i, j)
    ensures GroupStart(items[..j], j - 1) == i && items[..j][..i] == items[..i] && items[..j][i..] == items[i..j]
    ensures DayOf(items[..j][j - 1]) == DayOf(items[i])
  {
    GroupStartIs(items[..j], i, j - 1);
  }

  lemma RunGroup(cfg: PConfig, a: Account, streams: nat, items: seq<Item>, i: nat, j: nat)
    requires Shaped(a) && IsGroup(items, i, j) && RunDates(cfg, a, streams, items[..i]).Success?
    ensures RunDates(cfg, a, streams, items[..j]) == DateStep(cfg, RunDates(cfg, a, streams, items[..i]).value, DayOf(items[i]), items[i..j])
  {
    GroupSlices(items, i, j);
    RunLastGroup(cfg, a, streams, items[..j], i);
  }

  /** A raise on one date is the outcome of the whole run. */
  lemma {:induction false} DatesStopped(cfg: PConfig, a: Account, streams: nat, items: seq<Item>, j: nat)
    requires Shaped(a) && 0 < j <= |items| && (j < |items| ==> DayOf(items[j - 1]) != DayOf(items[j]))
    requires RunDates(cfg, a, streams, items[..j]).Failure?
    ensures RunDates(cfg, a, streams, items) == RunDates(cfg, a, streams, items[..j])
    decreases |items|
  {
    if j == |items| {
      assert items[..j] == items;
    } else {
      var p := GroupStart(items, |items| - 1);
      GroupStartPast(items, |items| - 1, j);
      assert items[..p][..j] == items[..j];
      DatesStopped(cfg, a, streams, items[..p], j);
    }
  }

  lemma {:induction false} GroupStartPast(items: seq<Item>, i: nat, j: nat)
    requires 0 < j <= i < |items| && DayOf(items[j - 1]) != DayOf(items[j])
    requires forall x | i <= x < |items| :: DayOf(items[x]) == DayOf(items[|items| - 1])
    ensures j <= GroupStart(items, i)
  {
    if DayOf(items[i - 1]) == DayOf(items[|items| - 1]) && j < i {
      GroupStartPast(items, i - 1, j);
    }
  }

  /** The result record of a run; the survival counter is the single-stream engine's alone. */
  function PortfolioReport(start: real, s: PState, n: nat): RunResult {
    var b := s.account.book;
    RunResult(n, s.signals, s.orders, s.fills,
              if |s.curve| > 0 then s.curve[|s.curve| - 1] else start + b.realizedPnl,
              b.realizedPnl, b.positions, s.curve, 0, s.rolls, s.rollCost, b.tradePnls)
  }

  /** The bars of one date, from its first. */
  method GroupEnd(items: seq<Item>, i: nat) returns (j: nat)
    requires i < |items| && (i > 0 ==> DayOf(items[i - 1]) != DayOf(items[i]))
    ensures IsGroup(items, i, j)
  {
    j := i + 1;
    while j < |items| && DayOf(items[j]) == DayOf(items[i])
      invariant i < j <= |items| && forall x | i <= x < j :: DayOf(items[x]) == DayOf(items[i])
    {
      j := j + 1;
    }
  }

  class PortfolioEngine {
    const cfg: PConfig
    const broker: MockBroker

    constructor (cfg: PConfig, broker: MockBroker)
      requires cfg.start == broker.startingEquity && cfg.blockAll == broker.blockAllTrades
      ensures this.cfg == cfg && this.broker == broker
    {
      this.cfg, this.broker := cfg, broker;
    }

    /** Walks the dates: fill, roll, mark, decide, place. */
    method Run(histories: Histories) returns (r: Result<RunResult, Ledger.Error>)
      requires Shaped(broker.State())
      modifies broker
      ensures match old(RunDates(cfg, broker.State(), |histories|, Indexed(histories)))
              case Failure(e) => r == Failure(e)
              case Success(s) => r == Success(PortfolioReport(cfg.start, s, |Indexed(histories)|)) && broker.State() == s.account
    {
      var s := RunStates(histories);
      if s.Failure? {
        return Failure(s.error);
      }
      r := Success(PortfolioReport(cfg.start, s.value, |Indexed(histories)|));
    }

    method RunStates(histories: Histories) returns (r: Result<PState, Ledger.Error>)
      requires Shaped(broker.State())
      modifies broker
      ensures r == old(RunDates(cfg, broker.State(), |histories|, Indexed(histories)))
      ensures r.Success? ==> broker.State() == r.value.account
    {
      ghost var before := broker.State();
      var items := Indexed(histories);
      var s := Start(broker.State(), |histories|);
      var i := 0;
      while i < |items|
        invariant i <= |items| && broker.State() == s.account && Shaped(s.account)
        invariant RunDates(cfg, before, |histories|, items[..i]) == Success(s)
        invariant 0 < i < |items| ==> DayOf(items[i - 1]) != DayOf(items[i])
      {
        var j := GroupEnd(items, i);
        RunGroup(cfg, before, |histories|, items, i, j);
        var next := ProcessDate(s, DayOf(items[i]), items[i..j]);
        if next.Failure? {
          DatesStopped(cfg, before, |histories|, items, j);
          return next;
        }
        s, i := next.value, j;
      }
      assert items[..|items|] == items;
      r := Success(s);
    }

    method ProcessDate(s: PState, day: int, items: seq<Item>) returns (r: Result<PState, Ledger.Error>)
      requires Shaped(s.account) && broker.State() == s.account
      modifies broker
      ensures r == DateStep(cfg, s, day, items)
      ensures r.Success? ==> broker.State() == r.value.account && Shaped(r.value.account)
    {
      r := AdvanceAll(s, items);
      if r.Failure? {
        return;
      }
      ghost var filled := r.value;
      r := ExecuteRolls(r.value, RollsOn(cfg, day));
      if r.Failure? {
        return;
      }
      RollAllKeepsOrders(filled, RollsOn(cfg, day));
      var equity := MarkToMarket(cfg.start + broker.realizedPnl, r.value.account.book, r.value.marks);
      if equity.None? {
        return Failure(UnknownRoot);
      }
      var marked := r.value.(curve := r.value.curve + [equity.value]);
      r := PlaceSignals(marked, equity.value);
      if r.Success? {
        DecideOnlyPlaces(cfg, marked, equity.value);
      }
    }

    method AdvanceAll(s: PState, items: seq<Item>) returns (r: Result<PState, Ledger.Error>)
      requires Shaped(s.account) && broker.State() == s.account
      modifies broker
      ensures r == AdvanceItems(cfg, s, items)
      ensures r.Success? ==> broker.State() == r.value.account && Shaped(r.value.account)
    {
      var t := s;
      for k := 0 to |items|
        invariant broker.State() == t.account && Shaped(t.account)
        invariant AdvanceItems(cfg, s, items[..k]) == Success(t)
      {
        assert items[..k + 1][..k] == items[..k];
        var i := items[k];
        var failed := broker.Advance(i.bar, cfg.slip);
        if failed.Some? {
          ItemsStopped(cfg, s, items, k + 1);
          return Failure(failed.value);
        }
        t := t.(account := broker.State(), marks := t.marks[i.bar.contract := i.bar.close], history := AddBar(t.history, i),
                fills := t.fills + |broker.fills| - |t.account.fills|);
      }
      assert items[..|items|] == items;
      r := Success(t);
    }

    method ExecuteRolls(s: PState, events: seq<RollEvent>) returns (r: Result<PState, Ledger.Error>)
      requires broker.State() == s.account
      modifies broker
      ensures r == RollAll(s, events)
      ensures r.Success? ==> broker.State() == r.value.account
    {
      var t := s;
      for k := 0 to |events|
        invariant broker.State() == t.account
        invariant RollAll(s, events[..k]) == Success(t)
      {
        assert events[..k + 1][..k] == events[..k];
        var next := ExecuteRoll(t, events[k]);
        if next.Failure? {
          RollsStopped(s, events, k + 1);
          return next;
        }
        t := next.value;
      }
      assert events[..|events|] == events;
      r := Success(t);
    }

    method ExecuteRoll(s: PState, e: RollEvent) returns (r: Result<PState, Ledger.Error>)
      requires broker.State() == s.account
      modifies broker
      ensures r == RollOne(s, e)
      ensures r.Success? ==> broker.State() == r.value.account
    {
      var rolled, failed := broker.RollPosition(e.front, e.back, e.frontSettle, e.backSettle);
      if failed.Some? {
        return Failure(failed.value);
      }
      if rolled == 0 {
        return Success(s);
      }
      if MultiplierFor(e.back).None? {
        return Failure(UnknownRoot);
      }
      r := Success(s.(account := broker.State(), rolls := s.rolls + 1, rollCost := s.rollCost + RollCost(e, rolled, MultiplierFor(e.back).value)));
    }

    method PlaceSignals(s: PState, equity: real) returns (r: Result<PState, Ledger.Error>)
      requires broker.State() == s.account
      modifies broker
      ensures r == DecideDate(cfg, s, equity)
      ensures r.Success? ==> broker.State() == r.value.account
    {
      if equity <= 0.0 {
        return Success(s);
      }
      var legs := cfg.strategy(s.history);
      if |legs| == 0 {
        return Success(s);
      }
      var weights := cfg.weights(s.history, legs);
      if weights.None? {
        return Failure(SizingFailed);
      }
      r := PlaceEach(s.(signals := s.signals + |legs|), equity, weights.value, legs);
    }

    /** The signals' orders, leg by leg, until one cannot be sized. */
    method PlaceEach(s: PState, equity: real, weight: nat -> real, legs: seq<Leg>) returns (r: Result<PState, Ledger.Error>)
      requires broker.State() == s.account
      modifies broker
      ensures r == PlaceLegs(cfg, s, equity, weight, legs)
      ensures r.Success? ==> broker.State() == r.value.account
    {
      var t := s;
      for k := 0 to |legs|
        invariant broker.State() == t.account
        invariant PlaceLegs(cfg, s, equity, weight, legs[..k]) == Success(t)
      {
        assert legs[..k + 1][..k] == legs[..k];
        var o := LegOrder(cfg, t, equity, weight, legs[k]);
        if o.Failure? {
          LegsStopped(cfg, s, equity, weight, legs, k + 1);
          return Failure(o.error);
        }
        if o.value.Some? {
          var _ := broker.PlaceOrder(o.value.value);
          t := t.(account := broker.State(), orders := t.orders + 1);
        }
      }
      assert legs[..|legs|] == legs;
      r := Success(t);
    }
  }

  lemma {:induction false} ItemsStopped(cfg: PConfig, s: PState, items: seq<Item>, k: nat)
    requires Shaped(s.account) && k <= |items| && AdvanceItems(cfg, s, items[..k]).Failure?
    ensures AdvanceItems(cfg, s, items) == AdvanceItems(cfg, s, items[..k])
    decreases |items|
  {
    if k < |items| {
      assert items[..|items| - 1][..k] == items[..k];
      ItemsStopped(cfg, s, items[..|items| - 1], k);
    } else {
      assert items[..k] == items;
    }
  }

  lemma {:induction false} RollsStopped(s: PState, events: seq<RollEvent>, k: nat)
    requires k <= |events| && RollAll(s, events[..k]).Failure?
    ensures RollAll(s, events) == RollAll(s, events[..k])
    decreases |events|
  {
    if k < |events| {
      assert events[..|events| - 1][..k] == events[..k];
      RollsStopped(s, events[..|events| - 1], k);
    } else {
      assert events[..k] == events;
    }
  }

  lemma {:induction false} LegsStopped(cfg: PConfig, s: PState, equity: real, weight: nat -> real, legs: seq<Leg>, k: nat)
    requires k <= |legs| && PlaceLegs(cfg, s, equity, weight, legs[..k]).Failure?
    ensures PlaceLegs(cfg, s, equity, weight, legs) == PlaceLegs(cfg, s, equity, weight, legs[..k])
    decreases |legs|
  {
    if k < |legs| {
      assert legs[..|legs| - 1][..k] == legs[..k];
      LegsStopped(cfg, s, equity, weight, legs[..|legs| - 1], k);
    } else {
      assert legs[..k] == legs;
    }
  }
}
