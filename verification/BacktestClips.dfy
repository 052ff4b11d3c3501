/** The engine's default mode on a single-contract stream: every signal adds its sized clip. */
module BacktestClips {
  import opened Wrappers
  import opened Contracts
  import opened Ledger
  import opened Broker
  import opened Valuation
  import opened Backtest
  import opened BacktestTarget
  import opened BacktestBudgets

  /** One contract, signalled and streamed, without netting and without rolls. */
  ghost predicate ClipStream(cfg: Config, c: Contract) {
    && !cfg.targetPosition && cfg.rolls == map[]
    && forall h: seq<Bar> :: cfg.strategy(h).Some? ==> cfg.strategy(h).value.contract == c
  }

  /** What the last bar adds at `equity`: the size the sizer grants its signal, long or short as the signal's
    * sign, and nothing without a direction, without a grant, without equity or under a trade block. */
  function ClipOn(cfg: Config, bars: seq<Bar>, equity: real): int
    requires |bars| > 0
  {
    if equity <= 0.0 || cfg.blockAll || cfg.strategy(bars).None? || cfg.strategy(bars).value.direction == 0 then 0
    else
      var sig := cfg.strategy(bars).value;
      match SurvivalInputs(cfg, Closes(bars), |bars| - 1)
      case Failure(_) => 0
      case Success(history) =>
        match cfg.sizer(sig.contract, sig.kelly, equity, bars[|bars| - 1].close, history)
        case None => 0
        case Some(d) => if d.contracts <= 0 then 0 else if sig.direction > 0 then d.contracts else -d.contracts
  }

  /** The clip of the last bar of a run, at the run's own equity. */
  ghost function ClipAt(cfg: Config, bars: seq<Bar>): int
    requires |bars| > 0
  {
    match RunBars(cfg, NEW_ACCOUNT, bars)
    case Failure(_) => 0
    case Success(n) => if |n.curve| == 0 then 0 else ClipOn(cfg, bars, n.curve[|n.curve| - 1])
  }

  /** The stop flattens at the last bar of a run. */
  ghost predicate StopsAt(cfg: Config, bars: seq<Bar>)
    requires |bars| > 0
  {
    && RunBars(cfg, NEW_ACCOUNT, bars[..|bars| - 1]).Success? && MarkedAt(cfg, bars).Success?
    && var m := MarkedAt(cfg, bars).value;
       |m.curve| > 0 && m.curve[|m.curve| - 1] > 0.0 && !cfg.blockAll && StopHit(cfg.stopLoss, m.account.book, bars[|bars| - 1])
  }

  /** Every clip since the last stop. */
  ghost function ClipsHeld(cfg: Config, bars: seq<Bar>): int {
    if |bars| == 0 then 0
    else if StopsAt(cfg, bars) then 0
    else ClipsHeld(cfg, bars[..|bars| - 1]) + ClipAt(cfg, bars)
  }

  ghost function ClipSum(cfg: Config, bars: seq<Bar>): int {
    if |bars| == 0 then 0 else ClipSum(cfg, bars[..|bars| - 1]) + ClipAt(cfg, bars)
  }

  lemma {:induction false} NoStopSums(cfg: Config, bars: seq<Bar>)
    requires cfg.stopLoss.None?
    ensures ClipsHeld(cfg, bars) == ClipSum(cfg, bars)
  {
    if |bars| > 0 {
      NoStopSums(cfg, bars[..|bars| - 1]);
    }
  }

  /** The stop is hit exactly when the position's open loss at the close reaches that share of its entry value. */
  lemma StopIsOpenLoss(stop: real, b: Book, bar: Bar)
    requires Quantity(b, bar.contract) != 0 && AvgEntry(b, bar.contract) > 0.0 && Mult(bar.contract) > 0.0
    ensures StopHit(Some(stop), b, bar)
            <==> -OpenValue(b, map[bar.contract := bar.close], bar.contract)
                 >= stop * (AvgEntry(b, bar.contract) * Abs(Quantity(b, bar.contract)) as real * Mult(bar.contract))
  {
    var q, entry, m := Quantity(b, bar.contract), AvgEntry(b, bar.contract), Mult(bar.contract);
    var move := if q > 0 then entry - bar.close else bar.close - entry;
    var size := Abs(q) as real * m;
    LossIs(q, entry, bar.close, m);
    ShareOfEntry(move, entry, stop);
    ScaleBoth(move, stop * entry, size);
    Rearranged(stop, entry, Abs(q) as real, m);
  }

  lemma LossIs(q: int, entry: real, close: real, m: real)
    ensures -(close * q as real * m - entry * q as real * m) == (if q > 0 then entry - close else close - entry) * (Abs(q) as real * m)
  {
    if q > 0 {
      LossOf(entry - close, q as real, m, entry, close);
    } else {
      LossOf(close - entry, -(q as real), m, close, entry);
    }
  }

  lemma LossOf(move: real, q: real, m: real, hi: real, lo: real)
    requires move == hi - lo
    ensures move * (q * m) == hi * q * m - lo * q * m
  {
  }

  lemma ShareOfEntry(move: real, entry: real, stop: real)
    requires entry > 0.0
    ensures move / entry >= stop <==> move >= stop * entry
  {
    var share := move / entry;
    assert share * entry == move;
    var bound := stop * entry;
    OrderTimes(share, stop, entry, move, bound);
  }

  lemma OrderTimes(x: real, y: real, d: real, a: real, b: real)
    requires d > 0.0 && a == x * d && b == y * d
    ensures x >= y <==> a >= b
  {
    if x < y {
      assert (y - x) * d > 0.0;
    } else {
      assert (x - y) * d >= 0.0;
    }
  }

  lemma ScaleBoth(x: real, y: real, size: real)
    requires size > 0.0
    ensures x >= y <==> x * size >= y * size
  {
    OrderTimes(x, y, size, x * size, y * size);
  }

  lemma Rearranged(stop: real, entry: real, q: real, m: real)
    ensures stop * entry * (q * m) == stop * (entry * q * m)
  {
  }

  // ---------------------------------------------------------------------------------------------
  // One bar
  // ---------------------------------------------------------------------------------------------

  /** The order of a marked bar is its clip, whatever is held, or the way to flat when the stop is hit. */
  lemma DecideClips(cfg: Config, m: EngineState, bars: seq<Bar>, equity: real, c: Contract)
    requires ClipStream(cfg, c) && |bars| > 0 && bars[|bars| - 1].contract == c && Seen(cfg, m, bars, c)
    requires Decide(cfg, m, bars[|bars| - 1], equity).Success?
    ensures var stopped := equity > 0.0 && !cfg.blockAll && StopHit(cfg.stopLoss, m.account.book, bars[|bars| - 1]);
            Decide(cfg, m, bars[|bars| - 1], equity).value.order
            == OrderFor(false, c, if stopped then -Quantity(m.account.book, c) else ClipOn(cfg, bars, equity))
  {
    SameInputs(cfg, ClosesOf(m.closes, c), Closes(bars), |bars| - 1);
  }

  /** From a settled account an order for `delta` heads for the position plus `delta`. */
  lemma ClipHeads(a: Account, c: Contract, held: int, delta: int, order: Option<Order>)
    requires Arrived(a, c, held) && order == OrderFor(false, c, delta)
    ensures Heading(if order.None? then a else Placed(a, order.value), c, held + delta)
  {
    if delta != 0 {
      PlacedHeads(a, c, held, held + delta);
    }
  }

  lemma ActClips(cfg: Config, m: EngineState, bars: seq<Bar>, c: Contract, held: int, equity: real)
    requires ClipStream(cfg, c) && |bars| > 0 && bars[|bars| - 1].contract == c && Seen(cfg, m, bars, c) && Arrived(m.account, c, held)
    requires Decide(cfg, m, bars[|bars| - 1], equity).Success?
    ensures var stopped := equity > 0.0 && !cfg.blockAll && StopHit(cfg.stopLoss, m.account.book, bars[|bars| - 1]);
            Heading(Act(m, Decide(cfg, m, bars[|bars| - 1], equity).value).account, c, if stopped then 0 else held + ClipOn(cfg, bars, equity))
  {
    var bar := bars[|bars| - 1];
    var stopped := equity > 0.0 && !cfg.blockAll && StopHit(cfg.stopLoss, m.account.book, bar);
    DecideClips(cfg, m, bars, equity, c);
    ClipHeads(m.account, c, held, if stopped then -held else ClipOn(cfg, bars, equity), Decide(cfg, m, bar, equity).value.order);
  }

  /** A run's last step: the marked state it decides on, and what that makes of the run. */
  lemma LastStepIs(cfg: Config, bars: seq<Bar>, c: Contract) returns (m: EngineState, equity: real)
    requires |bars| > 0 && StreamOf(bars, c) && RunBars(cfg, NEW_ACCOUNT, bars).Success?
    ensures RunBars(cfg, NEW_ACCOUNT, bars[..|bars| - 1]).Success? && MarkedAt(cfg, bars) == Success(m) && Seen(cfg, m, bars, c)
    ensures |m.curve| > 0 && equity == m.curve[|m.curve| - 1] && RunBars(cfg, NEW_ACCOUNT, bars).value.curve == m.curve
    ensures Decide(cfg, m, bars[|bars| - 1], equity).Success?
    ensures RunBars(cfg, NEW_ACCOUNT, bars).value == Act(m, Decide(cfg, m, bars[|bars| - 1], equity).value)
  {
    LastDecides(cfg, bars, c);
    m := MarkedAt(cfg, bars).value;
    equity := m.curve[|m.curve| - 1];
  }

  // ---------------------------------------------------------------------------------------------
  // Whole runs
  // ---------------------------------------------------------------------------------------------

  lemma {:induction false} RunClips(cfg: Config, bars: seq<Bar>, c: Contract)
    requires ClipStream(cfg, c) && StreamOf(bars, c) && RunBars(cfg, NEW_ACCOUNT, bars).Success?
    ensures Heading(RunBars(cfg, NEW_ACCOUNT, bars).value.account, c, ClipsHeld(cfg, bars))
  {
    if |bars| > 0 {
      var past := bars[..|bars| - 1];
      var m, equity := LastStepIs(cfg, bars, c);
      RunClips(cfg, past, c);
      MarkArrives(cfg, RunBars(cfg, NEW_ACCOUNT, past).value, m, bars[|bars| - 1], c, ClipsHeld(cfg, past));
      ActClips(cfg, m, bars, c, ClipsHeld(cfg, past), equity);
    }
  }

  lemma MarkArrives(cfg: Config, s: EngineState, m: EngineState, bar: Bar, c: Contract, target: int)
    requires cfg.rolls == map[] && Heading(s.account, c, target) && bar.contract == c && Mark(cfg, s, bar) == Success(m)
    ensures Arrived(m.account, c, target)
  {
    TradeArrives(cfg, s, bar, c, target);
  }

  /** When a bar decides, no order is open and the position is the sum of all clips since the last stop. */
  lemma PositionIsClips(cfg: Config, past: seq<Bar>, bar: Bar, c: Contract)
    requires ClipStream(cfg, c) && StreamOf(past, c) && bar.contract == c
    requires RunBars(cfg, NEW_ACCOUNT, past).Success? && Mark(cfg, RunBars(cfg, NEW_ACCOUNT, past).value, bar).Success?
    ensures Arrived(Mark(cfg, RunBars(cfg, NEW_ACCOUNT, past).value, bar).value.account, c, ClipsHeld(cfg, past))
    ensures cfg.stopLoss.None? ==> ClipsHeld(cfg, past) == ClipSum(cfg, past)
  {
    RunClips(cfg, past, c);
    var s := RunBars(cfg, NEW_ACCOUNT, past).value;
    MarkArrives(cfg, s, Mark(cfg, s, bar).value, bar, c, ClipsHeld(cfg, past));
    if cfg.stopLoss.None? {
      NoStopSums(cfg, past);
    }
  }
}
