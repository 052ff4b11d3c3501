/** A rolled stream on which a target is asked for on a contract's last bar, and lost. */
module TargetLost {
  import opened Wrappers
  import opened Contracts
  import opened Ledger
  import opened Broker
  import opened Valuation
  import opened Backtest
  import opened BacktestTarget
  import opened BacktestRolled
  import opened RollGap
  import RiskManager

  /** The front on day 9, the back on day 10. */
  function TwoBars(front: Contract, back: Contract): seq<Bar> {
    [DayBar(front, 9, 101.0), DayBar(back, ROLL_DAY, 120.0)]
  }

  /** One contract, whatever is asked. */
  const ONE_LOT := RiskManager.Decision(1, RiskManager.Kelly, 1, 1, 1, 0.0, 0.0, None)

  /** Long on the first bar, silent afterwards, sized at one contract, with the roll dated on day 10. */
  function LongOnce(front: Contract, back: Contract, start: real): Config {
    Config(start, false,
           (h: seq<Bar>) => if |h| == 1 then Some(Signal(h[0].contract, 1, 1.0)) else None,
           (c, kelly, equity, price, history) => Some(ONE_LOT),
           None, false, 0, true, map[ROLL_DAY := RollEvent(ROLL_DAY, front, back, 101.0, 120.0)], None)
  }

  lemma StreamRolls(front: Contract, back: Contract, start: real)
    requires front != back
    ensures RolledStream(LongOnce(front, back, start), TwoBars(front, back))
  {
    var bars := TwoBars(front, back);
    assert bars[..1] == [bars[0]];
    assert Day(bars[1].ts) == ROLL_DAY;
  }

  /** The account with its one order, working. */
  function Working(front: Contract): Account {
    Placed(NEW_ACCOUNT, MarketOrder(front, Buy, 1))
  }

  lemma FlatEquity(start: real, marks: Marks)
    ensures Equity(start, EMPTY_BOOK, marks) == start
  {
    assert OpenValues(EMPTY_BOOK, marks) == map[];
  }

  lemma FirstBar(front: Contract, back: Contract, start: real)
    requires start > 0.0
    ensures var cfg, bar := LongOnce(front, back, start), DayBar(front, 9, 101.0);
            && Mark(cfg, Begin(NEW_ACCOUNT), bar).Success?
            && var m := Mark(cfg, Begin(NEW_ACCOUNT), bar).value;
               && m.account == NEW_ACCOUNT && m.history == [bar] && m.curve == [start]
  {
    var bar := DayBar(front, 9, 101.0);
    assert Day(bar.ts) == 9;
    FlatEquity(start, map[front := 101.0]);
  }

  lemma FirstAsk(front: Contract, back: Contract, start: real)
    requires start > 0.0
    ensures var cfg, bar := LongOnce(front, back, start), DayBar(front, 9, 101.0);
            && WantedAt(cfg, [bar]) == Some(1)
            && BarStep(cfg, Begin(NEW_ACCOUNT), bar).Success?
            && var n := BarStep(cfg, Begin(NEW_ACCOUNT), bar).value;
               n.account == Working(front) && n.history == [bar]
  {
    FirstBar(front, back, start);
    assert [DayBar(front, 9, 101.0)][..0] == [];
  }

  /** The back's first bar leaves the front's order working, and its roll finds nothing to move. */
  lemma SecondBar(front: Contract, back: Contract, start: real, s: EngineState)
    requires front != back && s.account == Working(front) && |s.history| == 1
    ensures var cfg, bar := LongOnce(front, back, start), DayBar(back, ROLL_DAY, 120.0);
            BarStep(cfg, s, bar).Success? && BarStep(cfg, s, bar).value.account == Working(front)
  {
    var a := Working(front);
    assert AdvanceFirst(a, 0, DayBar(back, ROLL_DAY, 120.0), None) == Ok(a);
  }

  /** The run succeeds, asked for one contract, and ends flat with its order unfilled: nothing was ever filled
    * and the last target is not held. */
  lemma LastTargetLost(front: Contract, back: Contract, start: real)
    requires front != back && start > 0.0
    ensures var cfg, bars := LongOnce(front, back, start), TwoBars(front, back);
            && RolledStream(cfg, bars) && RunBars(cfg, NEW_ACCOUNT, bars).Success?
            && LastTarget(cfg, bars[..1]) == 1 && HeldNow(cfg, bars) == 0
            && RunBars(cfg, NEW_ACCOUNT, bars).value.account == Working(front)
  {
    var cfg, bars := LongOnce(front, back, start), TwoBars(front, back);
    StreamRolls(front, back, start);
    FirstAsk(front, back, start);
    assert bars[..1] == [bars[0]] && bars[..1][..0] == [];
    SecondBar(front, back, start, RunBars(cfg, NEW_ACCOUNT, bars[..1]).value);
  }
}
