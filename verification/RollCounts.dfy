/** The roll diagnostics of both engines: how many rolls moved a position, and what they cost. */
module RollCounts {
  import opened Wrappers
  import opened Ledger
  import opened Broker
  import opened Backtest
  import opened LedgerTheorems
  import opened BacktestLedger
  import P = Portfolio
  import C = PortfolioCausality
  import L = PortfolioLedger

  /** What an operation costs as a roll: the gap between its two prices on the quantity it moves. */
  function OpCost(b: Book, op: Op): real {
    match op
    case Fill(_, _, _, _) => 0.0
    case RollOver(front, back, frontFill, backFill) => (backFill - frontFill) * Quantity(b, front) as real * Mult(back)
  }

  function RollsIn(ops: seq<Op>): nat {
    if |ops| == 0 then 0 else RollsIn(ops[..|ops| - 1]) + if ops[|ops| - 1].RollOver? then 1 else 0
  }

  /** The cost of all the rolls, each on the book it meets. */
  function CostsOf(b: Book, ops: seq<Op>): real {
    if |ops| == 0 then 0.0
    else
      match Run(b, ops[..|ops| - 1])
      case None => 0.0
      case Some(m) => CostsOf(b, ops[..|ops| - 1]) + OpCost(m, ops[|ops| - 1])
  }

  lemma {:induction false} RollsConcat(x: seq<Op>, y: seq<Op>)
    ensures RollsIn(x + y) == RollsIn(x) + RollsIn(y)
  {
    if |y| == 0 {
      assert x + y == x;
    } else {
      assert (x + y)[..|x + y| - 1] == x + y[..|y| - 1];
      RollsConcat(x, y[..|y| - 1]);
    }
  }

  lemma {:induction false} CostsConcat(b: Book, x: seq<Op>, y: seq<Op>)
    requires Run(b, x).Some? && Run(Run(b, x).value, y).Some?
    ensures CostsOf(b, x + y) == CostsOf(b, x) + CostsOf(Run(b, x).value, y)
  {
    if |y| == 0 {
      assert x + y == x;
    } else {
      var z := y[..|y| - 1];
      assert (x + y)[..|x + y| - 1] == x + z;
      CostsConcat(b, x, z);
      RunConcat(b, x, z);
    }
  }

  lemma {:induction false} FillsDoNotRoll(b: Book, orders: seq<Order>, fills: seq<FillEvent>)
    requires Named(orders, fills)
    ensures RollsIn(FillOps(orders, fills)) == 0 && CostsOf(b, FillOps(orders, fills)) == 0.0
  {
    if |fills| > 0 {
      var past := fills[..|fills| - 1];
      FillsDoNotRoll(b, orders, past);
      var ops := FillOps(orders, fills);
      assert ops[..|ops| - 1] == FillOps(orders, past);
    }
  }

  // ---------------------------------------------------------------------------------------------
  // The single-stream engine
  // ---------------------------------------------------------------------------------------------

  lemma OneRoll(b: Book, op: Op)
    ensures RollsIn([op]) == (if op.RollOver? then 1 else 0) && CostsOf(b, [op]) == OpCost(b, op)
  {
    assert [op][..0] == [];
  }

  /** An executed roll counts one and costs its operation's cost. */
  lemma ExecutedCounts(rolls: map<int, RollEvent>, a: Account, day: int, e: RollEvent)
    requires day in rolls && rolls[day] == e && Quantity(a.book, e.front) != 0 && ExecuteRoll(rolls, a, day).Success?
    ensures ExecuteRoll(rolls, a, day).value.count == 1
    ensures ExecuteRoll(rolls, a, day).value.cost == OpCost(a.book, RollOver(e.front, e.back, e.frontSettle, e.backSettle))
  {
  }

  lemma RollCounted(rolls: map<int, RollEvent>, a: Account, day: int)
    requires ExecuteRoll(rolls, a, day).Success?
    ensures ExecuteRoll(rolls, a, day).value.count == RollsIn(RollOps(rolls, a.book, day))
    ensures ExecuteRoll(rolls, a, day).value.cost == CostsOf(a.book, RollOps(rolls, a.book, day))
  {
    if day in rolls && Quantity(a.book, rolls[day].front) != 0 {
      ExecutedCounts(rolls, a, day, rolls[day]);
      OneRoll(a.book, RollOver(rolls[day].front, rolls[day].back, rolls[day].frontSettle, rolls[day].backSettle));
    }
  }

  lemma BarCounted(cfg: Config, s: EngineState, bar: Bar)
    requires Accounted(s.account) && BarStep(cfg, s, bar).Success?
    ensures var n, ops := BarStep(cfg, s, bar).value, BarOps(cfg, s, bar);
            n.rolls == s.rolls + RollsIn(ops) && n.rollCost == s.rollCost + CostsOf(s.account.book, ops)
  {
    var a := Advanced(s.account, bar, cfg.slip).account;
    var added := AdvanceReplays(s.account, |s.account.orders|, bar, cfg.slip);
    assert a.fills[|s.account.fills|..] == added;
    var fills, rolls := FillOps(a.orders, added), RollOps(cfg.rolls, a.book, Day(bar.ts));
    FillsDoNotRoll(s.account.book, a.orders, added);
    RollCounted(cfg.rolls, a, Day(bar.ts));
    RollReplays(cfg.rolls, a, Day(bar.ts));
    RollsConcat(fills, rolls);
    CostsConcat(s.account.book, fills, rolls);
  }

  /** A run's roll count and roll cost are those of the rolls among its own ledger operations. */
  lemma {:induction false} RunRollsCounted(cfg: Config, bars: seq<Bar>)
    requires RunBars(cfg, NEW_ACCOUNT, bars).Success?
    ensures var n := RunBars(cfg, NEW_ACCOUNT, bars).value;
            n.rolls == RollsIn(RunOps(cfg, bars)) && n.rollCost == CostsOf(EMPTY_BOOK, RunOps(cfg, bars))
  {
    if |bars| > 0 {
      var past := bars[..|bars| - 1];
      var s := RunBars(cfg, NEW_ACCOUNT, past).value;
      RunRollsCounted(cfg, past);
      RunAccounted(cfg, past);
      RunReplays(cfg, past);
      StepReplays(cfg, s, bars[|bars| - 1]);
      BarCounted(cfg, s, bars[|bars| - 1]);
      OpsJoin(RunOps(cfg, past), BarOps(cfg, s, bars[|bars| - 1]), s.account.book);
    }
  }

  lemma OpsJoin(x: seq<Op>, y: seq<Op>, m: Book)
    requires Run(EMPTY_BOOK, x) == Some(m) && Run(m, y).Some?
    ensures RollsIn(x + y) == RollsIn(x) + RollsIn(y) && CostsOf(EMPTY_BOOK, x + y) == CostsOf(EMPTY_BOOK, x) + CostsOf(m, y)
  {
    RollsConcat(x, y);
    CostsConcat(EMPTY_BOOK, x, y);
  }

  // ---------------------------------------------------------------------------------------------
  // The portfolio engine
  // ---------------------------------------------------------------------------------------------

  lemma HeldRollMoves(s: P.PState, e: RollEvent)
    requires P.RollOne(s, e).Success? && Quantity(s.account.book, e.front) != 0
    ensures P.RollOne(s, e).value.rolls == s.rolls + 1
    ensures P.RollOne(s, e).value.rollCost == s.rollCost + RollCost(e, Quantity(s.account.book, e.front), Mult(e.back))
  {
  }

  lemma CostIs(b: Book, e: RollEvent)
    ensures RollCost(e, Quantity(b, e.front), Mult(e.back)) == OpCost(b, L.RollOp(e))
  {
  }

  lemma HeldRollCounts(s: P.PState, e: RollEvent)
    requires P.RollOne(s, e).Success? && Quantity(s.account.book, e.front) != 0
    ensures P.RollOne(s, e).value.rolls == s.rolls + 1 && P.RollOne(s, e).value.rollCost == s.rollCost + OpCost(s.account.book, L.RollOp(e))
  {
    HeldRollMoves(s, e);
    CostIs(s.account.book, e);
  }

  lemma OneCounted(s: P.PState, e: RollEvent)
    requires P.RollOne(s, e).Success?
    ensures var n, ops := P.RollOne(s, e).value, if Quantity(s.account.book, e.front) == 0 then [] else [L.RollOp(e)];
            n.rolls == s.rolls + RollsIn(ops) && n.rollCost == s.rollCost + CostsOf(s.account.book, ops)
  {
    if Quantity(s.account.book, e.front) != 0 {
      HeldRollCounts(s, e);
      OneRoll(s.account.book, L.RollOp(e));
    }
  }

  lemma {:induction false} RollAllCounted(s: P.PState, events: seq<RollEvent>)
    requires P.RollAll(s, events).Success?
    ensures var n, ops := P.RollAll(s, events).value, L.HeldRolls(s, events);
            n.rolls == s.rolls + RollsIn(ops) && n.rollCost == s.rollCost + CostsOf(s.account.book, ops)
  {
    if |events| > 0 {
      var past, e := events[..|events| - 1], events[|events| - 1];
      var t := P.RollAll(s, past).value;
      var more := if Quantity(t.account.book, e.front) == 0 then [] else [L.RollOp(e)];
      RollAllCounted(s, past);
      OneCounted(t, e);
      L.RollsReplay(s, past);
      L.RollOneReplays(t, e);
      RollsConcat(L.HeldRolls(s, past), more);
      CostsConcat(s.account.book, L.HeldRolls(s, past), more);
    }
  }

  lemma {:induction false} ItemsDoNotRoll(cfg: P.PConfig, s: P.PState, items: seq<P.Item>)
    requires Shaped(s.account) && P.AdvanceItems(cfg, s, items).Success?
    ensures P.AdvanceItems(cfg, s, items).value.rolls == s.rolls && P.AdvanceItems(cfg, s, items).value.rollCost == s.rollCost
  {
    if |items| > 0 {
      ItemsDoNotRoll(cfg, s, items[..|items| - 1]);
    }
  }

  lemma {:induction false} LegsDoNotRoll(cfg: P.PConfig, s: P.PState, equity: real, weight: nat -> real, legs: seq<P.Leg>)
    requires P.PlaceLegs(cfg, s, equity, weight, legs).Success?
    ensures P.PlaceLegs(cfg, s, equity, weight, legs).value.rolls == s.rolls && P.PlaceLegs(cfg, s, equity, weight, legs).value.rollCost == s.rollCost
  {
    if |legs| > 0 {
      LegsDoNotRoll(cfg, s, equity, weight, legs[..|legs| - 1]);
    }
  }

  lemma DecideDoesNotRoll(cfg: P.PConfig, s: P.PState, equity: real)
    requires P.DecideDate(cfg, s, equity).Success?
    ensures P.DecideDate(cfg, s, equity).value.rolls == s.rolls && P.DecideDate(cfg, s, equity).value.rollCost == s.rollCost
  {
    var legs := cfg.strategy(s.history);
    if equity > 0.0 && |legs| > 0 {
      LegsDoNotRoll(cfg, s.(signals := s.signals + |legs|), equity, cfg.weights(s.history, legs).value, legs);
    }
  }

  lemma DateCounted(cfg: P.PConfig, s: P.PState, day: int, items: seq<P.Item>)
    requires Accounted(s.account) && P.DateStep(cfg, s, day, items).Success?
    ensures var n, ops := P.DateStep(cfg, s, day, items).value, L.DateOps(cfg, s, day, items);
            n.rolls == s.rolls + RollsIn(ops) && n.rollCost == s.rollCost + CostsOf(s.account.book, ops)
  {
    var t := P.AdvanceItems(cfg, s, items).value;
    var added := L.ItemsReplay(cfg, s, items);
    assert t.account.fills[|s.account.fills|..] == added;
    ItemsDoNotRoll(cfg, s, items);
    RollAllCounted(t, P.RollsOn(cfg, day));
    L.RollsReplay(t, P.RollsOn(cfg, day));
    FillsDoNotRoll(s.account.book, t.account.orders, added);
    RollsConcat(FillOps(t.account.orders, added), L.HeldRolls(t, P.RollsOn(cfg, day)));
    CostsConcat(s.account.book, FillOps(t.account.orders, added), L.HeldRolls(t, P.RollsOn(cfg, day)));
    var marked := P.MarkDate(cfg, P.RollAll(t, P.RollsOn(cfg, day)).value).value;
    DecideDoesNotRoll(cfg, marked, marked.curve[|marked.curve| - 1]);
  }

  /** So too for a portfolio run. */
  lemma {:induction false} DatesRollsCounted(cfg: P.PConfig, streams: nat, items: seq<P.Item>)
    requires P.RunDates(cfg, NEW_ACCOUNT, streams, items).Success?
    ensures var n, ops := P.RunDates(cfg, NEW_ACCOUNT, streams, items).value, L.DatesOps(cfg, streams, items);
            n.rolls == RollsIn(ops) && n.rollCost == CostsOf(EMPTY_BOOK, ops)
    decreases |items|
  {
    if |items| > 0 {
      var p := P.GroupStart(items, |items| - 1);
      var s, day := P.RunDates(cfg, NEW_ACCOUNT, streams, items[..p]).value, P.DayOf(items[|items| - 1]);
      L.NewAccounted();
      C.DatesAccounted(cfg, NEW_ACCOUNT, streams, items[..p]);
      DatesRollsCounted(cfg, streams, items[..p]);
      L.DatesReplay(cfg, streams, items[..p]);
      L.DateReplays(cfg, s, day, items[p..]);
      DateCounted(cfg, s, day, items[p..]);
      OpsJoin(L.DatesOps(cfg, streams, items[..p]), L.DateOps(cfg, s, day, items[p..]), s.account.book);
    }
  }
}
