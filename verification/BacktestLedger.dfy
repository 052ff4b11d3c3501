/** The ledger laws over engine runs: each run's fills and rolls, replayed on an empty book, give its book. */
module BacktestLedger {
  import opened Wrappers
  import opened Ledger
  import opened Broker
  import opened Backtest
  import opened BacktestCausality
  import opened LedgerTheorems
  import BetTape

  // ---------------------------------------------------------------------------------------------
  // Fills and rolls as ledger operations
  // ---------------------------------------------------------------------------------------------

  predicate Named(orders: seq<Order>, fills: seq<FillEvent>) {
    forall k | 0 <= k < |fills| :: fills[k].id < |orders| && fills[k].quantity > 0
  }

  /** The fill events as operations on the ledger, in order. */
  function FillOps(orders: seq<Order>, fills: seq<FillEvent>): seq<Op>
    requires Named(orders, fills)
  {
    if |fills| == 0 then []
    else
      var f := fills[|fills| - 1];
      FillOps(orders, fills[..|fills| - 1]) + [Fill(orders[f.id].contract, orders[f.id].side, f.quantity, f.price)]
  }

  /** The roll a day executes, when the front is held. */
  function RollOps(rolls: map<int, RollEvent>, b: Book, day: int): seq<Op> {
    if day !in rolls || Quantity(b, rolls[day].front) == 0 then []
    else [RollOver(rolls[day].front, rolls[day].back, rolls[day].frontSettle, rolls[day].backSettle)]
  }

  lemma {:induction false} RunConcat(b: Book, x: seq<Op>, y: seq<Op>)
    requires Run(b, x).Some? && Run(Run(b, x).value, y).Some?
    ensures Run(b, x + y) == Run(Run(b, x).value, y)
  {
    if |y| == 0 {
      assert x + y == x;
    } else {
      RunConcat(b, x, y[..|y| - 1]);
      assert (x + y)[..|x + y| - 1] == x + y[..|y| - 1];
    }
  }

  lemma RunOne(b: Book, op: Op)
    requires Apply(b, op).Done?
    ensures Run(b, [op]) == Some(Apply(b, op).book)
  {
    assert [op][..0] == [];
  }

  // ---------------------------------------------------------------------------------------------
  // One bar
  // ---------------------------------------------------------------------------------------------

  /** A completed fill is one fill event and that fill on the ledger. */
  lemma FilledReplays(a: Account, id: nat, price: real)
    requires Accounted(a) && Filled(a, id, price, None).Ok?
    ensures var f := FillEvent(id, a.orders[id].quantity - a.filled[id], price);
            Filling(a, [f], Filled(a, id, price, None).account)
  {
    var o := a.orders[id];
    var f := FillEvent(id, o.quantity - a.filled[id], price);
    RunOne(a.book, Fill(o.contract, o.side, f.quantity, price));
    assert [f][..0] == [];
  }

  lemma NothingFills(a: Account)
    ensures Filling(a, [], a)
  {
  }

  /** An order's turn either does nothing or fills all that remains, at some price. */
  lemma OneTurn(a: Account, id: nat, bar: Bar, slip: Option<Slippage>) returns (price: Option<real>)
    requires Accounted(a) && id < |a.orders| && AdvanceOne(a, id, bar, slip).Ok?
    ensures AdvanceOne(a, id, bar, slip) == if price.Some? then Filled(a, id, price.value, None) else Ok(a)
  {
    var o := a.orders[id];
    if id in a.cancelled || o.contract != bar.contract || a.filled[id] >= o.quantity || FillPrice(o, bar).None? {
      price := None;
    } else {
      price := Executed(o, bar, FillPrice(o, bar).value, slip);
    }
  }

  /** One order's turn adds at most one fill, and the book moves by exactly that fill. */
  lemma OneReplays(a: Account, id: nat, bar: Bar, slip: Option<Slippage>) returns (added: seq<FillEvent>)
    requires Accounted(a) && id < |a.orders| && AdvanceOne(a, id, bar, slip).Ok?
    ensures Filling(a, added, AdvanceOne(a, id, bar, slip).account)
  {
    var price := OneTurn(a, id, bar, slip);
    if price.None? {
      added := [];
      NothingFills(a);
    } else {
      added := [FillEvent(id, a.orders[id].quantity - a.filled[id], price.value)];
      FilledReplays(a, id, price.value);
    }
  }

  lemma {:induction false} FillOpsConcat(orders: seq<Order>, x: seq<FillEvent>, y: seq<FillEvent>)
    requires Named(orders, x) && Named(orders, y)
    ensures Named(orders, x + y) && FillOps(orders, x + y) == FillOps(orders, x) + FillOps(orders, y)
  {
    if |y| == 0 {
      assert x + y == x;
    } else {
      FillOpsConcat(orders, x, y[..|y| - 1]);
      assert (x + y)[..|x + y| - 1] == x + y[..|y| - 1];
    }
  }

  /** From `a` to `m` the fills `added` were made and nothing else moved the book. */
  ghost predicate Filling(a: Account, added: seq<FillEvent>, m: Account) {
    && m.orders == a.orders && m.fills == a.fills + added && Named(a.orders, added)
    && Run(a.book, FillOps(a.orders, added)) == Some(m.book)
  }

  lemma FillingJoins(a: Account, before: seq<FillEvent>, m: Account, more: seq<FillEvent>, r: Account)
    requires Filling(a, before, m) && Filling(m, more, r)
    ensures Filling(a, before + more, r)
  {
    JoinReplays(a.book, a.orders, before, more, m.book);
    Associates(a.fills, before, more);
  }

  lemma Associates(x: seq<FillEvent>, y: seq<FillEvent>, z: seq<FillEvent>)
    ensures x + y + z == x + (y + z)
  {
  }

  lemma JoinReplays(b: Book, orders: seq<Order>, before: seq<FillEvent>, more: seq<FillEvent>, m: Book)
    requires Named(orders, before) && Named(orders, more)
    requires Run(b, FillOps(orders, before)) == Some(m) && Run(m, FillOps(orders, more)).Some?
    ensures Named(orders, before + more) && Run(b, FillOps(orders, before + more)) == Run(m, FillOps(orders, more))
  {
    FillOpsConcat(orders, before, more);
    RunConcat(b, FillOps(orders, before), FillOps(orders, more));
  }

  lemma AdvanceLast(a: Account, n: nat, bar: Bar, slip: Option<Slippage>) returns (m: Account)
    requires Accounted(a) && 0 < n <= |a.orders| && AdvanceFirst(a, n, bar, slip).Ok?
    ensures AdvanceFirst(a, n - 1, bar, slip) == Ok(m) && Accounted(m) && m.orders == a.orders
    ensures AdvanceFirst(a, n, bar, slip) == AdvanceOne(m, n - 1, bar, slip)
  {
    m := AdvanceFirst(a, n - 1, bar, slip).account;
    AdvanceAccounted(a, n - 1, bar, slip);
  }

  lemma {:induction false} AdvanceReplays(a: Account, n: nat, bar: Bar, slip: Option<Slippage>) returns (added: seq<FillEvent>)
    requires Accounted(a) && n <= |a.orders| && AdvanceFirst(a, n, bar, slip).Ok?
    ensures Filling(a, added, AdvanceFirst(a, n, bar, slip).account)
  {
    if n == 0 {
      added := [];
      assert a.fills + [] == a.fills;
    } else {
      var m := AdvanceLast(a, n, bar, slip);
      var before := AdvanceReplays(a, n - 1, bar, slip);
      var more := OneReplays(m, n - 1, bar, slip);
      FillingJoins(a, before, m, more, AdvanceOne(m, n - 1, bar, slip).account);
      added := before + more;
    }
  }

  lemma RollReplays(rolls: map<int, RollEvent>, a: Account, day: int)
    requires ExecuteRoll(rolls, a, day).Success?
    ensures Run(a.book, RollOps(rolls, a.book, day)) == Some(ExecuteRoll(rolls, a, day).value.account.book)
  {
    if day in rolls && Quantity(a.book, rolls[day].front) != 0 {
      RunOne(a.book, RollOver(rolls[day].front, rolls[day].back, rolls[day].frontSettle, rolls[day].backSettle));
    }
  }

  /** The ledger operations of one bar: its new fills, then its roll. */
  ghost function BarOps(cfg: Config, s: EngineState, bar: Bar): seq<Op>
    requires Accounted(s.account) && Advanced(s.account, bar, cfg.slip).Ok?
  {
    AdvanceAccounted(s.account, |s.account.orders|, bar, cfg.slip);
    var a := Advanced(s.account, bar, cfg.slip).account;
    FillOps(a.orders, a.fills[|s.account.fills|..]) + RollOps(cfg.rolls, a.book, Day(bar.ts))
  }

  lemma StepReplays(cfg: Config, s: EngineState, bar: Bar)
    requires Accounted(s.account) && BarStep(cfg, s, bar).Success?
    ensures Run(s.account.book, BarOps(cfg, s, bar)) == Some(BarStep(cfg, s, bar).value.account.book)
  {
    var a := Advanced(s.account, bar, cfg.slip).account;
    var added := AdvanceReplays(s.account, |s.account.orders|, bar, cfg.slip);
    assert a.fills[|s.account.fills|..] == added;
    RollReplays(cfg.rolls, a, Day(bar.ts));
    RunConcat(s.account.book, FillOps(a.orders, added), RollOps(cfg.rolls, a.book, Day(bar.ts)));
  }

  // ---------------------------------------------------------------------------------------------
  // Whole runs
  // ---------------------------------------------------------------------------------------------

  lemma {:induction false} RunAccounted(cfg: Config, bars: seq<Bar>)
    requires RunBars(cfg, NEW_ACCOUNT, bars).Success?
    ensures Accounted(RunBars(cfg, NEW_ACCOUNT, bars).value.account)
  {
    if |bars| > 0 {
      RunAccounted(cfg, bars[..|bars| - 1]);
      StepExtends(cfg, RunBars(cfg, NEW_ACCOUNT, bars[..|bars| - 1]).value, bars[|bars| - 1]);
    }
  }

  /** Every fill and roll of a run, in the order they happened. */
  ghost function RunOps(cfg: Config, bars: seq<Bar>): seq<Op>
    requires RunBars(cfg, NEW_ACCOUNT, bars).Success?
  {
    if |bars| == 0 then []
    else
      var past := bars[..|bars| - 1];
      RunAccounted(cfg, past);
      RunOps(cfg, past) + BarOps(cfg, RunBars(cfg, NEW_ACCOUNT, past).value, bars[|bars| - 1])
  }

  /** Replaying a run's fills and rolls on an empty book gives the run's book. */
  lemma {:induction false} RunReplays(cfg: Config, bars: seq<Bar>)
    requires RunBars(cfg, NEW_ACCOUNT, bars).Success?
    ensures Run(EMPTY_BOOK, RunOps(cfg, bars)) == Some(RunBars(cfg, NEW_ACCOUNT, bars).value.account.book)
  {
    if |bars| > 0 {
      var past := bars[..|bars| - 1];
      var s := RunBars(cfg, NEW_ACCOUNT, past).value;
      RunReplays(cfg, past);
      RunAccounted(cfg, past);
      StepReplays(cfg, s, bars[|bars| - 1]);
      RunConcat(EMPTY_BOOK, RunOps(cfg, past), BarOps(cfg, s, bars[|bars| - 1]));
    }
  }

  /** After any run of the engine: per contract, realized profit is the cash of the run's own fills and
    * rolls plus the basis still held; the account's realized profit is the sum over contracts and equals
    * all booked and open trade profit. */
  lemma RunConserves(cfg: Config, bars: seq<Bar>)
    requires RunBars(cfg, NEW_ACCOUNT, bars).Success?
    ensures Conserves(RunBars(cfg, NEW_ACCOUNT, bars).value.account.book, History(EMPTY_BOOK, RunOps(cfg, bars)))
  {
    RunReplays(cfg, bars);
    CashIdentity(RunOps(cfg, bars));
  }

  /** When no roll of the run ends or turns the bet of the contract it enters, its trade ledger lists whole
    * flat-to-flat bets at their net cash. */
  lemma RunTradesAreWholeBets(cfg: Config, bars: seq<Bar>)
    requires RunBars(cfg, NEW_ACCOUNT, bars).Success? && BetTape.AllClean(EMPTY_BOOK, RunOps(cfg, bars))
    ensures BetTape.Tracks(RunBars(cfg, NEW_ACCOUNT, bars).value.account.book, BetTape.TapeOf(RunOps(cfg, bars)))
  {
    RunReplays(cfg, bars);
    BetTape.BookedTradesAreWholeBets(RunOps(cfg, bars));
  }
}
