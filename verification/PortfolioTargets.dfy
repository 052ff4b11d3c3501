/** Where the legs of a date head, and when a portfolio overshoots the target it asks for. */
module PortfolioTargets {
  import opened Wrappers
  import opened Contracts
  import opened Ledger
  import opened Broker
  import opened Valuation
  import opened Backtest
  import opened Portfolio

  // ---------------------------------------------------------------------------------------------
  // Working orders
  // ---------------------------------------------------------------------------------------------

  /** Signed quantity the first `n` orders still have to trade in `c`. */
  function WorkingOf(a: Account, c: Contract, n: nat): int
    requires Shaped(a) && n <= |a.orders|
  {
    if n == 0 then 0
    else
      var o, left := a.orders[n - 1], a.orders[n - 1].quantity - a.filled[n - 1];
      WorkingOf(a, c, n - 1) + if o.contract != c || n - 1 in a.cancelled then 0 else if o.side == Buy then left else -left
  }

  function Working(a: Account, c: Contract): int
    requires Shaped(a)
  {
    WorkingOf(a, c, |a.orders|)
  }

  /** The position in `c` once all its working orders have filled. */
  function HeadedFor(a: Account, c: Contract): int
    requires Shaped(a)
  {
    Quantity(a.book, c) + Working(a, c)
  }

  lemma {:induction false} SameWorking(a: Account, r: Account, c: Contract, n: nat)
    requires Shaped(a) && Shaped(r) && n <= |a.orders| && a.orders <= r.orders && a.filled <= r.filled && a.cancelled == r.cancelled
    ensures WorkingOf(r, c, n) == WorkingOf(a, c, n)
  {
    if n > 0 {
      SameWorking(a, r, c, n - 1);
    }
  }

  /** A placed order joins what is working in its contract. */
  lemma PlacedWorks(a: Account, o: Order, c: Contract)
    requires Shaped(a)
    ensures Shaped(Placed(a, o))
    ensures HeadedFor(Placed(a, o), c) == HeadedFor(a, c) + if o.contract == c then Delta(o.side, o.quantity) else 0
  {
    SameWorking(a, Placed(a, o), c, |a.orders|);
  }

  // ---------------------------------------------------------------------------------------------
  // One leg
  // ---------------------------------------------------------------------------------------------

  /** The position a leg asks for: flat or its signed size in target mode, its size on top of what is held
    * otherwise; None when it asks for nothing. */
  function LegGoal(cfg: PConfig, s: PState, equity: real, weight: nat -> real, leg: Leg): Option<int> {
    var sig, held := leg.signal, Quantity(s.account.book, leg.signal.contract);
    if sig.contract !in s.marks || cfg.blockAll then None
    else if sig.direction == 0 then (if cfg.targetPosition then Some(0) else None)
    else
      match cfg.sizer(sig.contract, LegKelly(weight, leg), equity, s.marks[sig.contract])
      case None => None
      case Some(size) =>
        if size <= 0 then None
        else if cfg.targetPosition then Some(if sig.direction > 0 then size else -size)
        else Some(if sig.direction > 0 then held + size else held - size)
  }

  lemma OrderForGoes(blockAll: bool, c: Contract, delta: int)
    ensures var order := OrderFor(blockAll, c, delta);
            && (order.None? <==> blockAll || delta == 0)
            && (order.Some? ==> order.value.contract == c && Delta(order.value.side, order.value.quantity) == delta)
  {
  }

  /** What a leg asks its order to trade. */
  function LegDelta(cfg: PConfig, s: PState, equity: real, weight: nat -> real, leg: Leg): int {
    match LegGoal(cfg, s, equity, weight, leg) case Some(goal) => goal - Quantity(s.account.book, leg.signal.contract) case None => 0
  }

  /** A leg's order is the distance from what is held to what it asks for. */
  lemma LegOrderGoes(cfg: PConfig, s: PState, equity: real, weight: nat -> real, leg: Leg)
    requires LegOrder(cfg, s, equity, weight, leg).Success?
    ensures LegOrder(cfg, s, equity, weight, leg).value == OrderFor(cfg.blockAll, leg.signal.contract, LegDelta(cfg, s, equity, weight, leg))
  {
    var sig, held := leg.signal, Quantity(s.account.book, leg.signal.contract);
    if sig.contract in s.marks && sig.direction != 0 {
      var size := cfg.sizer(sig.contract, LegKelly(weight, leg), equity, s.marks[sig.contract]);
      assert size.Some?;
      if size.value > 0 && !cfg.blockAll {
        assert LegGoal(cfg, s, equity, weight, leg).Some?;
      }
    }
  }

  /** Placing it, or nothing, moves only where its contract heads. */
  lemma OrderHeads(a: Account, order: Option<Order>, k: Contract)
    requires Shaped(a)
    ensures var r := if order.Some? then Placed(a, order.value) else a;
            Shaped(r) && HeadedFor(r, k) == HeadedFor(a, k) + if order.Some? && order.value.contract == k then Delta(order.value.side, order.value.quantity) else 0
  {
    if order.Some? {
      PlacedWorks(a, order.value, k);
    }
  }

  /** A leg's order takes its contract, on top of what is already working there, to what it asks for; it moves no
    * other contract. */
  lemma LegHeads(cfg: PConfig, s: PState, equity: real, weight: nat -> real, leg: Leg)
    requires Shaped(s.account) && PlaceLeg(cfg, s, equity, weight, leg).Success?
    ensures var n, goal, c := PlaceLeg(cfg, s, equity, weight, leg).value, LegGoal(cfg, s, equity, weight, leg), leg.signal.contract;
            && Shaped(n.account)
            && HeadedFor(n.account, c) == (if goal.None? then HeadedFor(s.account, c) else goal.value + Working(s.account, c))
            && forall k | k != c :: HeadedFor(n.account, k) == HeadedFor(s.account, k)
  {
    LegOrderGoes(cfg, s, equity, weight, leg);
    OrderForGoes(cfg.blockAll, leg.signal.contract, LegDelta(cfg, s, equity, weight, leg));
    var order, n := LegOrder(cfg, s, equity, weight, leg).value, PlaceLeg(cfg, s, equity, weight, leg).value;
    assert n.account == if order.Some? then Placed(s.account, order.value) else s.account;
    forall k ensures HeadedFor(n.account, k)
                     == HeadedFor(s.account, k) + if order.Some? && order.value.contract == k then Delta(order.value.side, order.value.quantity) else 0 {
      OrderHeads(s.account, order, k);
    }
    OrderHeads(s.account, order, leg.signal.contract);
  }

  /** So a leg in target mode heads for its target exactly when nothing is working in its contract on balance. */
  lemma LegReachesExactly(cfg: PConfig, s: PState, equity: real, weight: nat -> real, leg: Leg)
    requires Shaped(s.account) && PlaceLeg(cfg, s, equity, weight, leg).Success? && cfg.targetPosition
    requires LegGoal(cfg, s, equity, weight, leg).Some?
    ensures var n := PlaceLeg(cfg, s, equity, weight, leg).value;
            HeadedFor(n.account, leg.signal.contract) == LegGoal(cfg, s, equity, weight, leg).value <==> Working(s.account, leg.signal.contract) == 0
  {
    LegHeads(cfg, s, equity, weight, leg);
  }

  // ---------------------------------------------------------------------------------------------
  // A portfolio that overshoots
  // ---------------------------------------------------------------------------------------------

  function DayBar(c: Contract, day: int): Bar {
    Bar(c, 86400 * day, 100.0, 100.0, 100.0, 100.0)
  }

  /** One contract trades on days 1 and 3, the other on day 2. */
  function Apart(a: Contract, b: Contract): seq<Item> {
    [Item(0, DayBar(a, 1)), Item(1, DayBar(b, 2)), Item(0, DayBar(a, 3))]
  }

  /** Always long one of `a`, netted against the position. */
  function AlwaysLong(a: Contract, start: real): PConfig {
    PConfig(start, false, (h: Histories) => [Leg(0, Signal(a, 1, 1.0))], (h: Histories, legs: seq<Leg>) => Some((stream: nat) => 1.0),
            (c, kelly, equity, price) => Some(1), None, true, map[])
  }

  function Buying(a: Contract): Order {
    MarketOrder(a, Buy, 1)
  }

  /** With nothing held, a date marks the account at its start and buys one. */
  lemma FlatDate(a: Contract, start: real, s: PState)
    requires start > 0.0 && s.account.book == EMPTY_BOOK && a in s.marks && Shaped(s.account)
    ensures var cfg := AlwaysLong(a, start);
            && MarkDate(cfg, s).Success? && |MarkDate(cfg, s).value.curve| > 0
            && var m := MarkDate(cfg, s).value;
               && DecideDate(cfg, m, m.curve[|m.curve| - 1]).Success?
               && DecideDate(cfg, m, m.curve[|m.curve| - 1]).value.account == Placed(s.account, Buying(a))
               && DecideDate(cfg, m, m.curve[|m.curve| - 1]).value.marks == s.marks
  {
    var cfg := AlwaysLong(a, start);
    assert OpenValues(EMPTY_BOOK, s.marks) == map[];
    var m := MarkDate(cfg, s).value;
    assert m.curve[|m.curve| - 1] == start;
    OneLeg(cfg, m.(signals := m.signals + 1), start, a);
  }

  lemma OneLeg(cfg: PConfig, m: PState, equity: real, a: Contract)
    requires cfg == AlwaysLong(a, cfg.start) && a in m.marks && Quantity(m.account.book, a) == 0
    ensures PlaceLegs(cfg, m, equity, (stream: nat) => 1.0, [Leg(0, Signal(a, 1, 1.0))])
            == Success(m.(account := Placed(m.account, Buying(a)), orders := m.orders + 1))
  {
    var legs := [Leg(0, Signal(a, 1, 1.0))];
    assert legs[..0] == [];
  }

  /** A date with one bar and no rolls. */
  lemma OneBarDate(cfg: PConfig, s: PState, day: int, i: Item, a: Account)
    requires Shaped(s.account) && cfg.rolls == map[] && Advanced(s.account, i.bar, cfg.slip) == Ok(a) && Shaped(a)
    ensures AdvanceItem(cfg, s, i).Success?
    ensures var t := AdvanceItem(cfg, s, i).value;
            && t.account == a && t.marks == s.marks[i.bar.contract := i.bar.close]
            && DateStep(cfg, s, day, [i]) == if MarkDate(cfg, t).Failure? then Failure(MarkDate(cfg, t).error)
                                             else DecideDate(cfg, MarkDate(cfg, t).value, MarkDate(cfg, t).value.curve[|MarkDate(cfg, t).value.curve| - 1])
  {
    var t := AdvanceItem(cfg, s, i).value;
    assert [i][..0] == [] && AdvanceItems(cfg, s, []) == Success(s);
    assert AdvanceItems(cfg, s, [i]) == Success(t);
    assert RollAll(t, []) == Success(t);
  }

  /** A date that fills nothing while nothing is held buys one more. */
  lemma QuietDate(a: Contract, start: real, s: PState, day: int, i: Item)
    requires start > 0.0 && s.account.book == EMPTY_BOOK && Shaped(s.account) && (a in s.marks || i.bar.contract == a)
    requires Advanced(s.account, i.bar, None) == Ok(s.account)
    ensures var cfg := AlwaysLong(a, start);
            && DateStep(cfg, s, day, [i]).Success?
            && var n := DateStep(cfg, s, day, [i]).value; n.account == Placed(s.account, Buying(a)) && a in n.marks
  {
    var cfg := AlwaysLong(a, start);
    OneBarDate(cfg, s, day, i, s.account);
    FlatDate(a, start, AdvanceItem(cfg, s, i).value);
  }

  lemma NoneAdvances(o: Order, bar: Bar)
    requires o.contract != bar.contract
    ensures Advanced(NEW_ACCOUNT, bar, None) == Ok(NEW_ACCOUNT)
    ensures Advanced(Placed(NEW_ACCOUNT, o), bar, None) == Ok(Placed(NEW_ACCOUNT, o))
  {
    var a := Placed(NEW_ACCOUNT, o);
    assert AdvanceFirst(a, 0, bar, None) == Ok(a);
  }

  function TwoOrders(a: Contract): Account {
    Placed(Placed(NEW_ACCOUNT, Buying(a)), Buying(a))
  }

  lemma FirstFills(a: Contract, bar: Bar)
    requires bar == DayBar(a, 3)
    ensures AdvanceOne(TwoOrders(a), 0, bar, None).Ok?
    ensures var r := AdvanceOne(TwoOrders(a), 0, bar, None).account;
            r.book == EMPTY_BOOK.(positions := map[a := Position(1, 100.0, 0.0)]) && r.filled == [1, 0] && r.orders == [Buying(a), Buying(a)] && r.cancelled == {}
  {
  }

  lemma SecondFills(a: Contract, bar: Bar, r: Account)
    requires bar == DayBar(a, 3) && r.book == EMPTY_BOOK.(positions := map[a := Position(1, 100.0, 0.0)])
    requires r.filled == [1, 0] && r.orders == [Buying(a), Buying(a)] && r.cancelled == {}
    ensures AdvanceOne(r, 1, bar, None).Ok? && Quantity(AdvanceOne(r, 1, bar, None).account.book, a) == 2
    ensures forall c | c != a :: Quantity(AdvanceOne(r, 1, bar, None).account.book, c) == 0
  {
  }

  lemma BothFill(a: Contract, bar: Bar)
    requires bar == DayBar(a, 3)
    ensures Advanced(TwoOrders(a), bar, None).Ok? && Quantity(Advanced(TwoOrders(a), bar, None).account.book, a) == 2
    ensures forall c | c != a :: Quantity(Advanced(TwoOrders(a), bar, None).account.book, c) == 0
  {
    FirstFills(a, bar);
    var r := AdvanceOne(TwoOrders(a), 0, bar, None).account;
    assert AdvanceFirst(TwoOrders(a), 0, bar, None) == Ok(TwoOrders(a));
    assert AdvanceFirst(TwoOrders(a), 1, bar, None) == Ok(r);
    SecondFills(a, bar, r);
  }

  lemma LastDate(a: Contract, start: real, s: PState, day: int, i: Item)
    requires s.account == TwoOrders(a) && i.bar == DayBar(a, 3) && MultiplierFor(a).Some?
    ensures var cfg := AlwaysLong(a, start);
            DateStep(cfg, s, day, [i]).Success? && Quantity(DateStep(cfg, s, day, [i]).value.account.book, a) == 2
  {
    var cfg := AlwaysLong(a, start);
    BothFill(a, i.bar);
    var r := Advanced(s.account, i.bar, None).account;
    OneBarDate(cfg, s, day, i, r);
    var t := AdvanceItem(cfg, s, i).value;
    forall c | c in r.book.positions && r.book.positions[c].quantity != 0 && c in t.marks ensures MultiplierFor(c).Some? {
      assert Quantity(r.book, c) != 0;
    }
    var m := MarkDate(cfg, t).value;
    DecideSucceeds(cfg, a, m, m.curve[|m.curve| - 1]);
  }

  lemma DecideSucceeds(cfg: PConfig, a: Contract, m: PState, equity: real)
    requires cfg == AlwaysLong(a, cfg.start)
    ensures DecideDate(cfg, m, equity).Success? && DecideDate(cfg, m, equity).value.account.book == m.account.book
  {
    if equity > 0.0 {
      var legs := cfg.strategy(m.history);
      var weight, first := cfg.weights(m.history, legs).value, m.(signals := m.signals + 1);
      assert legs[..0] == [];
      assert PlaceLegs(cfg, first, equity, weight, legs) == PlaceLeg(cfg, first, equity, weight, legs[0]);
      DecideOnlyPlaces(cfg, m, equity);
    }
  }

  /** A strategy that asks, every date, to be long one of `a` ends long two: it asked again on a date without a bar
    * of `a`, while its first order was still working. */
  lemma TargetOvershot(a: Contract, b: Contract, start: real)
    requires a != b && start > 0.0 && MultiplierFor(a).Some?
    ensures var cfg := AlwaysLong(a, start);
            && RunDates(cfg, NEW_ACCOUNT, 2, Apart(a, b)).Success?
            && Quantity(RunDates(cfg, NEW_ACCOUNT, 2, Apart(a, b)).value.account.book, a) == 2
  {
    var cfg, items := AlwaysLong(a, start), Apart(a, b);
    NoneAdvances(Buying(a), DayBar(b, 2));
    assert Advanced(NEW_ACCOUNT, DayBar(a, 1), None) == Ok(NEW_ACCOUNT);
    FirstDates(a, b, start);
    assert items[..2][..1] == items[..1] && items[2..] == [items[2]];
    LastDate(a, start, RunDates(cfg, NEW_ACCOUNT, 2, items[..2]).value, 3, items[2]);
    RunLastGroup(cfg, NEW_ACCOUNT, 2, items, 2);
  }

  lemma FirstDates(a: Contract, b: Contract, start: real)
    requires a != b && start > 0.0
    ensures var cfg, items := AlwaysLong(a, start), Apart(a, b);
            RunDates(cfg, NEW_ACCOUNT, 2, items[..2]).Success? && RunDates(cfg, NEW_ACCOUNT, 2, items[..2]).value.account == TwoOrders(a)
  {
    var cfg, items := AlwaysLong(a, start), Apart(a, b);
    var one, two := items[..1], items[..2];
    NoneAdvances(Buying(a), DayBar(b, 2));
    assert Advanced(NEW_ACCOUNT, DayBar(a, 1), None) == Ok(NEW_ACCOUNT);
    assert one[..0] == [] && one[0..] == [items[0]] && two[..1] == one && two[1..] == [items[1]];
    QuietDate(a, start, Start(NEW_ACCOUNT, 2), 1, items[0]);
    RunLastGroup(cfg, NEW_ACCOUNT, 2, one, 0);
    var s := RunDates(cfg, NEW_ACCOUNT, 2, one).value;
    QuietDate(a, start, s, 2, items[1]);
    RunLastGroup(cfg, NEW_ACCOUNT, 2, two, 1);
  }
}
