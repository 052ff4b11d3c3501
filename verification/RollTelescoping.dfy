/** A position held through rolls: the roll gap is never profit or loss.
  *
  * Holding one signed quantity through a built series, equity moves with the stream's closes less
  * the roll costs booked so far, bar after bar and roll after roll.
  */
module RollTelescoping {
  import opened Wrappers
  import opened Contracts
  import opened Sums
  import opened Ledger
  import opened Broker
  import opened Valuation
  import opened Backtest
  import opened BacktestCausality
  import opened BacktestTarget
  import T = LedgerTheorems

  // ---------------------------------------------------------------------------------------------
  // Holding a position
  // ---------------------------------------------------------------------------------------------

  /** Exactly `quantity` of `c` is held, nothing else, and no order is open. */
  ghost predicate Holding(a: Account, c: Contract, quantity: int) {
    && Shaped(a) && AllFilled(a, |a.orders|)
    && quantity != 0 && Quantity(a.book, c) == quantity
    && forall k | k != c :: Quantity(a.book, k) == 0
  }

  /** Realized profit less basis, with the roll costs added back: constant while holding. */
  function Locked(s: EngineState, c: Contract): real {
    s.account.book.realizedPnl - Basis(s.account.book, c) + s.rollCost
  }

  /** Notional of the held quantity at a price. */
  function Worth(quantity: int, price: real, mult: real): real {
    price * quantity as real * mult
  }

  lemma HeldEquity(start: real, b: Book, marks: Marks, c: Contract)
    requires c in marks && forall k | k != c :: Quantity(b, k) == 0
    ensures Equity(start, b, marks) == start + b.realizedPnl - Basis(b, c) + Worth(Quantity(b, c), marks[c], Mult(c))
  {
    forall k | k in b.positions && k != c ensures OpenValue(b, marks, k) == 0.0 {
      FlatWorthNothing(b, marks, k);
    }
    TotalOnly(OpenValues(b, marks), c);
    FlatIsZero(b, marks, c);
    assert Get(OpenValues(b, marks), c) == OpenValue(b, marks, c);
  }

  lemma FlatWorthNothing(b: Book, marks: Marks, k: Contract)
    requires Quantity(b, k) == 0
    ensures OpenValue(b, marks, k) == 0.0
  {
  }

  // ---------------------------------------------------------------------------------------------
  // One bar of holding
  // ---------------------------------------------------------------------------------------------

  /** On this day the roll events leave a holder of `from` holding `to`. */
  predicate Carries(rolls: map<int, RollEvent>, day: int, from: Contract, to: Contract) {
    if from == to then day in rolls ==> rolls[day].front != from
    else day in rolls && rolls[day].front == from && rolls[day].back == to
  }

  lemma RollHolds(rolls: map<int, RollEvent>, a: Account, day: int, from: Contract, to: Contract, quantity: int)
    requires Holding(a, from, quantity) && from != to && Carries(rolls, day, from, to) && Mult(from) == Mult(to)
    requires ExecuteRoll(rolls, a, day).Success?
    ensures var r := ExecuteRoll(rolls, a, day).value;
            && Holding(r.account, to, quantity)
            && r.account.book.realizedPnl - Basis(r.account.book, to) + r.cost == a.book.realizedPnl - Basis(a.book, from)
  {
    var e := rolls[day];
    RollKeepsOrders(rolls, a, day);
    ExecutedRoll(rolls, a, day);
    BookRollHolds(a.book, from, to, e.frontSettle, e.backSettle);
    CostIs(e, quantity, to);
  }

  /** A roll that executes is the ledger's roll of the front position. */
  lemma ExecutedRoll(rolls: map<int, RollEvent>, a: Account, day: int)
    requires day in rolls && Quantity(a.book, rolls[day].front) != 0 && ExecuteRoll(rolls, a, day).Success?
    ensures var e := rolls[day];
            && Roll(a.book, e.front, e.back, e.frontSettle, e.backSettle) == Done(ExecuteRoll(rolls, a, day).value.account.book)
            && ExecuteRoll(rolls, a, day).value.cost == RollCost(e, Quantity(a.book, e.front), Mult(e.back))
  {
  }

  lemma BookRollHolds(b: Book, from: Contract, to: Contract, frontFill: real, backFill: real)
    requires from != to && Quantity(b, from) != 0 && Mult(from) == Mult(to)
    requires forall k | k != from :: Quantity(b, k) == 0
    requires Roll(b, from, to, frontFill, backFill).Done?
    ensures var a := Roll(b, from, to, frontFill, backFill).book;
            && Quantity(a, to) == Quantity(b, from) && (forall k | k != to :: Quantity(a, k) == 0)
            && a.realizedPnl - Basis(a, to)
               == b.realizedPnl - Basis(b, from) + Outlay(from, Quantity(b, from), frontFill) - Outlay(to, Quantity(b, from), backFill)
  {
    var closed, both := T.RollShape(b, from, to, frontFill, backFill);
    FillIdentity(b, from, -Quantity(b, from), frontFill, true);
    FillIdentity(closed, to, Quantity(b, from), backFill, true);
    LegsBasis(b, closed, both, from, to, frontFill, backFill);
  }

  lemma CostIs(e: RollEvent, quantity: int, c: Contract)
    ensures RollCost(e, quantity, Mult(c)) == Outlay(c, quantity, e.backSettle) - Outlay(c, quantity, e.frontSettle)
  {
  }

  /** The two legs move the basis from one contract to the other and realize the front's profit. */
  lemma LegsBasis(b: Book, closed: Book, both: Book, from: Contract, to: Contract, frontFill: real, backFill: real)
    requires from != to && Quantity(b, from) != 0 && forall k | k != from :: Quantity(b, k) == 0
    requires Balanced(b, closed, from, -Quantity(b, from), frontFill)
    requires Balanced(closed, both, to, Quantity(b, from), backFill)
    ensures var a := Carry(both, from, to);
            && Quantity(a, to) == Quantity(b, from) && (forall k | k != to :: Quantity(a, k) == 0)
            && a.realizedPnl - Basis(a, to)
               == b.realizedPnl - Basis(b, from) + Outlay(from, Quantity(b, from), frontFill) - Outlay(to, Quantity(b, from), backFill)
  {
    forall k | k != from ensures Quantity(closed, k) == 0 {
      T.OtherContract(b, closed, from, k);
    }
    forall k | k != to ensures Quantity(Carry(both, from, to), k) == 0 {
      T.OtherContract(closed, both, to, k);
    }
    FlatBasis(closed, from);
    FlatBasis(closed, to);
    NegatedOutlay(from, Quantity(b, from), frontFill);
  }

  lemma FlatBasis(b: Book, c: Contract)
    requires Quantity(b, c) == 0
    ensures Basis(b, c) == 0.0
  {
  }

  lemma NegatedOutlay(c: Contract, quantity: int, price: real)
    ensures Outlay(c, -quantity, price) == -Outlay(c, quantity, price)
  {
  }

  /** With nothing open, a bar trades only its roll. */
  lemma TradeHolds(cfg: Config, s: EngineState, bar: Bar, from: Contract, quantity: int)
    requires Holding(s.account, from, quantity) && Mult(from) == Mult(bar.contract)
    requires Carries(cfg.rolls, Day(bar.ts), from, bar.contract) && Trade(cfg, s, bar).Success?
    ensures var t := Trade(cfg, s, bar).value;
            && Holding(t.account, bar.contract, quantity) && Locked(t, bar.contract) == Locked(s, from)
            && t.marks == s.marks[bar.contract := bar.close]
  {
    FilledStay(s.account, |s.account.orders|, bar, cfg.slip);
    if from != bar.contract {
      RollHolds(cfg.rolls, s.account, Day(bar.ts), from, bar.contract, quantity);
    }
  }

  lemma StepHolds(cfg: Config, s: EngineState, n: EngineState, bar: Bar, from: Contract, quantity: int)
    requires Holding(s.account, from, quantity) && Mult(from) == Mult(bar.contract)
    requires Carries(cfg.rolls, Day(bar.ts), from, bar.contract)
    requires BarStep(cfg, s, bar) == Success(n) && n.account.orders == s.account.orders
    ensures Holding(n.account, bar.contract, quantity) && Locked(n, bar.contract) == Locked(s, from)
    ensures |n.curve| == |s.curve| + 1
    ensures n.curve[|s.curve|] == cfg.start + Locked(n, bar.contract) - n.rollCost + Worth(quantity, bar.close, Mult(bar.contract))
  {
    TradeHolds(cfg, s, bar, from, quantity);
    var t := Trade(cfg, s, bar).value;
    HeldEquity(cfg.start, t.account.book, t.marks, bar.contract);
  }

  // ---------------------------------------------------------------------------------------------
  // A run of holding
  // ---------------------------------------------------------------------------------------------

  /** No order is placed after bar `e`: the strategy is silent, asks for what is held, or is refused. */
  ghost predicate NonePlaced(cfg: Config, a: Account, bars: seq<Bar>, e: nat)
    requires Shaped(a) && e < |bars|
  {
    && RunBars(cfg, a, bars).Success? && RunBars(cfg, a, bars[..e + 1]).Success?
    && RunBars(cfg, a, bars).value.account.orders == RunBars(cfg, a, bars[..e + 1]).value.account.orders
  }

  lemma OrdersGrow(cfg: Config, a: Account, bars: seq<Bar>, n: nat)
    requires Accounted(a) && n <= |bars| && RunBars(cfg, a, bars).Success?
    ensures RunBars(cfg, a, bars[..n]).Success?
    ensures RunBars(cfg, a, bars[..n]).value.account.orders <= RunBars(cfg, a, bars).value.account.orders
  {
    PrefixCausality(cfg, a, bars, n);
  }

  /** Orders are never taken back, so none is placed in any shorter run either. */
  lemma NonePlacedBefore(cfg: Config, a: Account, bars: seq<Bar>, e: nat, n: nat)
    requires Accounted(a) && e < n <= |bars| && NonePlaced(cfg, a, bars, e)
    ensures RunBars(cfg, a, bars[..n]).Success? && NonePlaced(cfg, a, bars[..n], e)
    ensures RunBars(cfg, a, bars[..n]).value.account.orders == RunBars(cfg, a, bars).value.account.orders
  {
    var shorter := bars[..n];
    assert shorter[..e + 1] == bars[..e + 1];
    OrdersGrow(cfg, a, bars, n);
    OrdersGrow(cfg, a, shorter, e + 1);
    Squeezed(RunBars(cfg, a, bars[..e + 1]).value.account.orders, RunBars(cfg, a, shorter).value.account.orders,
             RunBars(cfg, a, bars).value.account.orders);
  }

  lemma Squeezed(x: seq<Order>, y: seq<Order>, z: seq<Order>)
    requires x <= y <= z && x == z
    ensures y == z
  {
  }

  /** Every bar after `from` finds its contract held: unchanged, or rolled into on that bar's day. */
  ghost predicate Covered(rolls: map<int, RollEvent>, bars: seq<Bar>, from: nat) {
    forall j | from < j < |bars| ::
      Carries(rolls, Day(bars[j].ts), bars[j - 1].contract, bars[j].contract) && Mult(bars[j - 1].contract) == Mult(bars[j].contract)
  }

  /** The run holds the last bar's contract, and its last curve point follows that bar's close. */
  ghost predicate HeldAt(cfg: Config, bars: seq<Bar>, n: EngineState, quantity: int)
    requires |bars| > 0
  {
    var last := bars[|bars| - 1];
    && Holding(n.account, last.contract, quantity) && |n.curve| == |bars|
    && n.curve[|bars| - 1] == cfg.start + Locked(n, last.contract) - n.rollCost + Worth(quantity, last.close, Mult(last.contract))
  }

  lemma CoveredShorter(rolls: map<int, RollEvent>, bars: seq<Bar>, e: nat)
    requires |bars| > 0 && Covered(rolls, bars, e)
    ensures Covered(rolls, bars[..|bars| - 1], e)
  {
    var shorter := bars[..|bars| - 1];
    forall j | e < j < |shorter|
      ensures Carries(rolls, Day(shorter[j].ts), shorter[j - 1].contract, shorter[j].contract) && Mult(shorter[j - 1].contract) == Mult(shorter[j].contract)
    {
      assert shorter[j] == bars[j] && shorter[j - 1] == bars[j - 1];
    }
  }

  /** What holding from bar `e`, where the run stood at `s`, means at the last bar. */
  ghost predicate HeldSince(cfg: Config, bars: seq<Bar>, e: nat, s: EngineState, n: EngineState, quantity: int)
    requires e < |bars|
  {
    var last := bars[|bars| - 1];
    && Holding(n.account, last.contract, quantity) && (|bars| > e + 1 ==> HeldAt(cfg, bars, n, quantity))
    && Locked(n, last.contract) == Locked(s, bars[e].contract) && Mult(last.contract) == Mult(bars[e].contract)
  }

  /** The last bar of a run without placements is one step without a placement after a shorter such run. */
  lemma LastStep(cfg: Config, a: Account, bars: seq<Bar>, e: nat) returns (s: EngineState, n: EngineState)
    requires Accounted(a) && e + 1 < |bars| && NonePlaced(cfg, a, bars, e)
    ensures RunBars(cfg, a, bars[..|bars| - 1]) == Success(s) && RunBars(cfg, a, bars) == Success(n)
    ensures |s.curve| == |bars| - 1 && BarStep(cfg, s, bars[|bars| - 1]) == Success(n) && n.account.orders == s.account.orders
    ensures NonePlaced(cfg, a, bars[..|bars| - 1], e) && bars[..|bars| - 1][..e + 1] == bars[..e + 1]
  {
    var shorter := bars[..|bars| - 1];
    assert shorter[..e + 1] == bars[..e + 1];
    NonePlacedBefore(cfg, a, bars, e, |bars| - 1);
    s, n := RunLast(cfg, a, bars);
    KeepsPoints(cfg, a, shorter, s);
  }

  lemma KeepsPoints(cfg: Config, a: Account, bars: seq<Bar>, s: EngineState)
    requires Accounted(a) && RunBars(cfg, a, bars) == Success(s)
    ensures |s.curve| == |bars|
  {
    RunKeeps(cfg, a, bars);
  }

  lemma {:induction false} HoldsThrough(cfg: Config, a: Account, bars: seq<Bar>, e: nat, quantity: int)
    requires Accounted(a) && e < |bars| && NonePlaced(cfg, a, bars, e) && Covered(cfg.rolls, bars, e)
    requires Holding(RunBars(cfg, a, bars[..e + 1]).value.account, bars[e].contract, quantity)
    ensures HeldSince(cfg, bars, e, RunBars(cfg, a, bars[..e + 1]).value, RunBars(cfg, a, bars).value, quantity)
    decreases |bars|
  {
    if |bars| == e + 1 {
      assert bars[..e + 1] == bars;
    } else {
      var shorter := bars[..|bars| - 1];
      var s, n := LastStep(cfg, a, bars, e);
      CoveredShorter(cfg.rolls, bars, e);
      HoldsThrough(cfg, a, shorter, e, quantity);
      HoldsOn(cfg, bars, e, RunBars(cfg, a, bars[..e + 1]).value, s, n, quantity);
    }
  }

  /** Holding carries over one more bar. */
  lemma HoldsOn(cfg: Config, bars: seq<Bar>, e: nat, s: EngineState, m: EngineState, n: EngineState, quantity: int)
    requires e + 1 < |bars| && HeldSince(cfg, bars[..|bars| - 1], e, s, m, quantity)
    requires |m.curve| == |bars| - 1 && BarStep(cfg, m, bars[|bars| - 1]) == Success(n) && n.account.orders == m.account.orders
    requires Covered(cfg.rolls, bars, e)
    ensures HeldSince(cfg, bars, e, s, n, quantity)
  {
    var last, before := bars[|bars| - 1], bars[|bars| - 2];
    assert Carries(cfg.rolls, Day(last.ts), before.contract, last.contract) && Mult(before.contract) == Mult(last.contract);
    StepHolds(cfg, m, n, last, before.contract, quantity);
  }

  /** The curve point of a bar whose contract is the one held. */
  lemma HeldPoint(cfg: Config, a: Account, bars: seq<Bar>, quantity: int)
    requires Accounted(a) && |bars| > 0 && RunBars(cfg, a, bars).Success?
    requires Holding(RunBars(cfg, a, bars).value.account, bars[|bars| - 1].contract, quantity)
    ensures var n, last := RunBars(cfg, a, bars).value, bars[|bars| - 1];
            && |n.curve| == |bars|
            && n.curve[|bars| - 1] == cfg.start + Locked(n, last.contract) - n.rollCost + Worth(quantity, last.close, Mult(last.contract))
  {
    RunKeeps(cfg, a, bars);
    var s, n := RunLast(cfg, a, bars);
    StepPoint(cfg, s, n, bars[|bars| - 1]);
    HeldEquity(cfg.start, n.account.book, n.marks, bars[|bars| - 1].contract);
  }

  lemma StepPoint(cfg: Config, s: EngineState, n: EngineState, bar: Bar)
    requires Shaped(s.account) && BarStep(cfg, s, bar) == Success(n)
    ensures |n.curve| == |s.curve| + 1 && n.curve[|s.curve|] == Equity(cfg.start, n.account.book, n.marks)
    ensures bar.contract in n.marks && n.marks[bar.contract] == bar.close
  {
  }

  lemma StepMarks(cfg: Config, s: EngineState, n: EngineState, bar: Bar)
    requires Shaped(s.account) && BarStep(cfg, s, bar) == Success(n)
    ensures n.marks == s.marks[bar.contract := bar.close]
  {
  }

  /** From bar `e`, where the run stood at `s`, to the last bar, where it stands at `n`, equity moved by
    * quantity times multiplier times the move of the close, less the roll costs in between. */
  ghost predicate MovesWithClose(bars: seq<Bar>, e: nat, quantity: int, s: EngineState, n: EngineState)
    requires e < |bars|
  {
    var last, m := bars[|bars| - 1], Mult(bars[e].contract);
    && |n.curve| == |bars|
    && n.curve[|bars| - 1]
       == n.curve[e] + Worth(quantity, last.close, m) - Worth(quantity, bars[e].close, m) - (n.rollCost - s.rollCost)
  }

  /** Between any two bars of a held position, equity moves by the held quantity times the move of
    * the stream's close, less the roll costs booked in between: the gap between the front and back
    * price of a roll never shows up as profit or loss. */
  lemma Telescopes(cfg: Config, a: Account, bars: seq<Bar>, e: nat, quantity: int)
    requires Accounted(a) && e < |bars| && NonePlaced(cfg, a, bars, e) && Covered(cfg.rolls, bars, e)
    requires Holding(RunBars(cfg, a, bars[..e + 1]).value.account, bars[e].contract, quantity)
    ensures MovesWithClose(bars, e, quantity, RunBars(cfg, a, bars[..e + 1]).value, RunBars(cfg, a, bars).value)
  {
    HoldsThrough(cfg, a, bars, e, quantity);
    HeldPoint(cfg, a, bars, quantity);
    HeldPoint(cfg, a, bars[..e + 1], quantity);
    PrefixCausality(cfg, a, bars, e + 1);
  }

  /** From one entry of `quantity` at `entry` with nothing realized before: equity at the last bar is
    * the start plus quantity times multiplier times (close less entry), less all roll costs. */
  lemma TelescopesFromEntry(cfg: Config, a: Account, bars: seq<Bar>, e: nat, quantity: int, entry: real)
    requires Accounted(a) && e < |bars| && NonePlaced(cfg, a, bars, e) && Covered(cfg.rolls, bars, e)
    requires var s := RunBars(cfg, a, bars[..e + 1]).value;
             && Holding(s.account, bars[e].contract, quantity) && s.account.book.realizedPnl == 0.0 && s.rollCost == 0.0
             && AvgEntry(s.account.book, bars[e].contract) == entry
    ensures var n, last, m := RunBars(cfg, a, bars).value, bars[|bars| - 1], Mult(bars[e].contract);
            && |n.curve| == |bars|
            && n.curve[|bars| - 1] == cfg.start + Worth(quantity, last.close, m) - Worth(quantity, entry, m) - n.rollCost
  {
    HoldsThrough(cfg, a, bars, e, quantity);
    HeldPoint(cfg, a, bars, quantity);
    EntryLocked(RunBars(cfg, a, bars[..e + 1]).value, bars[e].contract, quantity, entry);
  }

  lemma EntryLocked(s: EngineState, c: Contract, quantity: int, entry: real)
    requires Quantity(s.account.book, c) == quantity && AvgEntry(s.account.book, c) == entry
    requires s.account.book.realizedPnl == 0.0 && s.rollCost == 0.0
    ensures Locked(s, c) == -Worth(quantity, entry, Mult(c))
  {
  }

  // ---------------------------------------------------------------------------------------------
  // When nothing is placed
  // ---------------------------------------------------------------------------------------------

  /** The strategy is silent on every history longer than `n`, and there is no stop. */
  ghost predicate QuietAfter(cfg: Config, n: nat) {
    cfg.stopLoss.None? && forall h: seq<Bar> | |h| > n :: cfg.strategy(h).None?
  }

  lemma NonePlacedNext(cfg: Config, a: Account, bars: seq<Bar>, e: nat, s: EngineState, n: EngineState)
    requires Shaped(a) && e + 1 < |bars| && NonePlaced(cfg, a, bars[..|bars| - 1], e) && n.account.orders == s.account.orders
    requires RunBars(cfg, a, bars[..|bars| - 1]) == Success(s) && RunBars(cfg, a, bars) == Success(n)
    ensures NonePlaced(cfg, a, bars, e)
  {
    assert bars[..|bars| - 1][..e + 1] == bars[..e + 1];
  }

  lemma SilentStepPlaces(cfg: Config, s: EngineState, n: EngineState, bar: Bar, k: nat)
    requires Shaped(s.account) && BarStep(cfg, s, bar) == Success(n) && QuietAfter(cfg, k) && |s.history| >= k
    ensures n.account.orders == s.account.orders
  {
    RollKeepsOrders(cfg.rolls, Advanced(s.account, bar, cfg.slip).account, Day(bar.ts));
  }

  /** A strategy that has fallen silent places nothing. */
  lemma {:induction false} SilentPlacesNone(cfg: Config, a: Account, bars: seq<Bar>, e: nat)
    requires Accounted(a) && e < |bars| && RunBars(cfg, a, bars).Success? && QuietAfter(cfg, e + 1)
    ensures NonePlaced(cfg, a, bars, e)
    decreases |bars|
  {
    if |bars| == e + 1 {
      assert bars[..e + 1] == bars;
    } else {
      var shorter := bars[..|bars| - 1];
      var s, n := RunLast(cfg, a, bars);
      RunKeeps(cfg, a, shorter);
      SilentPlacesNone(cfg, a, shorter, e);
      SilentStepPlaces(cfg, s, n, bars[|bars| - 1], e + 1);
      NonePlacedNext(cfg, a, bars, e, s, n);
    }
  }
}
