/** The prop-account limits over the mock broker: futur3/execution/adapters/prop_aware_mock_broker.py. */
module PropGuard {
  import opened Wrappers
  import opened Contracts
  import opened Sums
  import opened Ledger

  datatype Halt = DailyLoss | TrailingLoss

  datatype Reason = BadQuantity | AllTradesBlocked | AccountHalted(halt: Halt) | AboveMaxContracts | Breach(halt: Halt)

  datatype Limits = Limits(
    start: real, dailyLoss: real, trailingLoss: real, maxContracts: int, initialPeak: real, blockAll: bool)
  {
    predicate Valid() {
      start > 0.0 && dailyLoss > 0.0 && trailingLoss > 0.0 && maxContracts >= 1 && initialPeak >= start
    }
  }

  datatype Guard = Guard(book: Book, peak: real, halt: Option<Halt>)

  function NewGuard(limits: Limits): Guard {
    Guard(EMPTY_BOOK, limits.initialPeak, None)
  }

  // ---------------------------------------------------------------------------------------------
  // The pre-trade check
  // ---------------------------------------------------------------------------------------------

  /** Realized equity: the mock broker's own unrealized profit is always zero. */
  function EquityOf(limits: Limits, b: Book): real {
    limits.start + b.realizedPnl
  }

  /** What a risk-increasing check finds wrong with the account now. */
  function Breached(limits: Limits, b: Book, peak: real): Option<Halt> {
    if b.realizedPnl <= -limits.dailyLoss then Some(DailyLoss)
    else if peak - EquityOf(limits, b) >= limits.trailingLoss then Some(TrailingLoss)
    else None
  }

  function Observed(limits: Limits, g: Guard): Guard {
    g.(peak := Max(g.peak, EquityOf(limits, g.book)))
  }

  datatype Verdict = Verdict(guard: Guard, blocked: Option<Reason>)

  function IncreasingCheck(limits: Limits, g: Guard, resulting: int): Verdict {
    if g.halt.Some? then Verdict(g, Some(AccountHalted(g.halt.value)))
    else if resulting > limits.maxContracts then Verdict(g, Some(AboveMaxContracts))
    else
      var seen := Observed(limits, g);
      match Breached(limits, seen.book, seen.peak)
      case Some(h) => Verdict(seen.(halt := Some(h)), Some(Breach(h)))
      case None => Verdict(seen, None)
  }

  function SignedDelta(side: Side, quantity: int): int {
    if side == Buy then quantity else -quantity
  }

  /** An order that strictly shrinks the position is let through; any other meets the limits. */
  function Check(limits: Limits, g: Guard, c: Contract, side: Side, quantity: int): Verdict {
    if quantity <= 0 then Verdict(g, Some(BadQuantity))
    else if limits.blockAll then Verdict(g, Some(AllTradesBlocked))
    else
      var current := Quantity(g.book, c);
      var resulting := current + SignedDelta(side, quantity);
      if Abs(resulting) < Abs(current) then Verdict(g, None) else IncreasingCheck(limits, g, Abs(resulting))
  }

  class PropAwareMockBroker {
    const limits: Limits
    var positions: map<Contract, Position>
    var realizedPnl: real
    var tradePnls: seq<real>
    var openTradePnl: map<Contract, real>
    var equityPeak: real
    var halted: Option<Halt>

    function State(): Guard
      reads this
    {
      Guard(Book(positions, realizedPnl, tradePnls, openTradePnl), equityPeak, halted)
    }

    constructor (limits: Limits)
      requires limits.Valid()
      ensures this.limits == limits && State() == NewGuard(limits)
    {
      this.limits := limits;
      positions, realizedPnl, tradePnls, openTradePnl := map[], 0.0, [], map[];
      equityPeak, halted := limits.initialPeak, None;
    }

    method Reset()
      modifies this
      ensures State() == NewGuard(limits)
    {
      positions, realizedPnl, tradePnls, openTradePnl := map[], 0.0, [], map[];
      equityPeak, halted := limits.initialPeak, None;
    }

    method Observe(equity: real)
      modifies this`equityPeak
      ensures equityPeak == Max(old(equityPeak), equity)
    {
      if equity > equityPeak {
        equityPeak := equity;
      }
    }

    method GetAccountMetrics() returns (equity: real)
      modifies this`equityPeak
      ensures State() == old(Observed(limits, State())) && equity == limits.start + realizedPnl
    {
      equity := limits.start + realizedPnl;
      Observe(equity);
    }

    method IncreasingBlockReason(resulting: int) returns (blocked: Option<Reason>)
      modifies this`equityPeak, this`halted
      ensures Verdict(State(), blocked) == old(IncreasingCheck(limits, State(), resulting))
    {
      if halted.Some? {
        return Some(AccountHalted(halted.value));
      }
      if resulting > limits.maxContracts {
        return Some(AboveMaxContracts);
      }
      var equity := limits.start + realizedPnl;
      Observe(equity);
      if realizedPnl <= -limits.dailyLoss {
        halted := Some(DailyLoss);
        return Some(Breach(DailyLoss));
      }
      var drawdown := equityPeak - equity;
      if drawdown >= limits.trailingLoss {
        halted := Some(TrailingLoss);
        return Some(Breach(TrailingLoss));
      }
      blocked := None;
    }

    method IsTradeAllowed(c: Contract, side: Side, quantity: int) returns (blocked: Option<Reason>)
      modifies this`equityPeak, this`halted
      ensures Verdict(State(), blocked) == old(Check(limits, State(), c, side, quantity))
    {
      if quantity <= 0 {
        return Some(BadQuantity);
      }
      if limits.blockAll {
        return Some(AllTradesBlocked);
      }
      var current := if c in positions then positions[c].quantity else 0;
      var resulting := current + if side == Buy then quantity else -quantity;
      if Abs(resulting) < Abs(current) {
        return None;
      }
      blocked := IncreasingBlockReason(Abs(resulting));
    }
  }

  // ---------------------------------------------------------------------------------------------
  // Whole runs
  // ---------------------------------------------------------------------------------------------

  /** An order checked and, when allowed, filled in full at `price` before the next; or a metrics poll. */
  datatype Event =
    | Trade(contract: Contract, side: Side, quantity: int, price: real)
    | Poll

  /** The ledger after the fill; a raise leaves positions as they were. */
  function FilledBook(b: Book, e: Event): Book
    requires e.Trade?
  {
    ApplyDelta(b, e.contract, SignedDelta(e.side, e.quantity), e.price, false).book
  }

  function Next(limits: Limits, g: Guard, e: Event): Guard {
    match e
    case Poll => Observed(limits, g)
    case Trade(c, side, quantity, price) =>
      var v := Check(limits, g, c, side, quantity);
      if v.blocked.Some? then v.guard else v.guard.(book := FilledBook(g.book, e))
  }

  function Run(limits: Limits, g: Guard, events: seq<Event>): Guard {
    if |events| == 0 then g else Next(limits, Run(limits, g, events[..|events| - 1]), events[|events| - 1])
  }

  /** Positions after a fill: the one contract moves by the whole delta, or the ledger raised. */
  lemma FillQuantities(b: Book, c: Contract, delta: int, price: real)
    ensures var s := ApplyDelta(b, c, delta, price, false);
            if s.Done? then Quantity(s.book, c) == Quantity(b, c) + delta && forall k | k != c :: Quantity(s.book, k) == Quantity(b, k)
            else s.book.positions == b.positions
  {
    if ApplyDelta(b, c, delta, price, false).Done? {
      FillIdentity(b, c, delta, price, false);
    }
  }

  ghost predicate WithinCap(limits: Limits, b: Book) {
    forall c :: Abs(Quantity(b, c)) <= limits.maxContracts
  }

  /** An allowed order leaves its contract within the cap, if it was. */
  lemma NextWithinCap(limits: Limits, g: Guard, e: Event)
    requires WithinCap(limits, g.book)
    ensures WithinCap(limits, Next(limits, g, e).book)
  {
    if e.Trade? && Check(limits, g, e.contract, e.side, e.quantity).blocked.None? {
      var delta := SignedDelta(e.side, e.quantity);
      FillQuantities(g.book, e.contract, delta, e.price);
      var after := Next(limits, g, e).book;
      assert Abs(Quantity(g.book, e.contract)) <= limits.maxContracts;
      forall c ensures Abs(Quantity(after, c)) <= limits.maxContracts {
        assert Abs(Quantity(g.book, c)) <= limits.maxContracts;
      }
    }
  }

  /** The peak never falls and stays at or above the start; a halt, once latched, keeps its reason. */
  lemma NextLatches(limits: Limits, g: Guard, e: Event)
    ensures var n := Next(limits, g, e);
            n.peak >= g.peak && (g.halt.Some? ==> n.halt == g.halt)
  {
  }

  lemma {:induction false} RunWithinCap(limits: Limits, g: Guard, events: seq<Event>)
    requires WithinCap(limits, g.book)
    ensures WithinCap(limits, Run(limits, g, events).book)
  {
    if |events| > 0 {
      RunWithinCap(limits, g, events[..|events| - 1]);
      NextWithinCap(limits, Run(limits, g, events[..|events| - 1]), events[|events| - 1]);
    }
  }

  lemma {:induction false} RunLatches(limits: Limits, g: Guard, events: seq<Event>)
    ensures var n := Run(limits, g, events);
            n.peak >= g.peak && (g.halt.Some? ==> n.halt == g.halt)
  {
    if |events| > 0 {
      RunLatches(limits, g, events[..|events| - 1]);
      NextLatches(limits, Run(limits, g, events[..|events| - 1]), events[|events| - 1]);
    }
  }

  /** From a fresh broker: every position stays within the cap for the whole run. */
  lemma {:induction false} CapHolds(limits: Limits, events: seq<Event>, c: Contract)
    requires limits.Valid()
    ensures Abs(Quantity(Run(limits, NewGuard(limits), events).book, c)) <= limits.maxContracts
    ensures Run(limits, NewGuard(limits), events).peak >= limits.initialPeak
  {
    assert WithinCap(limits, EMPTY_BOOK);
    RunWithinCap(limits, NewGuard(limits), events);
    RunLatches(limits, NewGuard(limits), events);
  }

  // ---------------------------------------------------------------------------------------------
  // What halts an account
  // ---------------------------------------------------------------------------------------------

  /** An order that would not shrink its position, on an open account and within the cap: it meets the loss limits. */
  predicate MeetsLimits(limits: Limits, g: Guard, e: Event) {
    && e.Trade? && e.quantity > 0 && !limits.blockAll && g.halt.None?
    && Abs(Quantity(g.book, e.contract) + SignedDelta(e.side, e.quantity)) >= Abs(Quantity(g.book, e.contract))
    && Abs(Quantity(g.book, e.contract) + SignedDelta(e.side, e.quantity)) <= limits.maxContracts
  }

  /** The equities a run has looked at: the starting peak, then one for each poll and each order that met the limits. */
  function EquitiesSeen(limits: Limits, events: seq<Event>): seq<real> {
    if |events| == 0 then [limits.initialPeak]
    else
      var before, e := events[..|events| - 1], events[|events| - 1];
      var g := Run(limits, NewGuard(limits), before);
      EquitiesSeen(limits, before) + if e.Poll? || MeetsLimits(limits, g, e) then [limits.start + g.book.realizedPnl] else []
  }

  ghost predicate IsHighest(x: real, seen: seq<real>) {
    x in seen && forall i | 0 <= i < |seen| :: seen[i] <= x
  }

  lemma HighestNext(peak: real, seen: seq<real>, equity: real)
    requires IsHighest(peak, seen)
    ensures IsHighest(Max(peak, equity), seen + [equity])
  {
    assert (seen + [equity])[|seen|] == equity;
    if peak >= equity {
      var i :| 0 <= i < |seen| && seen[i] == peak;
      assert (seen + [equity])[i] == peak;
    }
  }

  /** The peak is the highest equity the run has looked at. */
  lemma {:induction false} PeakIsHighest(limits: Limits, events: seq<Event>)
    ensures IsHighest(Run(limits, NewGuard(limits), events).peak, EquitiesSeen(limits, events))
  {
    if |events| > 0 {
      var before, e := events[..|events| - 1], events[|events| - 1];
      var g := Run(limits, NewGuard(limits), before);
      PeakIsHighest(limits, before);
      HighestNext(g.peak, EquitiesSeen(limits, before), limits.start + g.book.realizedPnl);
      PeakMoves(limits, g, e);
      assert EquitiesSeen(limits, before) + [] == EquitiesSeen(limits, before);
    }
  }

  lemma PeakMoves(limits: Limits, g: Guard, e: Event)
    ensures Next(limits, g, e).peak
            == if e.Poll? || MeetsLimits(limits, g, e) then Max(g.peak, limits.start + g.book.realizedPnl) else g.peak
  {
  }

  /** Some equity seen lies the trailing limit or more above `equity`. */
  ghost predicate Trails(limits: Limits, seen: seq<real>, equity: real) {
    exists i :: 0 <= i < |seen| && seen[i] - equity >= limits.trailingLoss
  }

  lemma TrailsPeak(limits: Limits, peak: real, seen: seq<real>, equity: real)
    requires IsHighest(peak, seen) && limits.trailingLoss > 0.0
    ensures Trails(limits, seen, equity) <==> Max(peak, equity) - equity >= limits.trailingLoss
  {
    if peak - equity >= limits.trailingLoss {
      var i :| 0 <= i < |seen| && seen[i] == peak;
    }
  }

  /** The check of an order halts the account for the loss since the start, else for the drop from an equity seen, and
    * passes the order otherwise. */
  ghost predicate Decides(limits: Limits, g: Guard, seen: seq<real>, e: Event)
    requires e.Trade?
  {
    var v, equity := Check(limits, g, e.contract, e.side, e.quantity), limits.start + g.book.realizedPnl;
    && (v.guard.halt == Some(DailyLoss) <==> limits.start - equity >= limits.dailyLoss)
    && (v.guard.halt == Some(TrailingLoss) <==> limits.start - equity < limits.dailyLoss && Trails(limits, seen, equity))
    && (v.blocked.None? <==> v.guard.halt.None?)
  }

  /** After any run from a fresh account, an order that meets the limits halts it for the daily loss exactly when what
    * is realized is that loss or worse; for the trailing loss exactly when it is not, and the account stands that far
    * below an equity it was seen at; and passes otherwise. */
  lemma HaltsExactly(limits: Limits, events: seq<Event>, e: Event)
    requires limits.Valid() && MeetsLimits(limits, Run(limits, NewGuard(limits), events), e)
    ensures Decides(limits, Run(limits, NewGuard(limits), events), EquitiesSeen(limits, events), e)
  {
    PeakIsHighest(limits, events);
    HaltsFrom(limits, Run(limits, NewGuard(limits), events), EquitiesSeen(limits, events), e);
  }

  lemma HaltsFrom(limits: Limits, g: Guard, seen: seq<real>, e: Event)
    requires limits.Valid() && MeetsLimits(limits, g, e) && IsHighest(g.peak, seen)
    ensures Decides(limits, g, seen, e)
  {
    TrailsPeak(limits, g.peak, seen, limits.start + g.book.realizedPnl);
    LimitsDecide(limits, g, e);
  }

  lemma LimitsDecide(limits: Limits, g: Guard, e: Event)
    requires limits.Valid() && MeetsLimits(limits, g, e)
    ensures var v, equity := Check(limits, g, e.contract, e.side, e.quantity), limits.start + g.book.realizedPnl;
            && (v.guard.halt == Some(DailyLoss) <==> limits.start - equity >= limits.dailyLoss)
            && (v.guard.halt == Some(TrailingLoss) <==>
                  limits.start - equity < limits.dailyLoss && Max(g.peak, equity) - equity >= limits.trailingLoss)
            && (v.blocked.None? <==> v.guard.halt.None?)
  {
  }

  // ---------------------------------------------------------------------------------------------
  // After a halt
  // ---------------------------------------------------------------------------------------------

  function Sizes(b: Book): map<Contract, real> {
    map c | c in b.positions :: Abs(b.positions[c].quantity) as real
  }

  /** Contracts held, long or short, over all positions. */
  ghost function Exposure(b: Book): real {
    Total(Sizes(b))
  }

  lemma {:induction false} TotalNonNegative<K>(m: map<K, real>)
    requires forall k | k in m :: m[k] >= 0.0
    ensures Total(m) >= 0.0
    decreases |m|
  {
    if m != map[] {
      var k :| k in m;
      TotalRemove(m, k);
      TotalNonNegative(m - {k});
    }
  }

  lemma FillExposure(b: Book, c: Contract, delta: int, price: real)
    requires ApplyDelta(b, c, delta, price, false).Done?
    ensures Exposure(ApplyDelta(b, c, delta, price, false).book)
            == Exposure(b) - Abs(Quantity(b, c)) as real + Abs(Quantity(b, c) + delta) as real
  {
    FillIdentity(b, c, delta, price, false);
    var a := ApplyDelta(b, c, delta, price, false).book;
    assert Sizes(a) == Sizes(b)[c := Abs(Quantity(a, c)) as real];
    TotalUpdate(Sizes(b), c, Abs(Quantity(a, c)) as real);
  }

  /** The order passed the check and its fill completed. */
  predicate Completes(limits: Limits, g: Guard, e: Event) {
    && e.Trade? && Check(limits, g, e.contract, e.side, e.quantity).blocked.None?
    && ApplyDelta(g.book, e.contract, SignedDelta(e.side, e.quantity), e.price, false).Done?
  }

  lemma HaltedShrinks(limits: Limits, g: Guard, e: Event)
    requires g.halt.Some?
    ensures var fewer := if Completes(limits, g, e) then 1.0 else 0.0;
            Exposure(Next(limits, g, e).book) <= Exposure(g.book) - fewer
  {
    if e.Trade? && Check(limits, g, e.contract, e.side, e.quantity).blocked.None? {
      var delta := SignedDelta(e.side, e.quantity);
      if Completes(limits, g, e) {
        FillExposure(g.book, e.contract, delta, e.price);
      } else {
        FillQuantities(g.book, e.contract, delta, e.price);
        assert Sizes(Next(limits, g, e).book) == Sizes(g.book);
      }
    }
  }

  /** Fills completed during a run. */
  function Completed(limits: Limits, g: Guard, events: seq<Event>): nat {
    if |events| == 0 then 0
    else
      var before := events[..|events| - 1];
      Completed(limits, g, before) + if Completes(limits, Run(limits, g, before), events[|events| - 1]) then 1 else 0
  }

  /** After a halt at most as many orders can still fill as contracts are held. */
  lemma {:induction false} HaltedFillsAreFew(limits: Limits, g: Guard, events: seq<Event>)
    requires g.halt.Some?
    ensures Exposure(Run(limits, g, events).book) + Completed(limits, g, events) as real <= Exposure(g.book)
    ensures Completed(limits, g, events) as real <= Exposure(g.book)
  {
    if |events| > 0 {
      var before := events[..|events| - 1];
      HaltedFillsAreFew(limits, g, before);
      RunLatches(limits, g, before);
      HaltedShrinks(limits, Run(limits, g, before), events[|events| - 1]);
    }
    TotalNonNegative(Sizes(Run(limits, g, events).book));
  }

  // ---------------------------------------------------------------------------------------------
  // Working orders and the cap
  // ---------------------------------------------------------------------------------------------

  /** Orders in one contract that its ledger can fill. */
  predicate Fillable(c: Contract, orders: seq<Event>) {
    forall i | 0 <= i < |orders| :: orders[i].Trade? && orders[i].contract == c && orders[i].quantity > 0 && orders[i].price > 0.0
  }

  /** An open position has a positive entry price, as every stored position does. */
  predicate Entered(b: Book, c: Contract) {
    Quantity(b, c) != 0 ==> AvgEntry(b, c) > 0.0
  }

  function Net(orders: seq<Event>): int {
    if |orders| == 0 then 0
    else Net(orders[..|orders| - 1]) + match orders[|orders| - 1] case Trade(_, side, quantity, _) => SignedDelta(side, quantity) case Poll => 0
  }

  /** Total quantity on one side. */
  function OnSide(orders: seq<Event>, side: Side): int {
    if |orders| == 0 then 0
    else
      var last := orders[|orders| - 1];
      OnSide(orders[..|orders| - 1], side) + if last.Trade? && last.side == side then last.quantity else 0
  }

  /** The book once all of `orders` are filled in full. */
  function FilledAll(b: Book, orders: seq<Event>): Book {
    if |orders| == 0 then b
    else
      var before, last := FilledAll(b, orders[..|orders| - 1]), orders[|orders| - 1];
      if last.Trade? then FilledBook(before, last) else before
  }

  /** An ordinary fill of a priced contract always completes. */
  lemma FillCompletes(b: Book, c: Contract, delta: int, price: real)
    requires Entered(b, c) && price > 0.0 && MultiplierFor(c).Some? && delta != 0
    ensures ApplyDelta(b, c, delta, price, false).Done? && Entered(ApplyDelta(b, c, delta, price, false).book, c)
  {
    var quantity := Quantity(b, c);
    if quantity != 0 && SameDirection(quantity, delta) {
      EntryPositive(AvgEntry(b, c), quantity, price, delta);
    }
  }

  lemma EntryPositive(avg: real, quantity: int, price: real, delta: int)
    requires SameDirection(quantity, delta) && avg > 0.0 && price > 0.0
    ensures AverageEntry(avg, quantity, price, delta) > 0.0
  {
    var x, y := avg * Abs(quantity) as real, price * Abs(delta) as real;
    assert x > 0.0 && y > 0.0;
    PositiveQuotient(x + y, Abs(quantity + delta) as real);
  }

  lemma PositiveQuotient(x: real, y: real)
    requires x > 0.0 && y > 0.0
    ensures x / y > 0.0
  {
  }

  /** Filling the orders moves the position by their net. */
  lemma {:induction false} FilledMoves(b: Book, c: Contract, orders: seq<Event>)
    requires Fillable(c, orders) && Entered(b, c) && MultiplierFor(c).Some?
    ensures Quantity(FilledAll(b, orders), c) == Quantity(b, c) + Net(orders) && Entered(FilledAll(b, orders), c)
  {
    if |orders| > 0 {
      var before, last := orders[..|orders| - 1], orders[|orders| - 1];
      FilledMoves(b, c, before);
      FillCompletes(FilledAll(b, before), c, SignedDelta(last.side, last.quantity), last.price);
      FillQuantities(FilledAll(b, before), c, SignedDelta(last.side, last.quantity), last.price);
    }
  }

  lemma {:induction false} NetBySide(c: Contract, orders: seq<Event>)
    requires Fillable(c, orders)
    ensures Net(orders) == OnSide(orders, Buy) - OnSide(orders, Sell) && OnSide(orders, Buy) >= 0 && OnSide(orders, Sell) >= 0
  {
    if |orders| > 0 {
      NetBySide(c, orders[..|orders| - 1]);
    }
  }

  lemma {:induction false} SideConcat(x: seq<Event>, y: seq<Event>, side: Side)
    ensures OnSide(x + y, side) == OnSide(x, side) + OnSide(y, side)
  {
    if |y| == 0 {
      assert x + y == x;
    } else {
      SideConcat(x, y[..|y| - 1], side);
      assert (x + y)[..|x + y| - 1] == x + y[..|y| - 1];
    }
  }

  lemma TakenOut(y: seq<Event>, k: nat)
    requires k < |y|
    ensures multiset(y) == multiset(y[..k] + y[k + 1..]) + multiset{y[k]}
    ensures multiset(y) - multiset{y[k]} == multiset(y[..k] + y[k + 1..])
  {
    assert y == y[..k] + [y[k]] + y[k + 1..];
  }

  lemma OneOut(x: seq<Event>, y: seq<Event>) returns (k: nat)
    requires |x| > 0 && multiset(x) == multiset(y)
    ensures k < |y| && y[k] == x[|x| - 1] && multiset(x[..|x| - 1]) == multiset(y[..k] + y[k + 1..])
  {
    var n := |x| - 1;
    assert x[n] in multiset(x);
    k := PlaceOf(y, x[n]);
    TakenOut(x, n);
    TakenOut(y, k);
    assert x[..n] + x[n + 1..] == x[..n];
  }

  /** The totals do not depend on the order. */
  lemma {:induction false} SidePermutes(x: seq<Event>, y: seq<Event>, side: Side)
    requires multiset(x) == multiset(y)
    ensures OnSide(x, side) == OnSide(y, side)
    decreases |x|
  {
    assert |multiset(x)| == |x| && |multiset(y)| == |y|;
    if |x| > 0 {
      var k := OneOut(x, y);
      SidePermutes(x[..|x| - 1], y[..k] + y[k + 1..], side);
      SideSplit(y[..k], y[k], y[k + 1..], side);
      assert y == y[..k] + [y[k]] + y[k + 1..];
    }
  }

  lemma PlaceOf(y: seq<Event>, e: Event) returns (k: nat)
    requires e in multiset(y)
    ensures k < |y| && y[k] == e
  {
    k :| 0 <= k < |y| && y[k] == e;
  }

  lemma SideSplit(front: seq<Event>, e: Event, rest: seq<Event>, side: Side)
    ensures OnSide(front + [e] + rest, side) == OnSide(front + rest, side) + if e.Trade? && e.side == side then e.quantity else 0
  {
    SideConcat(front + [e], rest, side);
    SideConcat(front, [e], side);
    SideConcat(front, rest, side);
    assert [e][..0] == [];
  }

  /** However far the filling has come, the position is within the cap. */
  ghost predicate StaysWithin(limits: Limits, b: Book, c: Contract, orders: seq<Event>) {
    forall k | 0 <= k <= |orders| :: WithinAt(limits, b, c, orders, k)
  }

  ghost predicate WithinAt(limits: Limits, b: Book, c: Contract, orders: seq<Event>, k: nat)
    requires k <= |orders|
  {
    Abs(Quantity(FilledAll(b, orders[..k]), c)) <= limits.maxContracts
  }

  function Only(orders: seq<Event>, side: Side): seq<Event> {
    if |orders| == 0 then []
    else
      var last := orders[|orders| - 1];
      Only(orders[..|orders| - 1], side) + if last.Trade? && last.side == side then [last] else []
  }

  lemma NetOneMore(orders: seq<Event>, e: Event)
    requires e.Trade?
    ensures Net(orders + [e]) == Net(orders) + SignedDelta(e.side, e.quantity)
  {
    assert (orders + [e])[..|orders|] == orders;
  }

  lemma {:induction false} OnlyTotals(c: Contract, orders: seq<Event>, side: Side)
    requires Fillable(c, orders)
    ensures Fillable(c, Only(orders, side)) && Net(Only(orders, side)) == SignedDelta(side, OnSide(orders, side))
  {
    if |orders| > 0 {
      var before, last := orders[..|orders| - 1], orders[|orders| - 1];
      OnlyTotals(c, before, side);
      NetOneMore(Only(before, side), last);
      if last.side != side {
        assert Only(orders, side) == Only(before, side);
      }
    }
  }

  lemma {:induction false} SidesMakeAll(c: Contract, orders: seq<Event>, first: Side, second: Side)
    requires Fillable(c, orders) && first != second
    ensures multiset(Only(orders, first)) + multiset(Only(orders, second)) == multiset(orders)
  {
    if |orders| > 0 {
      var before, last := orders[..|orders| - 1], orders[|orders| - 1];
      SidesMakeAll(c, before, first, second);
      assert orders == before + [last];
      OnlyStep(orders, first);
      OnlyStep(orders, second);
    }
  }

  lemma OnlyStep(orders: seq<Event>, side: Side)
    requires |orders| > 0 && orders[|orders| - 1].Trade?
    ensures var before, last := orders[..|orders| - 1], orders[|orders| - 1];
            multiset(Only(orders, side)) == multiset(Only(before, side)) + if last.side == side then multiset{last} else multiset{}
  {
  }

  /** Filling one side first reaches that side's total. */
  lemma SideFirst(limits: Limits, b: Book, c: Contract, orders: seq<Event>, first: Side, second: Side)
    requires Fillable(c, orders) && Entered(b, c) && MultiplierFor(c).Some? && first != second
    requires AnyOrderWithin(limits, b, c, orders)
    ensures Abs(Quantity(b, c) + SignedDelta(first, OnSide(orders, first))) <= limits.maxContracts
  {
    var some, others := Only(orders, first), Only(orders, second);
    SidesMakeAll(c, orders, first, second);
    assert multiset(some + others) == multiset(orders);
    assert StaysWithin(limits, b, c, some + others);
    assert WithinAt(limits, b, c, some + others, |some|) && (some + others)[..|some|] == some;
    OnlyTotals(c, orders, first);
    FilledMoves(b, c, some);
  }

  ghost predicate AnyOrderWithin(limits: Limits, b: Book, c: Contract, orders: seq<Event>) {
    forall p | multiset(p) == multiset(orders) :: StaysWithin(limits, b, c, p)
  }

  predicate SidesWithin(limits: Limits, b: Book, c: Contract, orders: seq<Event>) {
    Quantity(b, c) + OnSide(orders, Buy) <= limits.maxContracts && Quantity(b, c) - OnSide(orders, Sell) >= -limits.maxContracts
  }

  lemma PrefixWithin(limits: Limits, b: Book, c: Contract, orders: seq<Event>, p: seq<Event>, k: nat)
    requires Fillable(c, p) && Entered(b, c) && MultiplierFor(c).Some? && multiset(p) == multiset(orders) && k <= |p|
    requires SidesWithin(limits, b, c, orders)
    ensures WithinAt(limits, b, c, p, k)
  {
    var done, rest := p[..k], p[k..];
    assert p == done + rest;
    FilledMoves(b, c, done);
    NetBySide(c, done);
    NetBySide(c, rest);
    SideConcat(done, rest, Buy);
    SideConcat(done, rest, Sell);
    SidePermutes(p, orders, Buy);
    SidePermutes(p, orders, Sell);
  }

  lemma SameOrdersFillable(c: Contract, orders: seq<Event>, p: seq<Event>)
    requires Fillable(c, orders) && multiset(p) == multiset(orders)
    ensures Fillable(c, p)
  {
    forall i | 0 <= i < |p| ensures p[i] in orders {
      assert p[i] in multiset(p);
    }
  }

  lemma SidesSuffice(limits: Limits, b: Book, c: Contract, orders: seq<Event>, p: seq<Event>)
    requires Fillable(c, orders) && Entered(b, c) && MultiplierFor(c).Some? && SidesWithin(limits, b, c, orders)
    requires multiset(p) == multiset(orders)
    ensures StaysWithin(limits, b, c, p)
  {
    SameOrdersFillable(c, orders, p);
    forall k | 0 <= k <= |p| ensures WithinAt(limits, b, c, p, k) {
      PrefixWithin(limits, b, c, orders, p, k);
    }
  }

  /** Working orders in one contract stay within the cap in whatever order they fill exactly when all the
    * buys alone, and all the sells alone, do. */
  lemma CapForWorkingOrders(limits: Limits, b: Book, c: Contract, orders: seq<Event>)
    requires Fillable(c, orders) && Entered(b, c) && MultiplierFor(c).Some?
    ensures AnyOrderWithin(limits, b, c, orders) <==> SidesWithin(limits, b, c, orders)
  {
    if AnyOrderWithin(limits, b, c, orders) {
      SideFirst(limits, b, c, orders, Buy, Sell);
      SideFirst(limits, b, c, orders, Sell, Buy);
    }
    if SidesWithin(limits, b, c, orders) {
      forall p | multiset(p) == multiset(orders) ensures StaysWithin(limits, b, c, p) {
        SidesSuffice(limits, b, c, orders, p);
      }
    }
  }

  // ---------------------------------------------------------------------------------------------
  // Where the guarantees stop
  // ---------------------------------------------------------------------------------------------

  /** The cap needs each allowed order filled before the next check: two orders of the full cap, checked
    * together and then filled, hold twice the cap. */
  lemma UnfilledOrdersPassTheCap(limits: Limits, c: Contract, price: real)
    requires limits.Valid() && !limits.blockAll && price > 0.0 && limits.initialPeak - limits.start < limits.trailingLoss
    ensures var g := NewGuard(limits);
            var first := Check(limits, g, c, Buy, limits.maxContracts);
            var second := Check(limits, first.guard, c, Buy, limits.maxContracts);
            var order := Trade(c, Buy, limits.maxContracts, price);
            && first.blocked.None? && second.blocked.None?
            && Quantity(FilledBook(FilledBook(g.book, order), order), c) == 2 * limits.maxContracts
  {
    var g := NewGuard(limits);
    var order := Trade(c, Buy, limits.maxContracts, price);
    var once := FilledBook(g.book, order);
    assert once.positions == map[c := Position(limits.maxContracts, price, 0.0)];
    EntryPositive(price, limits.maxContracts, price, limits.maxContracts);
  }

  /** Shrinking is judged by size alone: on a halted account an opposite order passes and lands on the
    * other side exactly when its quantity is more than the position and less than twice it. */
  lemma HaltedReversal(limits: Limits, g: Guard, c: Contract, side: Side, n: int)
    requires g.halt.Some? && !limits.blockAll && Quantity(g.book, c) != 0 && n > 0
    requires side == if Quantity(g.book, c) > 0 then Sell else Buy
    ensures var after := Quantity(g.book, c) + SignedDelta(side, n);
            (Check(limits, g, c, side, n).blocked.None? && after != 0 && !SameDirection(after, Quantity(g.book, c)))
            <==> Abs(Quantity(g.book, c)) < n < 2 * Abs(Quantity(g.book, c))
  {
  }

  /** Three bought, one sold at the daily loss, and a further buy that trips the limit. */
  function HaltingRun(limits: Limits, c: Contract, mult: real): seq<Event>
    requires mult > 0.0
  {
    [Trade(c, Buy, 3, limits.dailyLoss / mult + 1.0)] + [Trade(c, Sell, 1, 1.0)] + [Trade(c, Buy, 1, 1.0)]
  }

  lemma RunMore(limits: Limits, g: Guard, events: seq<Event>, e: Event)
    ensures Run(limits, g, events + [e]) == Next(limits, Run(limits, g, events), e)
  {
    assert (events + [e])[..|events|] == events;
  }

  lemma LossOfOne(loss: real, mult: real)
    requires loss > 0.0 && mult > 0.0
    ensures loss / mult + 1.0 > 0.0 && (1.0 - (loss / mult + 1.0)) * 1.0 * mult == -loss
  {
    PositiveQuotient(loss, mult);
    var q := loss / mult;
    assert q * mult == loss;
  }

  /** A fresh account, halted by its daily loss while long two, is still let through to short one. */
  lemma HaltedReversalReached(limits: Limits, c: Contract)
    requires limits.Valid() && !limits.blockAll && limits.maxContracts >= 3 && limits.initialPeak - limits.start < limits.trailingLoss
    requires MultiplierFor(c).Some?
    ensures Mult(c) > 0.0
    ensures var events := HaltingRun(limits, c, Mult(c));
            var g := Run(limits, NewGuard(limits), events);
            && g.halt == Some(DailyLoss) && Quantity(g.book, c) == 2
            && Quantity(Run(limits, NewGuard(limits), events + [Trade(c, Sell, 3, 1.0)]).book, c) == -1
  {
    MultiplierPositive(c);
    var entry := limits.dailyLoss / Mult(c) + 1.0;
    LossOfOne(limits.dailyLoss, Mult(c));
    var g1 := OpensThree(limits, c, entry);
    var g2 := LosesOne(limits, c, entry, g1);
    TripsAndReverses(limits, c, g2);
    FourMore(limits, NewGuard(limits), Trade(c, Buy, 3, entry), Trade(c, Sell, 1, 1.0), Trade(c, Buy, 1, 1.0), Trade(c, Sell, 3, 1.0));
  }

  lemma FourMore(limits: Limits, g: Guard, e1: Event, e2: Event, e3: Event, e4: Event)
    ensures Run(limits, g, [e1] + [e2] + [e3]) == Next(limits, Next(limits, Next(limits, g, e1), e2), e3)
    ensures Run(limits, g, [e1] + [e2] + [e3] + [e4]) == Next(limits, Run(limits, g, [e1] + [e2] + [e3]), e4)
  {
    assert [] + [e1] == [e1];
    RunMore(limits, g, [], e1);
    RunMore(limits, g, [e1], e2);
    RunMore(limits, g, [e1] + [e2], e3);
    RunMore(limits, g, [e1] + [e2] + [e3], e4);
  }

  lemma OpensThree(limits: Limits, c: Contract, entry: real) returns (g: Guard)
    requires limits.Valid() && !limits.blockAll && limits.maxContracts >= 3 && limits.initialPeak - limits.start < limits.trailingLoss && entry > 0.0
    ensures g == Next(limits, NewGuard(limits), Trade(c, Buy, 3, entry))
    ensures g.halt.None? && g.book.positions == map[c := Position(3, entry, 0.0)] && g.book.realizedPnl == 0.0
  {
    g := Next(limits, NewGuard(limits), Trade(c, Buy, 3, entry));
  }

  lemma LosesOne(limits: Limits, c: Contract, entry: real, before: Guard) returns (g: Guard)
    requires limits.Valid() && !limits.blockAll && MultiplierFor(c).Some? && entry > 0.0 && (1.0 - entry) * 1.0 * Mult(c) == -limits.dailyLoss
    requires before.halt.None? && before.book.positions == map[c := Position(3, entry, 0.0)] && before.book.realizedPnl == 0.0
    ensures g == Next(limits, before, Trade(c, Sell, 1, 1.0))
    ensures g.halt.None? && Quantity(g.book, c) == 2 && AvgEntry(g.book, c) == entry && g.book.realizedPnl == -limits.dailyLoss
  {
    g := Next(limits, before, Trade(c, Sell, 1, 1.0));
  }

  lemma TripsAndReverses(limits: Limits, c: Contract, before: Guard)
    requires limits.Valid() && !limits.blockAll && limits.maxContracts >= 3 && MultiplierFor(c).Some?
    requires before.halt.None? && Quantity(before.book, c) == 2 && AvgEntry(before.book, c) > 0.0 && before.book.realizedPnl == -limits.dailyLoss
    ensures var g := Next(limits, before, Trade(c, Buy, 1, 1.0));
            && g.halt == Some(DailyLoss) && g.book == before.book
            && Quantity(Next(limits, g, Trade(c, Sell, 3, 1.0)).book, c) == -1
  {
    FillCompletes(before.book, c, -3, 1.0);
    FillQuantities(before.book, c, -3, 1.0);
  }
}
