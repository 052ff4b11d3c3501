/** The in-memory backtest broker: futur3/execution/adapters/mock_broker.py.
  *
  * Broker order ids are handed out densely from 1, so the order dictionaries become sequences and an
  * id is an index. Of the event buffer only the fill events are kept.
  */
module Broker {
  import opened Wrappers
  import opened Contracts
  import opened Ledger

  /** A daily or intraday bar; `ts` counts seconds, UTC. */
  datatype Bar = Bar(contract: Contract, ts: int, openPrice: real, high: real, low: real, close: real)

  datatype OrderType =
    | Market
    | Limit(limitPrice: real)
    | Stop(stopPrice: real)
    | OtherType

  type Count = n: int | n > 0 witness 1

  datatype Order = Order(contract: Contract, side: Side, quantity: Count, kind: OrderType)

  /** One fill event: which order, how much, at what price. */
  datatype FillEvent = FillEvent(id: nat, quantity: int, price: real)

  /** Executed price for (price, side, quantity, contract, ts), or None where the model raises. */
  type Slippage = (real, Side, int, Contract, int) -> Option<real>

  datatype Account = Account(
    book: Book,
    orders: seq<Order>,
    filled: seq<int>,
    cancelled: set<nat>,
    fills: seq<FillEvent>)

  const NEW_ACCOUNT := Account(EMPTY_BOOK, [], [], {}, [])

  datatype AStep = Ok(account: Account) | Error(account: Account, error: Ledger.Error)

  // ---------------------------------------------------------------------------------------------
  // Meaning of the broker calls
  // ---------------------------------------------------------------------------------------------

  function Placed(a: Account, o: Order): Account {
    a.(orders := a.orders + [o], filled := a.filled + [0])
  }

  predicate Shaped(a: Account) {
    |a.filled| == |a.orders| && forall id | id in a.cancelled :: id < |a.orders|
  }

  function Cancel(a: Account, id: nat): AStep {
    if id >= |a.orders| then Error(a, OrderNotFound)
    else if id in a.cancelled then Error(a, OrderCancelled)
    else Ok(a.(cancelled := a.cancelled + {id}))
  }

  /** A fill of `quantity`, or of all that remains; the filled count is written before the ledger. */
  function Filled(a: Account, id: nat, price: real, quantity: Option<int>): AStep
    requires Shaped(a)
  {
    if id >= |a.orders| then Error(a, OrderNotFound)
    else if id in a.cancelled then Error(a, OrderCancelled)
    else if price <= 0.0 then Error(a, NonPositiveFill)
    else
      var order := a.orders[id];
      var remaining := order.quantity - a.filled[id];
      var actual := if quantity.Some? then quantity.value else remaining;
      if remaining <= 0 then Error(a, OrderFilled)
      else if actual <= 0 || actual > remaining then Error(a, BadFillQuantity)
      else
        var counted := a.(filled := a.filled[id := a.filled[id] + actual]);
        match ApplyDelta(a.book, order.contract, Delta(order.side, actual), price, false)
        case Raised(b, e) => Error(counted.(book := b), e)
        case Done(b) => Ok(counted.(book := b, fills := a.fills + [FillEvent(id, actual, price)]))
  }

  /** Where an order trades against a bar, if it does. */
  function FillPrice(o: Order, bar: Bar): Option<real> {
    match o.kind
    case Market => Some(bar.openPrice)
    case Limit(p) => if (o.side == Buy && bar.low <= p) || (o.side == Sell && bar.high >= p) then Some(p) else None
    case Stop(p) => if (o.side == Buy && bar.high >= p) || (o.side == Sell && bar.low <= p) then Some(p) else None
    case OtherType => None
  }

  /** The bar's range holds the price. */
  predicate Traded(bar: Bar, price: real) {
    bar.low <= price <= bar.high
  }

  /** A price on the good side of a limit: at or below it for a buyer, at or above it for a seller. */
  predicate AtLeastAsGood(side: Side, price: real, limit: real) {
    if side == Buy then price <= limit else price >= limit
  }

  /** A limit order trades, at its limit, exactly when the bar traded at a price as good; a stop, at its stop, exactly
    * when the bar traded at one as bad; a market order always, at the open; any other never. */
  lemma FillsWhenReached(o: Order, bar: Bar)
    requires bar.low <= bar.high
    ensures o.kind.Market? ==> FillPrice(o, bar) == Some(bar.openPrice)
    ensures forall p | o.kind == Limit(p) ::
              (FillPrice(o, bar) == Some(p) <==> exists t: real :: Traded(bar, t) && AtLeastAsGood(o.side, t, p))
              && (FillPrice(o, bar) == Some(p) || FillPrice(o, bar).None?)
    ensures forall p | o.kind == Stop(p) ::
              (FillPrice(o, bar) == Some(p) <==> exists t: real :: Traded(bar, t) && AtLeastAsGood(o.side, p, t))
              && (FillPrice(o, bar) == Some(p) || FillPrice(o, bar).None?)
    ensures o.kind.OtherType? ==> FillPrice(o, bar).None?
  {
    assert Traded(bar, bar.low) && Traded(bar, bar.high);
  }

  predicate Pays(o: Order) {
    o.kind.Market? || o.kind.Stop?
  }

  /** The executed price after slippage; None where the model raises. */
  function Executed(o: Order, bar: Bar, price: real, slip: Option<Slippage>): Option<real> {
    if slip.Some? && Pays(o) then slip.value(price, o.side, o.quantity, o.contract, bar.ts) else Some(price)
  }

  /** What one outstanding order does when its contract's next bar arrives. */
  function AdvanceOne(a: Account, id: nat, bar: Bar, slip: Option<Slippage>): (s: AStep)
    requires Shaped(a) && id < |a.orders|
    ensures Shaped(s.account) && s.account.orders == a.orders && s.account.cancelled == a.cancelled
  {
    var o := a.orders[id];
    if id in a.cancelled || o.contract != bar.contract || a.filled[id] >= o.quantity || FillPrice(o, bar).None? then Ok(a)
    else
      match Executed(o, bar, FillPrice(o, bar).value, slip)
      case None => Error(a, SlippageFailed)
      case Some(price) => Filled(a, id, price, None)
  }

  /** Advances the first `n` orders, in submission order. */
  function AdvanceFirst(a: Account, n: nat, bar: Bar, slip: Option<Slippage>): (s: AStep)
    requires Shaped(a) && n <= |a.orders|
    ensures Shaped(s.account) && s.account.orders == a.orders && s.account.cancelled == a.cancelled
  {
    if n == 0 then Ok(a)
    else
      match AdvanceFirst(a, n - 1, bar, slip)
      case Error(m, e) => Error(m, e)
      case Ok(m) => AdvanceOne(m, n - 1, bar, slip)
  }

  function Advanced(a: Account, bar: Bar, slip: Option<Slippage>): (s: AStep)
    requires Shaped(a)
    ensures Shaped(s.account) && s.account.orders == a.orders
  {
    AdvanceFirst(a, |a.orders|, bar, slip)
  }

  function RollAccount(a: Account, front: Contract, back: Contract, frontFill: real, backFill: real): AStep {
    match Roll(a.book, front, back, frontFill, backFill)
    case Done(b) => Ok(a.(book := b))
    case Raised(b, e) => Error(a.(book := b), e)
  }

  // ---------------------------------------------------------------------------------------------
  // Order life cycle
  // ---------------------------------------------------------------------------------------------

  function FilledBy(fills: seq<FillEvent>, id: nat): int {
    if |fills| == 0 then 0
    else FilledBy(fills[..|fills| - 1], id) + if fills[|fills| - 1].id == id then fills[|fills| - 1].quantity else 0
  }

  /** The filled count of every order is the sum of its fill events and never exceeds the order. */
  ghost predicate Accounted(a: Account) {
    && Shaped(a)
    && (forall id: nat | id < |a.orders| :: FilledBy(a.fills, id) == a.filled[id] && 0 <= a.filled[id] <= a.orders[id].quantity)
    && (forall k | 0 <= k < |a.fills| :: a.fills[k].id < |a.orders| && a.fills[k].quantity > 0 && a.fills[k].price > 0.0)
  }

  lemma FilledByAppend(fills: seq<FillEvent>, f: FillEvent, id: nat)
    ensures FilledBy(fills + [f], id) == FilledBy(fills, id) + if f.id == id then f.quantity else 0
  {
    assert (fills + [f])[..|fills|] == fills;
  }

  lemma {:induction false} FilledByAbsent(fills: seq<FillEvent>, id: nat)
    requires forall k | 0 <= k < |fills| :: fills[k].id != id
    ensures FilledBy(fills, id) == 0
  {
    if |fills| > 0 {
      FilledByAbsent(fills[..|fills| - 1], id);
    }
  }

  lemma PlaceAccounted(a: Account, o: Order)
    requires Accounted(a)
    ensures Accounted(Placed(a, o))
  {
    FilledByAbsent(a.fills, |a.orders|);
  }

  lemma FillAccounted(a: Account, id: nat, price: real, quantity: Option<int>)
    requires Accounted(a) && Filled(a, id, price, quantity).Ok?
    ensures Accounted(Filled(a, id, price, quantity).account)
  {
    var actual := if quantity.Some? then quantity.value else a.orders[id].quantity - a.filled[id];
    forall k: nat | k < |a.orders| ensures FilledBy(a.fills + [FillEvent(id, actual, price)], k) == FilledBy(a.fills, k) + if k == id then actual else 0 {
      FilledByAppend(a.fills, FillEvent(id, actual, price), k);
    }
  }

  lemma {:induction false} AdvanceAccounted(a: Account, n: nat, bar: Bar, slip: Option<Slippage>)
    requires Accounted(a) && n <= |a.orders| && AdvanceFirst(a, n, bar, slip).Ok?
    ensures Accounted(AdvanceFirst(a, n, bar, slip).account)
    ensures a.fills <= AdvanceFirst(a, n, bar, slip).account.fills
  {
    if n > 0 {
      AdvanceAccounted(a, n - 1, bar, slip);
      var m := AdvanceFirst(a, n - 1, bar, slip).account;
      AdvanceOneFills(m, n - 1, bar, slip);
    }
  }

  /** A bar reaches an order: still open, for the bar's contract, and at a price it trades at. */
  predicate Reached(a: Account, id: nat, bar: Bar)
    requires Shaped(a) && id < |a.orders|
  {
    && id !in a.cancelled && a.orders[id].contract == bar.contract && a.filled[id] < a.orders[id].quantity
    && FillPrice(a.orders[id], bar).Some?
  }

  /** An order a bar does not reach is left alone, and cannot fail the bar. */
  lemma UnreachedStays(a: Account, id: nat, bar: Bar, slip: Option<Slippage>)
    requires Shaped(a) && id < |a.orders| && !Reached(a, id, bar)
    ensures AdvanceOne(a, id, bar, slip) == Ok(a)
  {
  }

  lemma OneExactly(a: Account, id: nat, bar: Bar, slip: Option<Slippage>)
    requires Shaped(a) && id < |a.orders| && AdvanceOne(a, id, bar, slip).Ok?
    ensures AdvanceOne(a, id, bar, slip).account.filled == if Reached(a, id, bar) then a.filled[id := a.orders[id].quantity] else a.filled
  {
  }

  /** A bar fills in full exactly the orders it reaches, whatever the others do; no cancelled order ever fills. */
  lemma {:induction false} AdvancedExactly(a: Account, n: nat, bar: Bar, slip: Option<Slippage>)
    requires Shaped(a) && n <= |a.orders| && AdvanceFirst(a, n, bar, slip).Ok?
    ensures var r := AdvanceFirst(a, n, bar, slip).account;
            forall id | 0 <= id < |a.orders| :: r.filled[id] == if id < n && Reached(a, id, bar) then a.orders[id].quantity else a.filled[id]
  {
    if n > 0 {
      AdvancedExactly(a, n - 1, bar, slip);
      var m := AdvanceFirst(a, n - 1, bar, slip).account;
      OneExactly(m, n - 1, bar, slip);
    }
  }

  /** A bar that reaches no order changes nothing and succeeds. */
  lemma {:induction false} NoneReached(a: Account, n: nat, bar: Bar, slip: Option<Slippage>)
    requires Shaped(a) && n <= |a.orders| && forall id | 0 <= id < n :: !Reached(a, id, bar)
    ensures AdvanceFirst(a, n, bar, slip) == Ok(a)
  {
    if n > 0 {
      NoneReached(a, n - 1, bar, slip);
      UnreachedStays(a, n - 1, bar, slip);
    }
  }

  /** What a fill pays: a limit order its limit, whatever the slippage; a market or stop order the slipped price of the
    * open or the stop. */
  lemma FillPays(a: Account, id: nat, bar: Bar, slip: Option<Slippage>)
    requires Shaped(a) && id < |a.orders| && Reached(a, id, bar) && AdvanceOne(a, id, bar, slip).Ok?
    ensures var o, r := a.orders[id], AdvanceOne(a, id, bar, slip).account;
            && |r.fills| == |a.fills| + 1
            && var price := r.fills[|a.fills|].price;
               match o.kind
               case Limit(p) => price == p
               case Market => if slip.None? then price == bar.openPrice else slip.value(bar.openPrice, o.side, o.quantity, o.contract, bar.ts) == Some(price)
               case Stop(p) => if slip.None? then price == p else slip.value(p, o.side, o.quantity, o.contract, bar.ts) == Some(price)
               case OtherType => true
  {
  }

  /** An order either stays as it is or fills all that remained of it. */
  lemma AdvanceOneFills(a: Account, id: nat, bar: Bar, slip: Option<Slippage>)
    requires Accounted(a) && id < |a.orders| && AdvanceOne(a, id, bar, slip).Ok?
    ensures var r := AdvanceOne(a, id, bar, slip).account;
            && Accounted(r) && a.fills <= r.fills
            && (r == a || (r.filled == a.filled[id := a.orders[id].quantity] && |r.fills| == |a.fills| + 1 && r.fills[|a.fills|].id == id && id !in a.cancelled))
  {
    var o := a.orders[id];
    if !(id in a.cancelled || o.contract != bar.contract || a.filled[id] >= o.quantity || FillPrice(o, bar).None?) {
      FillAccounted(a, id, Executed(o, bar, FillPrice(o, bar).value, slip).value, None);
    }
  }

  // ---------------------------------------------------------------------------------------------
  // The broker object
  // ---------------------------------------------------------------------------------------------

  class MockBroker {
    const startingEquity: real
    const blockAllTrades: bool

    var orders: seq<Order>
    var cancelled: set<nat>
    var filled: seq<int>
    var fills: seq<FillEvent>
    var positions: map<Contract, Position>
    var realizedPnl: real
    var tradePnls: seq<real>
    var openTradePnl: map<Contract, real>

    function BookState(): Book
      reads this
    {
      Book(positions, realizedPnl, tradePnls, openTradePnl)
    }

    function State(): Account
      reads this
    {
      Account(BookState(), orders, filled, cancelled, fills)
    }

    constructor (startingEquity: real, blockAllTrades: bool)
      requires startingEquity > 0.0
      ensures State() == NEW_ACCOUNT && this.startingEquity == startingEquity && this.blockAllTrades == blockAllTrades
    {
      this.startingEquity := startingEquity;
      this.blockAllTrades := blockAllTrades;
      orders, cancelled, filled, fills := [], {}, [], [];
      positions, realizedPnl, tradePnls, openTradePnl := map[], 0.0, [], map[];
    }

    method Reset()
      modifies this
      ensures State() == NEW_ACCOUNT
    {
      orders, cancelled, filled, fills := [], {}, [], [];
      positions, realizedPnl, tradePnls, openTradePnl := map[], 0.0, [], map[];
    }

    method PlaceOrder(o: Order) returns (id: nat)
      modifies this
      ensures State() == old(Placed(State(), o)) && id == old(|orders|)
    {
      id := |orders|;
      orders := orders + [o];
      filled := filled + [0];
    }

    method CancelOrder(id: nat) returns (error: Option<Ledger.Error>)
      modifies this
      ensures State() == old(Cancel(State(), id)).account
      ensures error == match old(Cancel(State(), id)) case Ok(_) => None case Error(_, e) => Some(e)
    {
      if id >= |orders| {
        return Some(OrderNotFound);
      }
      if id in cancelled {
        return Some(OrderCancelled);
      }
      cancelled := cancelled + {id};
      error := None;
    }

    /** Stores a position record, or refuses it. */
    method StorePosition(c: Contract, p: Position) returns (error: Option<Ledger.Error>)
      modifies this`positions
      ensures BookState() == old(SetPosition(BookState(), c, p)).book
      ensures error == match old(SetPosition(BookState(), c, p)) case Done(_) => None case Raised(_, e) => Some(e)
    {
      if p.quantity != 0 && p.avgEntry <= 0.0 {
        return Some(NonPositiveEntry);
      }
      positions := positions[c := p];
      error := None;
    }

    method ApplyFillToPosition(c: Contract, side: Side, quantity: Count, price: real, isRoll: bool) returns (error: Option<Ledger.Error>)
      modifies this`positions, this`realizedPnl, this`tradePnls, this`openTradePnl
      ensures var step := old(ApplyDelta(BookState(), c, Delta(side, quantity), price, isRoll));
              && BookState() == step.book
              && error == match step case Done(_) => None case Raised(_, e) => Some(e)
    {
      var delta := Delta(side, quantity);
      if c !in positions || positions[c].quantity == 0 {
        error := StorePosition(c, Position(delta, price, if c in positions then positions[c].realized else 0.0));
        return;
      }
      var held := positions[c];
      if SameDirection(held.quantity, delta) {
        error := StorePosition(c, Position(held.quantity + delta, AverageEntry(held.avgEntry, held.quantity, price, delta), held.realized));
        return;
      }
      if MultiplierFor(c).None? {
        return Some(UnknownRoot);
      }
      error := CloseIn(c, delta, price, isRoll, MultiplierFor(c).value);
    }

    /** A fill against the position: realizes, and books the bet when it ends. */
    method CloseIn(c: Contract, delta: int, price: real, isRoll: bool, mult: real) returns (error: Option<Ledger.Error>)
      requires c in positions
      modifies this`positions, this`realizedPnl, this`tradePnls, this`openTradePnl
      ensures var step := old(Close(BookState(), c, delta, price, isRoll, mult));
              && BookState() == step.book
              && error == match step case Done(_) => None case Raised(_, e) => Some(e)
    {
      var held := positions[c];
      var newQuantity := held.quantity + delta;
      var realized := RealizedDelta(held, delta, price, mult);
      realizedPnl := realizedPnl + realized;
      var total := held.realized + realized;
      openTradePnl := openTradePnl[c := (if c in openTradePnl then openTradePnl[c] else 0.0) + realized];
      if newQuantity == 0 {
        if !isRoll {
          tradePnls, openTradePnl := tradePnls + [openTradePnl[c]], openTradePnl - {c};
        }
        error := StorePosition(c, Position(0, 0.0, total));
      } else if (held.quantity > 0) != (newQuantity > 0) {
        tradePnls, openTradePnl := tradePnls + [openTradePnl[c]], openTradePnl - {c};
        error := StorePosition(c, Position(newQuantity, price, total));
      } else {
        error := StorePosition(c, Position(newQuantity, held.avgEntry, total));
      }
    }

    method FillOrder(id: nat, price: real, quantity: Option<int>) returns (error: Option<Ledger.Error>)
      requires Shaped(State())
      modifies this
      ensures var step := old(Filled(State(), id, price, quantity));
              State() == step.account && error == match step case Ok(_) => None case Error(_, e) => Some(e)
    {
      if id >= |orders| {
        return Some(OrderNotFound);
      }
      if id in cancelled {
        return Some(OrderCancelled);
      }
      if price <= 0.0 {
        return Some(NonPositiveFill);
      }
      var order := orders[id];
      var remaining := order.quantity - filled[id];
      if remaining <= 0 {
        return Some(OrderFilled);
      }
      var actual := if quantity.Some? then quantity.value else remaining;
      if actual <= 0 || actual > remaining {
        return Some(BadFillQuantity);
      }
      filled := filled[id := filled[id] + actual];
      error := ApplyFillToPosition(order.contract, order.side, actual, price, false);
      if error.None? {
        fills := fills + [FillEvent(id, actual, price)];
      }
    }

    /** One outstanding order against its contract's bar. */
    method AdvanceOrder(id: nat, bar: Bar, slip: Option<Slippage>) returns (error: Option<Ledger.Error>)
      requires Shaped(State()) && id < |orders|
      modifies this
      ensures var step := old(AdvanceOne(State(), id, bar, slip));
              State() == step.account && error == match step case Ok(_) => None case Error(_, e) => Some(e)
    {
      var o := orders[id];
      if id in cancelled || o.contract != bar.contract || filled[id] >= o.quantity {
        return None;
      }
      var price := FillPrice(o, bar);
      if price.None? {
        return None;
      }
      if slip.Some? && Pays(o) {
        price := slip.value(price.value, o.side, o.quantity, o.contract, bar.ts);
        if price.None? {
          return Some(SlippageFailed);
        }
      }
      error := FillOrder(id, price.value, None);
    }

    /** Fills outstanding orders of the bar's contract, in submission order. */
    method Advance(bar: Bar, slip: Option<Slippage>) returns (error: Option<Ledger.Error>)
      requires Shaped(State())
      modifies this
      ensures var step := old(Advanced(State(), bar, slip));
              State() == step.account && error == match step case Ok(_) => None case Error(_, e) => Some(e)
    {
      error := None;
      ghost var before := State();
      var n := |orders|;
      for id := 0 to n
        invariant n == |orders| && Shaped(State()) && error.None?
        invariant AdvanceFirst(before, id, bar, slip) == Ok(State())
      {
        error := AdvanceOrder(id, bar, slip);
        if error.Some? {
          AdvanceStopped(before, id, n, bar, slip);
          return;
        }
      }
    }

    method RollPosition(front: Contract, back: Contract, frontFill: real, backFill: real) returns (rolled: int, error: Option<Ledger.Error>)
      modifies this
      ensures var step := old(RollAccount(State(), front, back, frontFill, backFill));
              State() == step.account && error == match step case Ok(_) => None case Error(_, e) => Some(e)
      ensures rolled == old(Quantity(BookState(), front))
    {
      rolled, error := 0, None;
      if front !in positions || positions[front].quantity == 0 {
        return;
      }
      rolled := positions[front].quantity;
      error := RollLeg(front, -rolled, frontFill);
      if error.Some? {
        return;
      }
      error := ReopenIn(front, back, rolled, backFill);
    }

    /** The back leg of a roll, and the bet carried over with it. */
    method ReopenIn(front: Contract, back: Contract, quantity: int, price: real) returns (error: Option<Ledger.Error>)
      requires quantity != 0
      modifies this`positions, this`realizedPnl, this`tradePnls, this`openTradePnl
      ensures var step := old(Reopen(BookState(), front, back, quantity, price));
              && BookState() == step.book
              && error == match step case Done(_) => None case Raised(_, e) => Some(e)
    {
      error := RollLeg(back, quantity, price);
      if error.None? {
        CarryTrade(front, back);
      }
    }

    /** One leg of a roll, on the side its signed quantity calls for. */
    method RollLeg(c: Contract, delta: int, price: real) returns (error: Option<Ledger.Error>)
      requires delta != 0
      modifies this`positions, this`realizedPnl, this`tradePnls, this`openTradePnl
      ensures var step := old(ApplyDelta(BookState(), c, delta, price, true));
              && BookState() == step.book
              && error == match step case Done(_) => None case Raised(_, e) => Some(e)
    {
      assert Delta(if delta > 0 then Buy else Sell, Abs(delta)) == delta;
      error := ApplyFillToPosition(c, if delta > 0 then Buy else Sell, Abs(delta), price, true);
    }

    /** The bet continues in the back contract. */
    method CarryTrade(front: Contract, back: Contract)
      modifies this`openTradePnl
      ensures BookState() == old(Carry(BookState(), front, back))
    {
      var carried := if front in openTradePnl then openTradePnl[front] else 0.0;
      openTradePnl := openTradePnl - {front};
      if carried != 0.0 {
        openTradePnl := openTradePnl[back := (if back in openTradePnl then openTradePnl[back] else 0.0) + carried];
      }
    }
  }

  /** Once an order raises, the rest of the pass does not run. */
  lemma {:induction false} AdvanceStopped(a: Account, id: nat, n: nat, bar: Bar, slip: Option<Slippage>)
    requires Shaped(a) && id < n <= |a.orders|
    requires AdvanceFirst(a, id + 1, bar, slip).Error?
    ensures AdvanceFirst(a, n, bar, slip) == AdvanceFirst(a, id + 1, bar, slip)
    decreases n
  {
    if id + 1 < n {
      AdvanceStopped(a, id, n - 1, bar, slip);
    }
  }
}
