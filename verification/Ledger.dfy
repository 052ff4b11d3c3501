/** The position ledger of the mock broker: futur3/execution/adapters/mock_broker.py.
  *
  * Functions here give the meaning of a fill and of a roll; `MockBroker.dfy` holds the broker object
  * that carries them out. `unrealized_pnl` and `margin_used`, always zero there, are dropped.
  */
module Ledger {
  import opened Wrappers
  import opened Contracts
  import opened Sums

  datatype Side = Buy | Sell

  /** Signed quantity; `realized` is what this contract has realized so far. */
  datatype Position = Position(quantity: int, avgEntry: real, realized: real)

  datatype Error =
    | UnknownRoot
    | NonPositiveEntry
    | NonPositiveFill
    | OrderNotFound
    | OrderCancelled
    | OrderFilled
    | BadFillQuantity
    | SlippageFailed
    | SizingFailed
    | ZeroClose

  datatype Book = Book(
    positions: map<Contract, Position>,
    realizedPnl: real,
    tradePnls: seq<real>,
    openTradePnl: map<Contract, real>)

  const EMPTY_BOOK := Book(map[], 0.0, [], map[])

  /** The state a step leaves behind, whether it completed or raised part-way. */
  datatype Step = Done(book: Book) | Raised(book: Book, error: Error)

  function Delta(side: Side, quantity: nat): int {
    var n: int := quantity;
    if side == Buy then n else -n
  }

  function Quantity(b: Book, c: Contract): int {
    if c in b.positions then b.positions[c].quantity else 0
  }

  function RealizedIn(b: Book, c: Contract): real {
    if c in b.positions then b.positions[c].realized else 0.0
  }

  function AvgEntry(b: Book, c: Contract): real {
    if c in b.positions then b.positions[c].avgEntry else 0.0
  }

  function Mult(c: Contract): real {
    match MultiplierFor(c) case Some(v) => v case None => 0.0
  }

  predicate SameDirection(a: int, d: int) {
    (a > 0 && d > 0) || (a < 0 && d < 0)
  }

  // ---------------------------------------------------------------------------------------------
  // A fill
  // ---------------------------------------------------------------------------------------------

  /** Stores a position; the record refuses an open quantity without a positive entry price. */
  function SetPosition(b: Book, c: Contract, p: Position): Step {
    if p.quantity != 0 && p.avgEntry <= 0.0 then Raised(b, NonPositiveEntry)
    else Done(b.(positions := b.positions[c := p]))
  }

  function AverageEntry(avg: real, quantity: int, price: real, delta: int): real
    requires SameDirection(quantity, delta)
  {
    (avg * Abs(quantity) as real + price * Abs(delta) as real) / Abs(quantity + delta) as real
  }

  function RealizedDelta(held: Position, delta: int, price: real, mult: real): real {
    var closing := MinInt(Abs(held.quantity), Abs(delta)) as real;
    if held.quantity > 0 then (price - held.avgEntry) * closing * mult else (held.avgEntry - price) * closing * mult
  }

  /** Accumulates a realization on the book and on the contract's open bet. */
  function Accrue(b: Book, c: Contract, realized: real): Book {
    b.(realizedPnl := b.realizedPnl + realized,
       openTradePnl := b.openTradePnl[c := Get(b.openTradePnl, c) + realized])
  }

  /** Ends the open bet in `c` and books it as one trade. */
  function BookTrade(b: Book, c: Contract): Book {
    b.(tradePnls := b.tradePnls + [Get(b.openTradePnl, c)], openTradePnl := b.openTradePnl - {c})
  }

  function Close(b: Book, c: Contract, delta: int, price: real, isRoll: bool, mult: real): Step
    requires c in b.positions
  {
    var held := b.positions[c];
    var quantity := held.quantity + delta;
    var realized := RealizedDelta(held, delta, price, mult);
    var accrued := Accrue(b, c, realized);
    var total := held.realized + realized;
    if quantity == 0 then
      SetPosition(if isRoll then accrued else BookTrade(accrued, c), c, Position(0, 0.0, total))
    else if (held.quantity > 0) != (quantity > 0) then
      SetPosition(BookTrade(accrued, c), c, Position(quantity, price, total))
    else
      SetPosition(accrued, c, Position(quantity, held.avgEntry, total))
  }

  function ApplyDelta(b: Book, c: Contract, delta: int, price: real, isRoll: bool): Step {
    var quantity := Quantity(b, c);
    if quantity == 0 then
      SetPosition(b, c, Position(delta, price, RealizedIn(b, c)))
    else if SameDirection(quantity, delta) then
      SetPosition(b, c, Position(quantity + delta, AverageEntry(AvgEntry(b, c), quantity, price, delta), RealizedIn(b, c)))
    else
      match MultiplierFor(c)
      case None => Raised(b, UnknownRoot)
      case Some(mult) => Close(b, c, delta, price, isRoll, mult)
  }

  // ---------------------------------------------------------------------------------------------
  // A roll
  // ---------------------------------------------------------------------------------------------

  /** Moves what the front leg has realized so far onto the back contract's open bet. */
  function Carry(b: Book, front: Contract, back: Contract): Book {
    var carried := Get(b.openTradePnl, front);
    var rest := b.openTradePnl - {front};
    b.(openTradePnl := if carried != 0.0 then rest[back := Get(rest, back) + carried] else rest)
  }

  /** The back leg of a roll whose front leg is closed. */
  function Reopen(closed: Book, front: Contract, back: Contract, quantity: int, backFill: real): Step {
    var reopened := ApplyDelta(closed, back, quantity, backFill, true);
    if reopened.Raised? then reopened else Done(Carry(reopened.book, front, back))
  }

  function Roll(b: Book, front: Contract, back: Contract, frontFill: real, backFill: real): Step {
    var quantity := Quantity(b, front);
    if quantity == 0 then Done(b)
    else
      var closed := ApplyDelta(b, front, -quantity, frontFill, true);
      if closed.Raised? then closed else Reopen(closed.book, front, back, quantity, backFill)
  }

  // ---------------------------------------------------------------------------------------------
  // What one fill does to the money
  // ---------------------------------------------------------------------------------------------

  /** Cost basis of the position in `c`, in account currency. */
  function Basis(b: Book, c: Contract): real {
    AvgEntry(b, c) * Quantity(b, c) as real * Mult(c)
  }

  function Outlay(c: Contract, delta: int, price: real): real {
    price * delta as real * Mult(c)
  }

  /** How a completed fill changes the money: the basis moves by what was paid plus what was
    * realized, and no other contract is touched. */
  ghost predicate Balanced(b: Book, a: Book, c: Contract, delta: int, price: real) {
    var realized := a.realizedPnl - b.realizedPnl;
    && Basis(a, c) == Basis(b, c) + Outlay(c, delta, price) + realized
    && RealizedIn(a, c) == RealizedIn(b, c) + realized
    && Quantity(a, c) == Quantity(b, c) + delta
    && a.positions == b.positions[c := Position(Quantity(a, c), AvgEntry(a, c), RealizedIn(a, c))]
  }

  lemma FillIdentity(b: Book, c: Contract, delta: int, price: real, isRoll: bool)
    requires ApplyDelta(b, c, delta, price, isRoll).Done?
    ensures Balanced(b, ApplyDelta(b, c, delta, price, isRoll).book, c, delta, price)
  {
    var quantity := Quantity(b, c);
    if quantity == 0 {
    } else if SameDirection(quantity, delta) {
      AddIdentity(b, c, delta, price, isRoll);
    } else {
      CloseBalanced(b, c, delta, price, isRoll, Mult(c));
    }
  }

  lemma AddIdentity(b: Book, c: Contract, delta: int, price: real, isRoll: bool)
    requires ApplyDelta(b, c, delta, price, isRoll).Done? && SameDirection(Quantity(b, c), delta)
    ensures Balanced(b, ApplyDelta(b, c, delta, price, isRoll).book, c, delta, price)
  {
    var quantity, avg := Quantity(b, c), AvgEntry(b, c);
    AverageIdentity(avg, quantity, price, delta);
    Distribute(AverageEntry(avg, quantity, price, delta) * (quantity + delta) as real, avg * quantity as real, price * delta as real, Mult(c));
  }

  lemma CloseBalanced(b: Book, c: Contract, delta: int, price: real, isRoll: bool, mult: real)
    requires c in b.positions && Quantity(b, c) != 0 && !SameDirection(Quantity(b, c), delta) && mult == Mult(c)
    requires Close(b, c, delta, price, isRoll, mult).Done?
    ensures Balanced(b, Close(b, c, delta, price, isRoll, mult).book, c, delta, price)
  {
    var held := b.positions[c];
    CloseShape(b, c, delta, price, isRoll, mult);
    CloseIdentity(held, delta, price, mult);
    BalancedFrom(b, Close(b, c, delta, price, isRoll, mult).book, c, delta, price, EntryAfter(held, delta, price), RealizedDelta(held, delta, price, mult));
  }

  lemma BalancedFrom(b: Book, a: Book, c: Contract, delta: int, price: real, avg: real, realized: real)
    requires a.realizedPnl == b.realizedPnl + realized
    requires a.positions == b.positions[c := Position(Quantity(b, c) + delta, avg, RealizedIn(b, c) + realized)]
    requires avg * (Quantity(b, c) + delta) as real * Mult(c) == Basis(b, c) + Outlay(c, delta, price) + realized
    ensures Balanced(b, a, c, delta, price)
  {
  }

  /** The entry price left after an opposite fill. */
  function EntryAfter(held: Position, delta: int, price: real): real {
    var quantity := held.quantity + delta;
    if quantity == 0 then 0.0 else if (held.quantity > 0) != (quantity > 0) then price else held.avgEntry
  }

  lemma CloseShape(b: Book, c: Contract, delta: int, price: real, isRoll: bool, mult: real)
    requires c in b.positions && Close(b, c, delta, price, isRoll, mult).Done?
    ensures var held, a := b.positions[c], Close(b, c, delta, price, isRoll, mult).book;
            var realized := RealizedDelta(held, delta, price, mult);
            && a.realizedPnl == b.realizedPnl + realized
            && a.positions == b.positions[c := Position(held.quantity + delta, EntryAfter(held, delta, price), held.realized + realized)]
  {
  }

  lemma AverageIdentity(avg: real, quantity: int, price: real, delta: int)
    requires SameDirection(quantity, delta)
    ensures AverageEntry(avg, quantity, price, delta) * (quantity + delta) as real
            == avg * quantity as real + price * delta as real
  {
    var total := avg * Abs(quantity) as real + price * Abs(delta) as real;
    var n := Abs(quantity + delta) as real;
    assert total / n * n == total;
    if quantity < 0 {
      assert total / n * (-n) == -total;
    }
  }

  lemma Distribute(x: real, y: real, z: real, m: real)
    requires x == y + z
    ensures x * m == y * m + z * m
  {
  }

  lemma CloseIdentity(held: Position, delta: int, price: real, m: real)
    requires held.quantity != 0 && !SameDirection(held.quantity, delta)
    ensures EntryAfter(held, delta, price) * (held.quantity + delta) as real * m
            == held.avgEntry * held.quantity as real * m + price * delta as real * m + RealizedDelta(held, delta, price, m)
  {
    var q, d := held.quantity as real, delta as real;
    var closing := MinInt(Abs(held.quantity), Abs(delta));
    var signed := if held.quantity > 0 then closing as real else -(closing as real);
    assert RealizedDelta(held, delta, price, m) == (price - held.avgEntry) * signed * m;
    if Abs(delta) <= Abs(held.quantity) {
      assert signed == -d;
      ClosePart(held.avgEntry, q, price, d, m);
    } else {
      assert signed == q;
      CloseAll(held.avgEntry, q, price, d, m);
    }
  }

  lemma ClosePart(avg: real, q: real, price: real, d: real, m: real)
    ensures avg * (q + d) * m == avg * q * m + price * d * m + (price - avg) * (-d) * m
  {
  }

  lemma CloseAll(avg: real, q: real, price: real, d: real, m: real)
    ensures price * (q + d) * m == avg * q * m + price * d * m + (price - avg) * q * m
  {
  }
}
