/** Mark-to-market equity: `_mark_to_market` in futur3/engine/backtest.py. */
module Valuation {
  import opened Wrappers
  import opened Contracts
  import opened Sums
  import opened Ledger
  import opened LedgerTheorems

  /** Last-seen close of each contract. */
  type Marks = map<Contract, real>

  /** Profit still open in one contract; zero when flat or never marked. */
  function OpenValue(b: Book, marks: Marks, c: Contract): real {
    if c in marks then marks[c] * Quantity(b, c) as real * Mult(c) - Basis(b, c) else 0.0
  }

  function OpenValues(b: Book, marks: Marks): map<Contract, real> {
    map c | c in b.positions :: OpenValue(b, marks, c)
  }

  /** Start plus realized plus open profit. */
  ghost function Equity(start: real, b: Book, marks: Marks): real {
    start + b.realizedPnl + Total(OpenValues(b, marks))
  }

  /** A marked, open position in a contract with no multiplier makes the valuation raise. */
  predicate Priceable(b: Book, marks: Marks) {
    forall c | c in b.positions && b.positions[c].quantity != 0 && c in marks :: MultiplierFor(c).Some?
  }

  /** A fill moves equity by exactly the gap between the mark and the fill price. */
  lemma FillMovesEquity(start: real, b: Book, marks: Marks, c: Contract, delta: int, price: real, isRoll: bool)
    requires c in marks && ApplyDelta(b, c, delta, price, isRoll).Done?
    ensures Equity(start, ApplyDelta(b, c, delta, price, isRoll).book, marks)
            == Equity(start, b, marks) + Outlay(c, delta, marks[c]) - Outlay(c, delta, price)
  {
    FillIdentity(b, c, delta, price, isRoll);
    BalancedMovesEquity(start, b, ApplyDelta(b, c, delta, price, isRoll).book, marks, c, delta, price);
  }

  lemma BalancedMovesEquity(start: real, b: Book, a: Book, marks: Marks, c: Contract, delta: int, price: real)
    requires c in marks && Balanced(b, a, c, delta, price)
    ensures Equity(start, a, marks) == Equity(start, b, marks) + Outlay(c, delta, marks[c]) - Outlay(c, delta, price)
  {
    OthersUnmoved(b, a, marks, c);
    TotalUpdate(OpenValues(b, marks), c, OpenValue(a, marks, c));
    FlatIsZero(b, marks, c);
    BalancedMovesValue(b, a, marks, c, delta, price);
  }

  lemma OthersUnmoved(b: Book, a: Book, marks: Marks, c: Contract)
    requires a.positions == b.positions[c := Position(Quantity(a, c), AvgEntry(a, c), RealizedIn(a, c))]
    ensures OpenValues(a, marks) == OpenValues(b, marks)[c := OpenValue(a, marks, c)]
  {
    forall k | k in b.positions && k != c ensures OpenValue(a, marks, k) == OpenValue(b, marks, k) {
      OtherContract(b, a, c, k);
    }
  }

  lemma BalancedMovesValue(b: Book, a: Book, marks: Marks, c: Contract, delta: int, price: real)
    requires c in marks && Balanced(b, a, c, delta, price)
    ensures OpenValue(a, marks, c) == OpenValue(b, marks, c) + Outlay(c, delta, marks[c]) - Outlay(c, delta, price) - (a.realizedPnl - b.realizedPnl)
  {
    assert Quantity(a, c) as real == Quantity(b, c) as real + delta as real;
    Distribute3(marks[c], Quantity(b, c) as real, delta as real, Mult(c));
  }

  lemma FlatIsZero(b: Book, marks: Marks, c: Contract)
    ensures c !in b.positions ==> OpenValue(b, marks, c) == 0.0
  {
  }

  lemma Distribute3(p: real, x: real, y: real, m: real)
    ensures p * (x + y) * m == p * x * m + p * y * m
  {
  }

  /** What a change of position gains when struck at `price` and valued at `mark`. */
  function MarkGap(c: Contract, delta: int, mark: real, price: real): (gap: real)
    ensures mark == price ==> gap == 0.0
  {
    Outlay(c, delta, mark) - Outlay(c, delta, price)
  }

  /** A roll moves equity by the gaps between the marks and the prices of its two legs. */
  lemma RollMovesEquity(start: real, b: Book, marks: Marks, front: Contract, back: Contract, frontFill: real, backFill: real)
    requires front in marks && back in marks && Quantity(b, front) != 0
    requires Roll(b, front, back, frontFill, backFill).Done?
    ensures var quantity := Quantity(b, front);
            Equity(start, Roll(b, front, back, frontFill, backFill).book, marks)
            == Equity(start, b, marks)
               + MarkGap(front, -quantity, marks[front], frontFill) + MarkGap(back, quantity, marks[back], backFill)
  {
    var closed, both := RollShape(b, front, back, frontFill, backFill);
    var quantity := Quantity(b, front);
    FillIdentity(b, front, -quantity, frontFill, true);
    FillIdentity(closed, back, quantity, backFill, true);
    LegsMoveEquity(start, b, closed, both, marks, front, back, quantity, frontFill, backFill);
  }

  lemma LegsMoveEquity(start: real, b: Book, closed: Book, both: Book, marks: Marks, front: Contract, back: Contract, quantity: int,
                       frontFill: real, backFill: real)
    requires front in marks && back in marks
    requires Balanced(b, closed, front, -quantity, frontFill) && Balanced(closed, both, back, quantity, backFill)
    ensures Equity(start, Carry(both, front, back), marks)
            == Equity(start, b, marks)
               + MarkGap(front, -quantity, marks[front], frontFill) + MarkGap(back, quantity, marks[back], backFill)
  {
    BalancedMovesEquity(start, b, closed, marks, front, -quantity, frontFill);
    BalancedMovesEquity(start, closed, both, marks, back, quantity, backFill);
    CarryKeepsEquity(start, both, marks, front, back);
  }

  lemma SamePositionsSameValue(b: Book, a: Book, marks: Marks)
    requires a.positions == b.positions
    ensures OpenValues(a, marks) == OpenValues(b, marks)
  {
    assert forall k :: OpenValue(a, marks, k) == OpenValue(b, marks, k);
  }

  lemma CarryKeepsEquity(start: real, b: Book, marks: Marks, front: Contract, back: Contract)
    ensures Equity(start, Carry(b, front, back), marks) == Equity(start, b, marks)
  {
    SamePositionsSameValue(b, Carry(b, front, back), marks);
  }

  /** A roll whose two legs are struck at the marks leaves equity unchanged. */
  lemma RollAtMarks(start: real, b: Book, marks: Marks, front: Contract, back: Contract)
    requires front in marks && back in marks && Roll(b, front, back, marks[front], marks[back]).Done?
    ensures Equity(start, Roll(b, front, back, marks[front], marks[back]).book, marks) == Equity(start, b, marks)
  {
    if Quantity(b, front) != 0 {
      RollMovesEquity(start, b, marks, front, back, marks[front], marks[back]);
    }
  }
}
