/** Conservation laws of the ledger, over every sequence of fills and rolls. */
module LedgerTheorems {
  import opened Wrappers
  import opened Contracts
  import opened Sums
  import opened Ledger

  /** One change of position: a fill, or one leg of a roll. */
  datatype Leg = Leg(contract: Contract, delta: int, price: real)

  datatype Op =
    | Fill(contract: Contract, side: Side, quantity: nat, price: real)
    | RollOver(front: Contract, back: Contract, frontFill: real, backFill: real)

  function Apply(b: Book, op: Op): Step {
    match op
    case Fill(c, side, quantity, price) => ApplyDelta(b, c, Delta(side, quantity), price, false)
    case RollOver(front, back, frontFill, backFill) => Roll(b, front, back, frontFill, backFill)
  }

  /** The book after all of `ops`, or None when one of them raised. */
  function Run(b: Book, ops: seq<Op>): Option<Book> {
    if |ops| == 0 then Some(b)
    else
      match Run(b, ops[..|ops| - 1])
      case None => None
      case Some(m) => (match Apply(m, ops[|ops| - 1]) case Done(a) => Some(a) case Raised(_, _) => None)
  }

  /** The position changes an operation makes. */
  function LegsOf(b: Book, op: Op): seq<Leg> {
    match op
    case Fill(c, side, quantity, price) => [Leg(c, Delta(side, quantity), price)]
    case RollOver(front, back, frontFill, backFill) =>
      var quantity := Quantity(b, front);
      if quantity == 0 then [] else [Leg(front, -quantity, frontFill), Leg(back, quantity, backFill)]
  }

  function History(b: Book, ops: seq<Op>): seq<Leg> {
    if |ops| == 0 then []
    else
      match Run(b, ops[..|ops| - 1])
      case None => []
      case Some(m) => History(b, ops[..|ops| - 1]) + LegsOf(m, ops[|ops| - 1])
  }

  /** Cash received from the legs in one contract: minus price times signed quantity. */
  function CashIn(legs: seq<Leg>, c: Contract): real {
    if |legs| == 0 then 0.0
    else
      var leg := legs[|legs| - 1];
      CashIn(legs[..|legs| - 1], c) - if leg.contract == c then Outlay(c, leg.delta, leg.price) else 0.0
  }

  lemma CashInAppend(legs: seq<Leg>, leg: Leg, c: Contract)
    ensures CashIn(legs + [leg], c) == CashIn(legs, c) - if leg.contract == c then Outlay(c, leg.delta, leg.price) else 0.0
  {
    assert (legs + [leg])[..|legs|] == legs;
  }

  // ---------------------------------------------------------------------------------------------
  // Cash identity
  // ---------------------------------------------------------------------------------------------

  function Realizations(b: Book): map<Contract, real> {
    map c | c in b.positions :: b.positions[c].realized
  }

  /** Per contract, what was realized is the cash received plus the basis still held; the account's
    * realized total is the sum over contracts and `torn`; and the trade ledger holds all of it. */
  ghost predicate Accounts(b: Book, legs: seq<Leg>, torn: real) {
    && (forall c :: RealizedIn(b, c) == CashIn(legs, c) + Basis(b, c))
    && b.realizedPnl == Total(Realizations(b)) + torn
    && SeqTotal(b.tradePnls) + Total(b.openTradePnl) == b.realizedPnl
  }

  /** The account's realized total is the sum over contracts. */
  ghost predicate Conserves(b: Book, legs: seq<Leg>) {
    Accounts(b, legs, 0.0)
  }

  lemma LegConserves(b: Book, legs: seq<Leg>, c: Contract, delta: int, price: real, isRoll: bool)
    requires Conserves(b, legs) && ApplyDelta(b, c, delta, price, isRoll).Done?
    ensures Conserves(ApplyDelta(b, c, delta, price, isRoll).book, legs + [Leg(c, delta, price)])
  {
    var a := ApplyDelta(b, c, delta, price, isRoll).book;
    FillIdentity(b, c, delta, price, isRoll);
    TradesConserve(b, c, delta, price, isRoll);
    BalancedAccounts(b, a, legs, 0.0, c, delta, price);
  }

  /** A balanced change of one position that keeps the trade tally conserves. */
  lemma BalancedAccounts(b: Book, a: Book, legs: seq<Leg>, torn: real, c: Contract, delta: int, price: real)
    requires Accounts(b, legs, torn) && Balanced(b, a, c, delta, price) && Tally(a) == Tally(b)
    ensures Accounts(a, legs + [Leg(c, delta, price)], torn)
  {
    CashConserves(b, a, legs, c, delta, price);
    RealizationsMove(b, a, c);
    TotalUpdate(Realizations(b), c, RealizedIn(a, c));
  }

  lemma RealizationsMove(b: Book, a: Book, c: Contract)
    requires a.positions == b.positions[c := Position(Quantity(a, c), AvgEntry(a, c), RealizedIn(a, c))]
    ensures Realizations(a) == Realizations(b)[c := RealizedIn(a, c)] && Get(Realizations(b), c) == RealizedIn(b, c)
  {
  }

  lemma CashConserves(b: Book, a: Book, legs: seq<Leg>, c: Contract, delta: int, price: real)
    requires (forall k :: RealizedIn(b, k) == CashIn(legs, k) + Basis(b, k)) && Balanced(b, a, c, delta, price)
    ensures forall k :: RealizedIn(a, k) == CashIn(legs + [Leg(c, delta, price)], k) + Basis(a, k)
  {
    forall k ensures RealizedIn(a, k) == CashIn(legs + [Leg(c, delta, price)], k) + Basis(a, k) {
      CashInAppend(legs, Leg(c, delta, price), k);
      if k != c {
        OtherContract(b, a, c, k);
      }
    }
  }

  lemma OtherContract(b: Book, a: Book, c: Contract, k: Contract)
    requires k != c && a.positions == b.positions[c := Position(Quantity(a, c), AvgEntry(a, c), RealizedIn(a, c))]
    ensures RealizedIn(a, k) == RealizedIn(b, k) && Basis(a, k) == Basis(b, k) && Quantity(a, k) == Quantity(b, k)
  {
  }

  /** Booked trades and open tallies, less what was realized. */
  ghost function Tally(b: Book): real {
    SeqTotal(b.tradePnls) + Total(b.openTradePnl) - b.realizedPnl
  }

  lemma AccrueConserves(b: Book, c: Contract, realized: real)
    ensures Tally(Accrue(b, c, realized)) == Tally(b)
  {
    TotalUpdate(b.openTradePnl, c, Get(b.openTradePnl, c) + realized);
  }

  lemma BookTradeConserves(b: Book, c: Contract)
    ensures Tally(BookTrade(b, c)) == Tally(b)
  {
    TotalDrop(b.openTradePnl, c);
    SeqTotalAppend(b.tradePnls, Get(b.openTradePnl, c));
  }

  lemma CloseConserves(b: Book, c: Contract, delta: int, price: real, isRoll: bool, mult: real)
    requires c in b.positions && Close(b, c, delta, price, isRoll, mult).Done?
    ensures Tally(Close(b, c, delta, price, isRoll, mult).book) == Tally(b)
  {
    var realized := RealizedDelta(b.positions[c], delta, price, mult);
    AccrueConserves(b, c, realized);
    BookTradeConserves(Accrue(b, c, realized), c);
  }

  lemma TradesConserve(b: Book, c: Contract, delta: int, price: real, isRoll: bool)
    requires ApplyDelta(b, c, delta, price, isRoll).Done?
    ensures Tally(ApplyDelta(b, c, delta, price, isRoll).book) == Tally(b)
  {
    if Quantity(b, c) != 0 && !SameDirection(Quantity(b, c), delta) {
      CloseConserves(b, c, delta, price, isRoll, Mult(c));
    }
  }

  lemma CarryConserves(b: Book, front: Contract, back: Contract)
    ensures Total(Carry(b, front, back).openTradePnl) == Total(b.openTradePnl)
  {
    TotalDrop(b.openTradePnl, front);
    var rest := b.openTradePnl - {front};
    TotalUpdate(rest, back, Get(rest, back) + Get(b.openTradePnl, front));
  }

  /** The book moved by one leg: its money balances and no tally is lost. */
  ghost predicate Legged(b: Book, a: Book, c: Contract, delta: int, price: real) {
    Balanced(b, a, c, delta, price) && Tally(a) == Tally(b)
  }

  lemma LegIsLegged(b: Book, a: Book, c: Contract, delta: int, price: real, isRoll: bool)
    requires ApplyDelta(b, c, delta, price, isRoll) == Done(a)
    ensures Legged(b, a, c, delta, price)
  {
    FillIdentity(b, c, delta, price, isRoll);
    TradesConserve(b, c, delta, price, isRoll);
  }

  lemma RollConserves(b: Book, legs: seq<Leg>, front: Contract, back: Contract, frontFill: real, backFill: real, after: Book)
    requires Conserves(b, legs) && Quantity(b, front) != 0 && Roll(b, front, back, frontFill, backFill) == Done(after)
    ensures Conserves(after, legs + [Leg(front, -Quantity(b, front), frontFill), Leg(back, Quantity(b, front), backFill)])
  {
    var quantity := Quantity(b, front);
    var closed := FrontIsLegged(b, front, back, quantity, frontFill, backFill);
    var both := BackIsLegged(closed, front, back, quantity, backFill);
    LegsConserve(b, closed, both, legs, front, back, quantity, frontFill, backFill);
  }

  lemma FrontIsLegged(b: Book, front: Contract, back: Contract, quantity: int, frontFill: real, backFill: real) returns (closed: Book)
    requires Quantity(b, front) == quantity != 0 && Roll(b, front, back, frontFill, backFill).Done?
    ensures Legged(b, closed, front, -quantity, frontFill)
    ensures Reopen(closed, front, back, quantity, backFill) == Roll(b, front, back, frontFill, backFill)
  {
    closed := ApplyDelta(b, front, -quantity, frontFill, true).book;
    LegIsLegged(b, closed, front, -quantity, frontFill, true);
  }

  lemma BackIsLegged(closed: Book, front: Contract, back: Contract, quantity: int, backFill: real) returns (both: Book)
    requires Reopen(closed, front, back, quantity, backFill).Done?
    ensures Legged(closed, both, back, quantity, backFill) && Reopen(closed, front, back, quantity, backFill) == Done(Carry(both, front, back))
  {
    both := ReopenShape(closed, front, back, quantity, backFill);
    LegIsLegged(closed, both, back, quantity, backFill, true);
  }

  lemma LegsConserve(b: Book, closed: Book, both: Book, legs: seq<Leg>, front: Contract, back: Contract, quantity: int, frontFill: real, backFill: real)
    requires Conserves(b, legs) && Legged(b, closed, front, -quantity, frontFill) && Legged(closed, both, back, quantity, backFill)
    ensures Conserves(Carry(both, front, back), legs + [Leg(front, -quantity, frontFill), Leg(back, quantity, backFill)])
  {
    BalancedAccounts(b, closed, legs, 0.0, front, -quantity, frontFill);
    BalancedAccounts(closed, both, legs + [Leg(front, -quantity, frontFill)], 0.0, back, quantity, backFill);
    SplitPair(legs, Leg(front, -quantity, frontFill), Leg(back, quantity, backFill));
    CarriedAccounts(both, legs + [Leg(front, -quantity, frontFill), Leg(back, quantity, backFill)], 0.0, front, back);
  }

  lemma CarriedAccounts(b: Book, legs: seq<Leg>, torn: real, front: Contract, back: Contract)
    requires Accounts(b, legs, torn)
    ensures Accounts(Carry(b, front, back), legs, torn)
  {
    CarryConserves(b, front, back);
    KeepsMoney(b, Carry(b, front, back), legs, torn);
  }

  lemma SplitPair(legs: seq<Leg>, l1: Leg, l2: Leg)
    ensures legs + [l1, l2] == legs + [l1] + [l2]
  {
  }

  /** A completed roll is its two legs followed by the carry. */
  lemma RollShape(b: Book, front: Contract, back: Contract, frontFill: real, backFill: real) returns (closed: Book, both: Book)
    requires Quantity(b, front) != 0 && Roll(b, front, back, frontFill, backFill).Done?
    ensures ApplyDelta(b, front, -Quantity(b, front), frontFill, true) == Done(closed)
    ensures ApplyDelta(closed, back, Quantity(b, front), backFill, true) == Done(both)
    ensures Roll(b, front, back, frontFill, backFill) == Done(Carry(both, front, back))
  {
    closed := ApplyDelta(b, front, -Quantity(b, front), frontFill, true).book;
    both := ReopenShape(closed, front, back, Quantity(b, front), backFill);
  }

  lemma ReopenShape(closed: Book, front: Contract, back: Contract, quantity: int, backFill: real) returns (both: Book)
    requires Reopen(closed, front, back, quantity, backFill).Done?
    ensures ApplyDelta(closed, back, quantity, backFill, true) == Done(both)
    ensures Reopen(closed, front, back, quantity, backFill) == Done(Carry(both, front, back))
  {
    both := ApplyDelta(closed, back, quantity, backFill, true).book;
  }

  lemma KeepsMoney(b: Book, a: Book, legs: seq<Leg>, torn: real)
    requires Accounts(b, legs, torn)
    requires a.positions == b.positions && a.realizedPnl == b.realizedPnl && a.tradePnls == b.tradePnls
    requires Total(a.openTradePnl) == Total(b.openTradePnl)
    ensures Accounts(a, legs, torn)
  {
    forall c ensures RealizedIn(a, c) == CashIn(legs, c) + Basis(a, c) {
      assert RealizedIn(b, c) == CashIn(legs, c) + Basis(b, c);
    }
    assert Realizations(a) == Realizations(b);
  }

  /** Cash identity and trade-ledger conservation after any fills and rolls, in any order. */
  lemma {:induction false} CashIdentity(ops: seq<Op>)
    requires Run(EMPTY_BOOK, ops).Some?
    ensures Conserves(Run(EMPTY_BOOK, ops).value, History(EMPTY_BOOK, ops))
  {
    if |ops| == 0 {
      assert Realizations(EMPTY_BOOK) == map[];
    } else {
      var m := Run(EMPTY_BOOK, ops[..|ops| - 1]).value;
      CashIdentity(ops[..|ops| - 1]);
      var legs := History(EMPTY_BOOK, ops[..|ops| - 1]);
      match ops[|ops| - 1]
      case Fill(c, side, quantity, price) => LegConserves(m, legs, c, Delta(side, quantity), price, false);
      case RollOver(front, back, frontFill, backFill) =>
        if Quantity(m, front) == 0 {
          assert legs + [] == legs;
        } else {
          RollConserves(m, legs, front, back, frontFill, backFill, Run(EMPTY_BOOK, ops).value);
        }
    }
  }
}
