/** The conservation laws over every sequence of calls, raised ones included.
  *
  * A broker stays usable after a raise, with whatever the call had already done. Everything conserves
  * but one call: a leg that flips a position at a price that is not positive. It is refused only after
  * its profit was accrued and its bet booked, so the account total then holds money no contract realized.
  */
module LedgerRaises {
  import opened Wrappers
  import opened Contracts
  import opened Sums
  import opened Ledger
  import opened LedgerTheorems
  import BetTape

  // ---------------------------------------------------------------------------------------------
  // Runs that go on past a raise
  // ---------------------------------------------------------------------------------------------

  /** The book after all the calls, each completed or raised. */
  function RunOn(b: Book, ops: seq<Op>): Book {
    if |ops| == 0 then b else Apply(RunOn(b, ops[..|ops| - 1]), ops[|ops| - 1]).book
  }

  /** The leg, when it moved its position. */
  function LegKept(b: Book, c: Contract, delta: int, price: real, isRoll: bool): seq<Leg> {
    if ApplyDelta(b, c, delta, price, isRoll).Done? then [Leg(c, delta, price)] else []
  }

  /** The legs of a roll that moved their positions: both, the front's alone, or none. */
  function RollKept(b: Book, front: Contract, back: Contract, frontFill: real, backFill: real): seq<Leg> {
    var quantity := Quantity(b, front);
    if quantity == 0 then []
    else
      var closed := ApplyDelta(b, front, -quantity, frontFill, true);
      LegKept(b, front, -quantity, frontFill, true)
      + if closed.Done? then LegKept(closed.book, back, quantity, backFill, true) else []
  }

  function KeptBy(b: Book, op: Op): seq<Leg> {
    match op
    case Fill(c, side, quantity, price) => LegKept(b, c, Delta(side, quantity), price, false)
    case RollOver(front, back, frontFill, backFill) => RollKept(b, front, back, frontFill, backFill)
  }

  function HistoryOn(b: Book, ops: seq<Op>): seq<Leg> {
    if |ops| == 0 then [] else HistoryOn(b, ops[..|ops| - 1]) + KeptBy(RunOn(b, ops[..|ops| - 1]), ops[|ops| - 1])
  }

  /** A leg that would flip its position at a price that is not positive. */
  predicate Tears(b: Book, c: Contract, delta: int, price: real) {
    && Quantity(b, c) != 0 && !SameDirection(Quantity(b, c), delta) && Abs(delta) > Abs(Quantity(b, c))
    && price <= 0.0 && MultiplierFor(c).Some?
  }

  /** What such a leg accrues before it is refused. */
  function Torn(b: Book, c: Contract, delta: int, price: real): real {
    if Tears(b, c, delta, price) then RealizedDelta(b.positions[c], delta, price, Mult(c)) else 0.0
  }

  /** A roll tears when its back contract is held against the front, by less, and its back fill is not
    * positive. */
  predicate RollTears(b: Book, front: Contract, back: Contract, backFill: real) {
    && Quantity(b, front) != 0 && BetTape.OppositeAndSmaller(b, front, back) && backFill <= 0.0
    && MultiplierFor(front).Some? && MultiplierFor(back).Some?
  }

  function RollTorn(b: Book, front: Contract, back: Contract, backFill: real): real {
    if RollTears(b, front, back, backFill) then Torn(b, back, Quantity(b, front), backFill) else 0.0
  }

  function TornBy(b: Book, op: Op): real {
    match op
    case Fill(c, side, quantity, price) => Torn(b, c, Delta(side, quantity), price)
    case RollOver(front, back, _, backFill) => RollTorn(b, front, back, backFill)
  }

  function TornTotal(b: Book, ops: seq<Op>): real {
    if |ops| == 0 then 0.0 else TornTotal(b, ops[..|ops| - 1]) + TornBy(RunOn(b, ops[..|ops| - 1]), ops[|ops| - 1])
  }

  /** Every open position was entered at a positive price. */
  ghost predicate Priced(b: Book) {
    forall c | c in b.positions && b.positions[c].quantity != 0 :: b.positions[c].avgEntry > 0.0
  }

  /** Refused flips always strand money: a loss of a long, a gain of a short. */
  lemma TornSign(b: Book, c: Contract, delta: int, price: real)
    requires Priced(b) && Tears(b, c, delta, price)
    ensures if Quantity(b, c) > 0 then Torn(b, c, delta, price) < 0.0 else Torn(b, c, delta, price) > 0.0
  {
    MultiplierPositive(c);
    var held := b.positions[c];
    var closing := MinInt(Abs(held.quantity), Abs(delta)) as real;
    GapTimes(held.avgEntry - price, closing, Mult(c));
  }

  lemma GapTimes(x: real, y: real, z: real)
    requires x > 0.0 && y > 0.0 && z > 0.0
    ensures x * y * z > 0.0 && -x * y * z < 0.0
  {
    assert x * y > 0.0;
    assert x * y * z > 0.0;
    assert -x * y * z == -(x * y * z);
  }

  // ---------------------------------------------------------------------------------------------
  // One leg
  // ---------------------------------------------------------------------------------------------

  /** What a raised leg leaves: the positions as they were, and no tally lost. */
  lemma RaisedShape(b: Book, c: Contract, delta: int, price: real, isRoll: bool)
    requires Priced(b) && ApplyDelta(b, c, delta, price, isRoll).Raised?
    ensures var a := ApplyDelta(b, c, delta, price, isRoll).book;
            && a.positions == b.positions && a.realizedPnl == b.realizedPnl + Torn(b, c, delta, price)
            && (Tears(b, c, delta, price) ==> a == BookTrade(Accrue(b, c, Torn(b, c, delta, price)), c))
            && (!Tears(b, c, delta, price) ==> a == b)
  {
  }

  lemma DoneDoesNotTear(b: Book, c: Contract, delta: int, price: real, isRoll: bool)
    requires ApplyDelta(b, c, delta, price, isRoll).Done?
    ensures !Tears(b, c, delta, price)
  {
  }

  lemma RaisedTally(b: Book, c: Contract, delta: int, price: real, isRoll: bool)
    requires Priced(b) && ApplyDelta(b, c, delta, price, isRoll).Raised?
    ensures Tally(ApplyDelta(b, c, delta, price, isRoll).book) == Tally(b)
  {
    RaisedShape(b, c, delta, price, isRoll);
    if Tears(b, c, delta, price) {
      AccrueConserves(b, c, Torn(b, c, delta, price));
      BookTradeConserves(Accrue(b, c, Torn(b, c, delta, price)), c);
    }
  }

  lemma UnmovedAccounts(b: Book, a: Book, legs: seq<Leg>, torn: real, more: real)
    requires Accounts(b, legs, torn) && a.positions == b.positions && a.realizedPnl == b.realizedPnl + more && Tally(a) == Tally(b)
    ensures Accounts(a, legs, torn + more)
  {
    assert Realizations(a) == Realizations(b);
    SameCash(b, a, legs);
  }

  lemma SameCash(b: Book, a: Book, legs: seq<Leg>)
    requires a.positions == b.positions && forall c :: RealizedIn(b, c) == CashIn(legs, c) + Basis(b, c)
    ensures forall c :: RealizedIn(a, c) == CashIn(legs, c) + Basis(a, c)
  {
    forall c ensures RealizedIn(a, c) == CashIn(legs, c) + Basis(a, c) {
      BetTape.SameHolding(b, a, c);
      assert RealizedIn(b, c) == CashIn(legs, c) + Basis(b, c);
    }
  }

  lemma LegAccounts(b: Book, legs: seq<Leg>, torn: real, c: Contract, delta: int, price: real, isRoll: bool)
    requires Accounts(b, legs, torn) && Priced(b)
    ensures Accounts(ApplyDelta(b, c, delta, price, isRoll).book, legs + LegKept(b, c, delta, price, isRoll), torn + Torn(b, c, delta, price))
  {
    var a := ApplyDelta(b, c, delta, price, isRoll).book;
    if ApplyDelta(b, c, delta, price, isRoll).Done? {
      DoneDoesNotTear(b, c, delta, price, isRoll);
      LegIsLegged(b, a, c, delta, price, isRoll);
      BalancedAccounts(b, a, legs, torn, c, delta, price);
    } else {
      RaisedShape(b, c, delta, price, isRoll);
      RaisedTally(b, c, delta, price, isRoll);
      UnmovedAccounts(b, a, legs, torn, Torn(b, c, delta, price));
      assert legs + [] == legs;
    }
  }

  /** Open positions keep positive entries, raise or not. */
  lemma LegPriced(b: Book, c: Contract, delta: int, price: real, isRoll: bool)
    requires Priced(b)
    ensures Priced(ApplyDelta(b, c, delta, price, isRoll).book)
  {
  }

  /** Whether it completes or raises, a leg conserves if and only if it is not a flip at a price that is not
    * positive. */
  lemma LegConservesExactly(b: Book, legs: seq<Leg>, c: Contract, delta: int, price: real, isRoll: bool)
    requires Conserves(b, legs) && Priced(b)
    ensures Conserves(ApplyDelta(b, c, delta, price, isRoll).book, legs + LegKept(b, c, delta, price, isRoll)) <==> !Tears(b, c, delta, price)
  {
    LegAccounts(b, legs, 0.0, c, delta, price, isRoll);
    if Tears(b, c, delta, price) {
      TornSign(b, c, delta, price);
    }
  }

  // ---------------------------------------------------------------------------------------------
  // A roll
  // ---------------------------------------------------------------------------------------------

  /** The front leg closes its position exactly, so it never tears. */
  lemma FrontLeg(b: Book, front: Contract, frontFill: real)
    requires Priced(b) && Quantity(b, front) != 0
    ensures var closed := ApplyDelta(b, front, -Quantity(b, front), frontFill, true);
            && !Tears(b, front, -Quantity(b, front), frontFill)
            && (closed.Done? <==> MultiplierFor(front).Some?) && (closed.Raised? ==> closed.book == b)
            && (closed.Done? ==> Quantity(closed.book, front) == 0
                                 && forall k | k != front ::
                                      (k in closed.book.positions <==> k in b.positions)
                                      && (k in b.positions ==> closed.book.positions[k] == b.positions[k]))
  {
  }

  /** The back leg tears exactly when the roll does. */
  lemma BackLeg(b: Book, closed: Book, front: Contract, back: Contract, frontFill: real, backFill: real)
    requires Priced(b) && Quantity(b, front) != 0 && ApplyDelta(b, front, -Quantity(b, front), frontFill, true) == Done(closed)
    ensures Tears(closed, back, Quantity(b, front), backFill) <==> RollTears(b, front, back, backFill)
    ensures RollTears(b, front, back, backFill) ==> Torn(closed, back, Quantity(b, front), backFill) == Torn(b, back, Quantity(b, front), backFill)
  {
    FrontLeg(b, front, frontFill);
  }

  lemma RollAccounts(b: Book, legs: seq<Leg>, torn: real, front: Contract, back: Contract, frontFill: real, backFill: real)
    requires Accounts(b, legs, torn) && Priced(b)
    ensures Accounts(Roll(b, front, back, frontFill, backFill).book, legs + RollKept(b, front, back, frontFill, backFill),
                     torn + RollTorn(b, front, back, backFill))
    ensures Priced(Roll(b, front, back, frontFill, backFill).book)
  {
    var quantity := Quantity(b, front);
    var step := ApplyDelta(b, front, -quantity, frontFill, true);
    if quantity == 0 || step.Raised? {
      IdleAccounts(b, legs, torn, front, back, frontFill, backFill);
    } else {
      BothAccount(b, step.book, legs, torn, front, back, quantity, frontFill, backFill);
    }
  }

  /** Without a front position, or when its close raises, a roll changes nothing. */
  lemma IdleRoll(b: Book, front: Contract, back: Contract, frontFill: real, backFill: real)
    requires Priced(b) && (Quantity(b, front) == 0 || ApplyDelta(b, front, -Quantity(b, front), frontFill, true).Raised?)
    ensures Roll(b, front, back, frontFill, backFill).book == b
    ensures RollKept(b, front, back, frontFill, backFill) == [] && RollTorn(b, front, back, backFill) == 0.0
  {
    if Quantity(b, front) != 0 {
      FrontLeg(b, front, frontFill);
    }
  }

  lemma FrontAccounts(b: Book, closed: Book, legs: seq<Leg>, torn: real, front: Contract, quantity: int, frontFill: real)
    requires Accounts(b, legs, torn) && Priced(b) && Quantity(b, front) == quantity != 0
    requires ApplyDelta(b, front, -quantity, frontFill, true) == Done(closed)
    ensures Accounts(closed, legs + [Leg(front, -quantity, frontFill)], torn) && Priced(closed)
  {
    DoneDoesNotTear(b, front, -quantity, frontFill, true);
    LegAccounts(b, legs, torn, front, -quantity, frontFill, true);
    LegPriced(b, front, -quantity, frontFill, true);
  }

  /** What a roll keeps and tears, once its front leg is done. */
  lemma SecondLeg(b: Book, closed: Book, front: Contract, back: Contract, quantity: int, frontFill: real, backFill: real)
    requires Priced(b) && Quantity(b, front) == quantity != 0 && ApplyDelta(b, front, -quantity, frontFill, true) == Done(closed)
    ensures RollKept(b, front, back, frontFill, backFill) == [Leg(front, -quantity, frontFill)] + LegKept(closed, back, quantity, backFill, true)
    ensures RollTorn(b, front, back, backFill) == Torn(closed, back, quantity, backFill)
  {
    BackLeg(b, closed, front, back, frontFill, backFill);
  }

  lemma RollReopens(b: Book, closed: Book, front: Contract, back: Contract, quantity: int, frontFill: real, backFill: real)
    requires Quantity(b, front) == quantity != 0 && ApplyDelta(b, front, -quantity, frontFill, true) == Done(closed)
    ensures Roll(b, front, back, frontFill, backFill) == Reopen(closed, front, back, quantity, backFill)
  {
  }

  lemma IdleAccounts(b: Book, legs: seq<Leg>, torn: real, front: Contract, back: Contract, frontFill: real, backFill: real)
    requires Accounts(b, legs, torn) && Priced(b)
    requires Quantity(b, front) == 0 || ApplyDelta(b, front, -Quantity(b, front), frontFill, true).Raised?
    ensures Accounts(Roll(b, front, back, frontFill, backFill).book, legs + RollKept(b, front, back, frontFill, backFill),
                     torn + RollTorn(b, front, back, backFill))
    ensures Priced(Roll(b, front, back, frontFill, backFill).book)
  {
    IdleRoll(b, front, back, frontFill, backFill);
    assert legs + [] == legs;
  }

  lemma BothAccount(b: Book, closed: Book, legs: seq<Leg>, torn: real, front: Contract, back: Contract, quantity: int, frontFill: real, backFill: real)
    requires Accounts(b, legs, torn) && Priced(b) && Quantity(b, front) == quantity != 0
    requires ApplyDelta(b, front, -quantity, frontFill, true) == Done(closed)
    ensures Accounts(Roll(b, front, back, frontFill, backFill).book, legs + RollKept(b, front, back, frontFill, backFill),
                     torn + RollTorn(b, front, back, backFill))
    ensures Priced(Roll(b, front, back, frontFill, backFill).book)
  {
    RollReopens(b, closed, front, back, quantity, frontFill, backFill);
    var leg, more := Leg(front, -quantity, frontFill), LegKept(closed, back, quantity, backFill, true);
    FrontAccounts(b, closed, legs, torn, front, quantity, frontFill);
    ReopenAccounts(closed, legs + [leg], torn, front, back, quantity, backFill);
    SecondLeg(b, closed, front, back, quantity, frontFill, backFill);
    assert legs + [leg] + more == legs + ([leg] + more);
  }

  lemma ReopenAccounts(closed: Book, legs: seq<Leg>, torn: real, front: Contract, back: Contract, quantity: int, backFill: real)
    requires Accounts(closed, legs, torn) && Priced(closed)
    ensures Accounts(Reopen(closed, front, back, quantity, backFill).book, legs + LegKept(closed, back, quantity, backFill, true),
                     torn + Torn(closed, back, quantity, backFill))
    ensures Priced(Reopen(closed, front, back, quantity, backFill).book)
  {
    LegAccounts(closed, legs, torn, back, quantity, backFill, true);
    LegPriced(closed, back, quantity, backFill, true);
    var step := ApplyDelta(closed, back, quantity, backFill, true);
    if step.Done? {
      CarriedAccounts(step.book, legs + LegKept(closed, back, quantity, backFill, true), torn + Torn(closed, back, quantity, backFill), front, back);
    }
  }

  /** Whether it completes or raises, at either leg, a roll conserves if and only if it does not flip the back
    * position at a price that is not positive. */
  lemma RollConservesExactly(b: Book, legs: seq<Leg>, front: Contract, back: Contract, frontFill: real, backFill: real)
    requires Conserves(b, legs) && Priced(b)
    ensures Conserves(Roll(b, front, back, frontFill, backFill).book, legs + RollKept(b, front, back, frontFill, backFill))
            <==> !RollTears(b, front, back, backFill)
  {
    RollAccounts(b, legs, 0.0, front, back, frontFill, backFill);
    if RollTears(b, front, back, backFill) {
      TornSign(b, back, Quantity(b, front), backFill);
    }
  }

  /** A roll that raises is not undone: unless the front's own root is unknown, the front is left closed and the
    * back as it was. */
  lemma RaisedRollExactly(b: Book, front: Contract, back: Contract, frontFill: real, backFill: real)
    requires Priced(b) && front != back && Roll(b, front, back, frontFill, backFill).Raised?
    ensures var a := Roll(b, front, back, frontFill, backFill).book;
            && Quantity(a, front) == (if MultiplierFor(front).None? then Quantity(b, front) else 0)
            && (forall k | k != front :: Quantity(a, k) == Quantity(b, k))
            && (a == b <==> MultiplierFor(front).None?)
  {
    FrontLeg(b, front, frontFill);
    var step := ApplyDelta(b, front, -Quantity(b, front), frontFill, true);
    if step.Done? {
      BackRefused(b, step.book, front, back, frontFill, backFill);
    }
  }

  lemma BackRefused(b: Book, closed: Book, front: Contract, back: Contract, frontFill: real, backFill: real)
    requires Priced(b) && Quantity(b, front) != 0 && ApplyDelta(b, front, -Quantity(b, front), frontFill, true) == Done(closed)
    requires ApplyDelta(closed, back, Quantity(b, front), backFill, true).Raised?
    ensures Roll(b, front, back, frontFill, backFill).book.positions == closed.positions
  {
    LegPriced(b, front, -Quantity(b, front), frontFill, true);
    RaisedShape(closed, back, Quantity(b, front), backFill, true);
  }

  // ---------------------------------------------------------------------------------------------
  // Whole histories
  // ---------------------------------------------------------------------------------------------

  lemma OpAccounts(b: Book, legs: seq<Leg>, torn: real, op: Op)
    requires Accounts(b, legs, torn) && Priced(b)
    ensures Accounts(Apply(b, op).book, legs + KeptBy(b, op), torn + TornBy(b, op)) && Priced(Apply(b, op).book)
  {
    match op
    case Fill(c, side, quantity, price) =>
      LegAccounts(b, legs, torn, c, Delta(side, quantity), price, false);
      LegPriced(b, c, Delta(side, quantity), price, false);
    case RollOver(front, back, frontFill, backFill) => RollAccounts(b, legs, torn, front, back, frontFill, backFill);
  }

  /** After any calls, completed or raised: per contract, realized is the cash of the legs that moved it plus
    * the basis held; the trade ledger holds the account's realized total; and that total is the sum over
    * contracts and what refused flips left behind. */
  lemma {:induction false} EveryHistoryAccounts(ops: seq<Op>)
    ensures Accounts(RunOn(EMPTY_BOOK, ops), HistoryOn(EMPTY_BOOK, ops), TornTotal(EMPTY_BOOK, ops)) && Priced(RunOn(EMPTY_BOOK, ops))
  {
    if |ops| == 0 {
      assert Realizations(EMPTY_BOOK) == map[];
    } else {
      var past := ops[..|ops| - 1];
      EveryHistoryAccounts(past);
      OpAccounts(RunOn(EMPTY_BOOK, past), HistoryOn(EMPTY_BOOK, past), TornTotal(EMPTY_BOOK, past), ops[|ops| - 1]);
    }
  }

  /** So the books agree after any calls if and only if what refused flips left behind cancels. */
  lemma HistoryConservesExactly(ops: seq<Op>)
    ensures Conserves(RunOn(EMPTY_BOOK, ops), HistoryOn(EMPTY_BOOK, ops)) <==> TornTotal(EMPTY_BOOK, ops) == 0.0
  {
    EveryHistoryAccounts(ops);
  }

  /** A history in which nothing raised is the completed one, and nothing is torn. */
  lemma {:induction false} CompletedHistory(ops: seq<Op>)
    requires Run(EMPTY_BOOK, ops).Some?
    ensures RunOn(EMPTY_BOOK, ops) == Run(EMPTY_BOOK, ops).value && HistoryOn(EMPTY_BOOK, ops) == History(EMPTY_BOOK, ops)
    ensures TornTotal(EMPTY_BOOK, ops) == 0.0
  {
    if |ops| > 0 {
      var past := ops[..|ops| - 1];
      CompletedHistory(past);
      EveryHistoryAccounts(past);
      CompletedOp(Run(EMPTY_BOOK, past).value, ops[|ops| - 1]);
    }
  }

  lemma CompletedOp(b: Book, op: Op)
    requires Priced(b) && Apply(b, op).Done?
    ensures KeptBy(b, op) == LegsOf(b, op) && TornBy(b, op) == 0.0
  {
    match op
    case Fill(c, side, quantity, price) => DoneDoesNotTear(b, c, Delta(side, quantity), price, false);
    case RollOver(front, back, frontFill, backFill) =>
      if Quantity(b, front) != 0 {
        var closed, both := RollShape(b, front, back, frontFill, backFill);
        BackLeg(b, closed, front, back, frontFill, backFill);
        DoneDoesNotTear(closed, back, Quantity(b, front), backFill, true);
      }
  }

  // ---------------------------------------------------------------------------------------------
  // A roll that tears
  // ---------------------------------------------------------------------------------------------

  /** Long two front, short one back, and a roll whose back fill is negative: it raises, and the account total
    * is no longer the sum over contracts. */
  lemma RefusedRollTears(front: Contract, back: Contract)
    requires front != back && MultiplierFor(front).Some? && MultiplierFor(back).Some?
    ensures var held := [Fill(front, Buy, 2, 100.0)] + [Fill(back, Sell, 1, 100.0)];
            var ops := held + [RollOver(front, back, 110.0, -5.0)];
            && Run(EMPTY_BOOK, held).Some? && Apply(Run(EMPTY_BOOK, held).value, RollOver(front, back, 110.0, -5.0)).Raised?
            && RunOn(EMPTY_BOOK, ops).realizedPnl > Total(Realizations(RunOn(EMPTY_BOOK, ops)))
  {
    var buy, sell, roll := Fill(front, Buy, 2, 100.0), Fill(back, Sell, 1, 100.0), RollOver(front, back, 110.0, -5.0);
    var b1 := EMPTY_BOOK.(positions := map[front := Position(2, 100.0, 0.0)]);
    var b2 := b1.(positions := b1.positions[back := Position(-1, 100.0, 0.0)]);
    assert [] + [buy] == [buy];
    BetTape.RunAppend(EMPTY_BOOK, [], buy);
    BetTape.RunAppend(EMPTY_BOOK, [buy], sell);
    CompletedHistory([buy] + [sell]);
    OneMoreOn([buy] + [sell], roll);
    EveryHistoryAccounts([buy] + [sell] + [roll]);
    TearingRoll(b2, front, back);
  }

  lemma OneMoreOn(ops: seq<Op>, op: Op)
    ensures RunOn(EMPTY_BOOK, ops + [op]) == Apply(RunOn(EMPTY_BOOK, ops), op).book
    ensures TornTotal(EMPTY_BOOK, ops + [op]) == TornTotal(EMPTY_BOOK, ops) + TornBy(RunOn(EMPTY_BOOK, ops), op)
  {
    assert (ops + [op])[..|ops|] == ops;
  }

  lemma TearingRoll(b: Book, front: Contract, back: Contract)
    requires front != back && MultiplierFor(front).Some? && MultiplierFor(back).Some?
    requires b.positions == map[front := Position(2, 100.0, 0.0), back := Position(-1, 100.0, 0.0)]
    ensures Apply(b, RollOver(front, back, 110.0, -5.0)).Raised? && TornBy(b, RollOver(front, back, 110.0, -5.0)) > 0.0
  {
    TornSign(b, back, 2, -5.0);
    FrontLeg(b, front, 110.0);
    var closed := ApplyDelta(b, front, -2, 110.0, true).book;
    BackLeg(b, closed, front, back, 110.0, -5.0);
    if ApplyDelta(closed, back, 2, -5.0, true).Done? {
      DoneDoesNotTear(closed, back, 2, -5.0, true);
    }
  }
}
