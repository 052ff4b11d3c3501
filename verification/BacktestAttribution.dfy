/** Where every equity point of a run comes from: marks that moved, and prices away from the mark. */
module BacktestAttribution {
  import opened Wrappers
  import opened Contracts
  import opened Sums
  import opened Ledger
  import opened Broker
  import opened Valuation
  import opened Backtest
  import opened BacktestCausality
  import opened BacktestLedger
  import opened LedgerTheorems
  import RollTelescoping

  // ---------------------------------------------------------------------------------------------
  // Legs and rolls at given marks
  // ---------------------------------------------------------------------------------------------

  /** What a leg realizes on the position it meets. */
  function Realizes(b: Book, c: Contract, delta: int, price: real): real {
    if Quantity(b, c) == 0 || SameDirection(Quantity(b, c), delta) then 0.0
    else RealizedDelta(b.positions[c], delta, price, Mult(c))
  }

  /** What a leg adds to equity: the gap between mark and price, or, in a contract without a mark, whose open
    * profit counts as zero, what it realizes. */
  function LegGain(b: Book, marks: Marks, c: Contract, delta: int, price: real): real {
    if c in marks then MarkGap(c, delta, marks[c], price) else Realizes(b, c, delta, price)
  }

  function RollGain(b: Book, marks: Marks, front: Contract, back: Contract, frontFill: real, backFill: real): real {
    var quantity := Quantity(b, front);
    if quantity == 0 then 0.0
    else
      LegGain(b, marks, front, -quantity, frontFill) + LegGain(Without(b, front), marks, back, quantity, backFill)
  }

  /** The book with nothing held in `c`. */
  function Without(b: Book, c: Contract): Book {
    b.(positions := b.positions - {c})
  }

  function OpGain(b: Book, marks: Marks, op: Op): real {
    match op
    case Fill(c, side, quantity, price) => LegGain(b, marks, c, Delta(side, quantity), price)
    case RollOver(front, back, frontFill, backFill) => RollGain(b, marks, front, back, frontFill, backFill)
  }

  /** The gains of all the operations, each on the book it meets. */
  function Gains(b: Book, marks: Marks, ops: seq<Op>): real {
    if |ops| == 0 then 0.0
    else
      match Run(b, ops[..|ops| - 1])
      case None => 0.0
      case Some(m) => Gains(b, marks, ops[..|ops| - 1]) + OpGain(m, marks, ops[|ops| - 1])
  }

  lemma RealizesIs(b: Book, c: Contract, delta: int, price: real, isRoll: bool)
    requires ApplyDelta(b, c, delta, price, isRoll).Done?
    ensures ApplyDelta(b, c, delta, price, isRoll).book.realizedPnl - b.realizedPnl == Realizes(b, c, delta, price)
  {
    if Quantity(b, c) != 0 && !SameDirection(Quantity(b, c), delta) {
      CloseShape(b, c, delta, price, isRoll, Mult(c));
    }
  }

  /** Open profit without a mark is zero before and after. */
  lemma UnmarkedMovesEquity(start: real, b: Book, a: Book, marks: Marks, c: Contract, delta: int, price: real)
    requires c !in marks && Balanced(b, a, c, delta, price)
    ensures Equity(start, a, marks) == Equity(start, b, marks) + (a.realizedPnl - b.realizedPnl)
  {
    OthersUnmoved(b, a, marks, c);
    TotalUpdate(OpenValues(b, marks), c, 0.0);
  }

  /** A leg's money balances, and it realized what it meets. */
  ghost predicate Struck(b: Book, a: Book, c: Contract, delta: int, price: real) {
    Balanced(b, a, c, delta, price) && a.realizedPnl - b.realizedPnl == Realizes(b, c, delta, price)
  }

  lemma LegIsStruck(b: Book, a: Book, c: Contract, delta: int, price: real, isRoll: bool)
    requires ApplyDelta(b, c, delta, price, isRoll) == Done(a)
    ensures Struck(b, a, c, delta, price)
  {
    FillIdentity(b, c, delta, price, isRoll);
    RealizesIs(b, c, delta, price, isRoll);
  }

  lemma LegMovesEquity(start: real, b: Book, a: Book, marks: Marks, c: Contract, delta: int, price: real)
    requires Struck(b, a, c, delta, price)
    ensures Equity(start, a, marks) == Equity(start, b, marks) + LegGain(b, marks, c, delta, price)
  {
    if c in marks {
      BalancedMovesEquity(start, b, a, marks, c, delta, price);
    } else {
      UnmarkedMovesEquity(start, b, a, marks, c, delta, price);
    }
  }

  lemma FillMoves(start: real, b: Book, a: Book, marks: Marks, c: Contract, delta: int, price: real)
    requires ApplyDelta(b, c, delta, price, false) == Done(a)
    ensures Equity(start, a, marks) == Equity(start, b, marks) + LegGain(b, marks, c, delta, price)
  {
    LegIsStruck(b, a, c, delta, price, false);
    LegMovesEquity(start, b, a, marks, c, delta, price);
  }

  lemma FrontIsStruck(b: Book, front: Contract, back: Contract, quantity: int, frontFill: real, backFill: real) returns (closed: Book)
    requires Quantity(b, front) == quantity != 0 && Roll(b, front, back, frontFill, backFill).Done?
    ensures Struck(b, closed, front, -quantity, frontFill)
    ensures Reopen(closed, front, back, quantity, backFill) == Roll(b, front, back, frontFill, backFill)
  {
    closed := ApplyDelta(b, front, -quantity, frontFill, true).book;
    LegIsStruck(b, closed, front, -quantity, frontFill, true);
  }

  /** The back leg meets what was held in the back, or nothing when that is the front itself. */
  lemma BackGain(b: Book, closed: Book, marks: Marks, front: Contract, back: Contract, quantity: int, frontFill: real, backFill: real)
    requires Quantity(b, front) == quantity && Struck(b, closed, front, -quantity, frontFill)
    ensures LegGain(closed, marks, back, quantity, backFill) == LegGain(Without(b, front), marks, back, quantity, backFill)
  {
  }

  lemma BackIsStruck(closed: Book, front: Contract, back: Contract, quantity: int, backFill: real) returns (both: Book)
    requires Reopen(closed, front, back, quantity, backFill).Done?
    ensures Struck(closed, both, back, quantity, backFill) && Reopen(closed, front, back, quantity, backFill) == Done(Carry(both, front, back))
  {
    both := ReopenShape(closed, front, back, quantity, backFill);
    LegIsStruck(closed, both, back, quantity, backFill, true);
  }

  lemma LegsMove(start: real, b: Book, closed: Book, both: Book, marks: Marks, front: Contract, back: Contract, quantity: int,
                 frontFill: real, backFill: real)
    requires Struck(b, closed, front, -quantity, frontFill) && Struck(closed, both, back, quantity, backFill)
    ensures Equity(start, Carry(both, front, back), marks)
            == Equity(start, b, marks) + LegGain(b, marks, front, -quantity, frontFill) + LegGain(closed, marks, back, quantity, backFill)
  {
    LegMovesEquity(start, b, closed, marks, front, -quantity, frontFill);
    LegMovesEquity(start, closed, both, marks, back, quantity, backFill);
    CarryKeepsEquity(start, both, marks, front, back);
  }

  lemma RollMoves(start: real, b: Book, marks: Marks, front: Contract, back: Contract, frontFill: real, backFill: real)
    requires Roll(b, front, back, frontFill, backFill).Done?
    ensures Equity(start, Roll(b, front, back, frontFill, backFill).book, marks)
            == Equity(start, b, marks) + RollGain(b, marks, front, back, frontFill, backFill)
  {
    var quantity := Quantity(b, front);
    if quantity != 0 {
      var closed := FrontIsStruck(b, front, back, quantity, frontFill, backFill);
      BackGain(b, closed, marks, front, back, quantity, frontFill, backFill);
      var both := BackIsStruck(closed, front, back, quantity, backFill);
      LegsMove(start, b, closed, both, marks, front, back, quantity, frontFill, backFill);
    }
  }

  lemma OpMovesEquity(start: real, b: Book, a: Book, marks: Marks, op: Op)
    requires Apply(b, op) == Done(a)
    ensures Equity(start, a, marks) == Equity(start, b, marks) + OpGain(b, marks, op)
  {
    match op
    case Fill(c, side, quantity, price) => FillMoves(start, b, a, marks, c, Delta(side, quantity), price);
    case RollOver(front, back, frontFill, backFill) => RollMoves(start, b, marks, front, back, frontFill, backFill);
  }

  /** At fixed marks, fills and rolls move equity by the sum of their gains. */
  lemma {:induction false} GainsMoveEquity(start: real, b: Book, marks: Marks, ops: seq<Op>)
    requires Run(b, ops).Some?
    ensures Equity(start, Run(b, ops).value, marks) == Equity(start, b, marks) + Gains(b, marks, ops)
  {
    if |ops| > 0 {
      GainsMoveEquity(start, b, marks, ops[..|ops| - 1]);
      OpMovesEquity(start, Run(b, ops[..|ops| - 1]).value, Run(b, ops).value, marks, ops[|ops| - 1]);
    }
  }

  // ---------------------------------------------------------------------------------------------
  // A mark that moves
  // ---------------------------------------------------------------------------------------------

  /** Held quantity times multiplier times the move of the mark; a first mark is a move from the entry. */
  function MarkMove(b: Book, marks: Marks, c: Contract, close: real): real {
    Quantity(b, c) as real * Mult(c) * (close - if c in marks then marks[c] else AvgEntry(b, c))
  }

  lemma MarkMovesEquity(start: real, b: Book, marks: Marks, c: Contract, close: real)
    ensures Equity(start, b, marks[c := close]) == Equity(start, b, marks) + MarkMove(b, marks, c, close)
  {
    var moved := marks[c := close];
    MarkMovesValue(b, marks, c, close);
    OtherMarks(b, marks, c, close);
    if c in b.positions {
      assert OpenValues(b, moved) == OpenValues(b, marks)[c := OpenValue(b, moved, c)];
      TotalUpdate(OpenValues(b, marks), c, OpenValue(b, moved, c));
    } else {
      assert OpenValues(b, moved) == OpenValues(b, marks);
    }
  }

  lemma OtherMarks(b: Book, marks: Marks, c: Contract, close: real)
    ensures forall k | k != c :: OpenValue(b, marks[c := close], k) == OpenValue(b, marks, k)
  {
  }

  lemma MarkMovesValue(b: Book, marks: Marks, c: Contract, close: real)
    ensures OpenValue(b, marks[c := close], c) == OpenValue(b, marks, c) + MarkMove(b, marks, c, close)
  {
    PriceMoves(Quantity(b, c) as real, Mult(c), close, if c in marks then marks[c] else AvgEntry(b, c));
  }

  lemma PriceMoves(quantity: real, mult: real, close: real, was: real)
    ensures quantity * mult * (close - was) == close * quantity * mult - was * quantity * mult
  {
  }

  // ---------------------------------------------------------------------------------------------
  // Runs
  // ---------------------------------------------------------------------------------------------

  /** One bar's equity: the move of its mark on what was held, then the gains of its fills and its roll. */
  ghost function BarGain(cfg: Config, s: EngineState, bar: Bar): real
    requires Accounted(s.account) && Advanced(s.account, bar, cfg.slip).Ok?
  {
    MarkMove(s.account.book, s.marks, bar.contract, bar.close)
    + Gains(s.account.book, s.marks[bar.contract := bar.close], BarOps(cfg, s, bar))
  }

  lemma StepAttributed(cfg: Config, s: EngineState, bar: Bar)
    requires Accounted(s.account) && BarStep(cfg, s, bar).Success?
    ensures var n := BarStep(cfg, s, bar).value;
            Equity(cfg.start, n.account.book, n.marks) == Equity(cfg.start, s.account.book, s.marks) + BarGain(cfg, s, bar)
  {
    var marks := s.marks[bar.contract := bar.close];
    StepReplays(cfg, s, bar);
    MarkMovesEquity(cfg.start, s.account.book, s.marks, bar.contract, bar.close);
    GainsMoveEquity(cfg.start, s.account.book, marks, BarOps(cfg, s, bar));
  }

  /** The gains of all bars of a run. */
  ghost function RunGain(cfg: Config, a: Account, bars: seq<Bar>): real
    requires Accounted(a) && RunBars(cfg, a, bars).Success?
  {
    if |bars| == 0 then 0.0
    else
      var past := bars[..|bars| - 1];
      RunKeeps(cfg, a, past);
      RunGain(cfg, a, past) + BarGain(cfg, RunBars(cfg, a, past).value, bars[|bars| - 1])
  }

  lemma BeginEquity(start: real, b: Book)
    ensures Equity(start, b, map[]) == start + b.realizedPnl
  {
    var values := OpenValues(b, map[]);
    AllZero(values);
  }

  lemma {:induction false} AllZero(values: map<Contract, real>)
    requires forall c | c in values :: values[c] == 0.0
    ensures Total(values) == 0.0
    decreases |values|
  {
    if c :| c in values {
      TotalRemove(values, c);
      AllZero(values - {c});
    } else {
      assert values == map[];
    }
  }

  /** Every equity point of a run is explained: it is the starting equity plus, over the bars so far, what was
    * held times the move of the mark, and for every fill and roll leg the gap between the mark and its price. */
  lemma {:induction false} RunAttributed(cfg: Config, a: Account, bars: seq<Bar>)
    requires Accounted(a) && |bars| > 0 && RunBars(cfg, a, bars).Success?
    ensures var n := RunBars(cfg, a, bars).value;
            && |n.curve| == |bars|
            && n.curve[|bars| - 1] == cfg.start + a.book.realizedPnl + RunGain(cfg, a, bars)
  {
    EquityAttributed(cfg, a, bars);
    RunKeeps(cfg, a, bars[..|bars| - 1]);
    var s, n := RunLast(cfg, a, bars);
    RollTelescoping.StepPoint(cfg, s, n, bars[|bars| - 1]);
  }

  lemma {:induction false} EquityAttributed(cfg: Config, a: Account, bars: seq<Bar>)
    requires Accounted(a) && RunBars(cfg, a, bars).Success?
    ensures var n := RunBars(cfg, a, bars).value;
            Equity(cfg.start, n.account.book, n.marks) == cfg.start + a.book.realizedPnl + RunGain(cfg, a, bars)
  {
    if |bars| == 0 {
      BeginEquity(cfg.start, a.book);
    } else {
      var past := bars[..|bars| - 1];
      var s, n := RunLast(cfg, a, bars);
      RunKeeps(cfg, a, past);
      EquityAttributed(cfg, a, past);
      StepAttributed(cfg, s, bars[|bars| - 1]);
    }
  }

  // ---------------------------------------------------------------------------------------------
  // The marks
  // ---------------------------------------------------------------------------------------------

  /** The close of the latest bar of a contract. */
  function LatestClose(bars: seq<Bar>, c: Contract): Option<real> {
    if |bars| == 0 then None
    else if bars[|bars| - 1].contract == c then Some(bars[|bars| - 1].close)
    else LatestClose(bars[..|bars| - 1], c)
  }

  function MarkOf(marks: Marks, c: Contract): Option<real> {
    if c in marks then Some(marks[c]) else None
  }

  /** Every contract is marked at the close of its latest bar. */
  lemma {:induction false} MarksAreLatest(cfg: Config, a: Account, bars: seq<Bar>, c: Contract)
    requires Shaped(a) && RunBars(cfg, a, bars).Success?
    ensures MarkOf(RunBars(cfg, a, bars).value.marks, c) == LatestClose(bars, c)
  {
    if |bars| > 0 {
      MarksAreLatest(cfg, a, bars[..|bars| - 1], c);
      var s, n := RunLast(cfg, a, bars);
      RollTelescoping.StepMarks(cfg, s, n, bars[|bars| - 1]);
    }
  }
}
