/** The ledger laws over portfolio runs: each run's fills and rolls, replayed on an empty book, give its book. */
module PortfolioLedger {
  import opened Wrappers
  import opened Ledger
  import opened Broker
  import opened Backtest
  import opened LedgerTheorems
  import opened BacktestLedger
  import opened Portfolio
  import opened PortfolioCausality
  import BetTape

  // ---------------------------------------------------------------------------------------------
  // One date
  // ---------------------------------------------------------------------------------------------

  lemma ItemReplays(cfg: PConfig, s: PState, i: Item) returns (added: seq<FillEvent>)
    requires Accounted(s.account) && AdvanceItem(cfg, s, i).Success?
    ensures Filling(s.account, added, AdvanceItem(cfg, s, i).value.account)
  {
    added := AdvanceReplays(s.account, |s.account.orders|, i.bar, cfg.slip);
  }

  lemma {:induction false} ItemsReplay(cfg: PConfig, s: PState, items: seq<Item>) returns (added: seq<FillEvent>)
    requires Accounted(s.account) && AdvanceItems(cfg, s, items).Success?
    ensures Filling(s.account, added, AdvanceItems(cfg, s, items).value.account)
  {
    added := [];
    if |items| == 0 {
      NothingFills(s.account);
    } else {
      var past := items[..|items| - 1];
      var t := AdvanceItems(cfg, s, past).value;
      AdvanceItemsExtend(cfg, s, past);
      var before := ItemsReplay(cfg, s, past);
      var more := ItemReplays(cfg, t, items[|items| - 1]);
      FillingJoins(s.account, before, t.account, more, AdvanceItem(cfg, t, items[|items| - 1]).value.account);
      added := before + more;
    }
  }

  function RollOp(e: RollEvent): Op {
    RollOver(e.front, e.back, e.frontSettle, e.backSettle)
  }

  /** The rolls of a date whose front is held when their turn comes. */
  function HeldRolls(s: PState, events: seq<RollEvent>): seq<Op>
    requires RollAll(s, events).Success?
  {
    if |events| == 0 then []
    else
      var past, e := events[..|events| - 1], events[|events| - 1];
      HeldRolls(s, past) + if Quantity(RollAll(s, past).value.account.book, e.front) == 0 then [] else [RollOp(e)]
  }

  lemma RollOneReplays(s: PState, e: RollEvent)
    requires RollOne(s, e).Success?
    ensures Run(s.account.book, if Quantity(s.account.book, e.front) == 0 then [] else [RollOp(e)]) == Some(RollOne(s, e).value.account.book)
  {
    if Quantity(s.account.book, e.front) != 0 {
      RunOne(s.account.book, RollOp(e));
    }
  }

  lemma {:induction false} RollsReplay(s: PState, events: seq<RollEvent>)
    requires RollAll(s, events).Success?
    ensures Run(s.account.book, HeldRolls(s, events)) == Some(RollAll(s, events).value.account.book)
  {
    if |events| > 0 {
      var past, e := events[..|events| - 1], events[|events| - 1];
      var t := RollAll(s, past).value;
      RollsReplay(s, past);
      RollOneReplays(t, e);
      RunConcat(s.account.book, HeldRolls(s, past), if Quantity(t.account.book, e.front) == 0 then [] else [RollOp(e)]);
    }
  }

  /** The ledger operations of one date: its new fills, then its rolls. */
  ghost function DateOps(cfg: PConfig, s: PState, day: int, items: seq<Item>): seq<Op>
    requires Accounted(s.account) && AdvanceItems(cfg, s, items).Success?
    requires RollAll(AdvanceItems(cfg, s, items).value, RollsOn(cfg, day)).Success?
  {
    AdvanceItemsExtend(cfg, s, items);
    var t := AdvanceItems(cfg, s, items).value;
    FillOps(t.account.orders, t.account.fills[|s.account.fills|..]) + HeldRolls(t, RollsOn(cfg, day))
  }

  lemma DateReplays(cfg: PConfig, s: PState, day: int, items: seq<Item>)
    requires Accounted(s.account) && DateStep(cfg, s, day, items).Success?
    ensures Run(s.account.book, DateOps(cfg, s, day, items)) == Some(DateStep(cfg, s, day, items).value.account.book)
  {
    var added := ItemsReplay(cfg, s, items);
    var t := AdvanceItems(cfg, s, items).value;
    assert t.account.fills[|s.account.fills|..] == added;
    RollsReplay(t, RollsOn(cfg, day));
    RunConcat(s.account.book, FillOps(t.account.orders, added), HeldRolls(t, RollsOn(cfg, day)));
    DecideKeepsBook(cfg, s, day, items);
  }

  /** Marking and placing leave the book alone. */
  lemma DecideKeepsBook(cfg: PConfig, s: PState, day: int, items: seq<Item>)
    requires Accounted(s.account) && DateStep(cfg, s, day, items).Success?
    ensures DateStep(cfg, s, day, items).value.account.book == RollAll(AdvanceItems(cfg, s, items).value, RollsOn(cfg, day)).value.account.book
  {
    var rolled := RollAll(AdvanceItems(cfg, s, items).value, RollsOn(cfg, day)).value;
    var marked := MarkDate(cfg, rolled).value;
    DecideOnlyPlaces(cfg, marked, marked.curve[|marked.curve| - 1]);
  }

  // ---------------------------------------------------------------------------------------------
  // Whole runs
  // ---------------------------------------------------------------------------------------------

  lemma NewAccounted()
    ensures Accounted(NEW_ACCOUNT)
  {
  }

  /** Every fill and roll of a portfolio run, date by date. */
  ghost function DatesOps(cfg: PConfig, streams: nat, items: seq<Item>): seq<Op>
    requires RunDates(cfg, NEW_ACCOUNT, streams, items).Success?
    decreases |items|
  {
    if |items| == 0 then []
    else
      var p := GroupStart(items, |items| - 1);
      NewAccounted();
      DatesAccounted(cfg, NEW_ACCOUNT, streams, items[..p]);
      DatesOps(cfg, streams, items[..p])
      + DateOps(cfg, RunDates(cfg, NEW_ACCOUNT, streams, items[..p]).value, DayOf(items[|items| - 1]), items[p..])
  }

  /** Replaying a portfolio run's fills and rolls on an empty book gives the run's book. */
  lemma {:induction false} DatesReplay(cfg: PConfig, streams: nat, items: seq<Item>)
    requires RunDates(cfg, NEW_ACCOUNT, streams, items).Success?
    ensures Run(EMPTY_BOOK, DatesOps(cfg, streams, items)) == Some(RunDates(cfg, NEW_ACCOUNT, streams, items).value.account.book)
    decreases |items|
  {
    if |items| > 0 {
      var p := GroupStart(items, |items| - 1);
      NewAccounted();
      DatesAccounted(cfg, NEW_ACCOUNT, streams, items[..p]);
      DatesReplay(cfg, streams, items[..p]);
      var s := RunDates(cfg, NEW_ACCOUNT, streams, items[..p]).value;
      DateReplays(cfg, s, DayOf(items[|items| - 1]), items[p..]);
      RunConcat(EMPTY_BOOK, DatesOps(cfg, streams, items[..p]), DateOps(cfg, s, DayOf(items[|items| - 1]), items[p..]));
    }
  }

  /** After any portfolio run the cash identity holds for exactly its fills and rolls, and booked plus open
    * trade profit is the realized total. */
  lemma DatesConserve(cfg: PConfig, streams: nat, items: seq<Item>)
    requires RunDates(cfg, NEW_ACCOUNT, streams, items).Success?
    ensures Conserves(RunDates(cfg, NEW_ACCOUNT, streams, items).value.account.book, History(EMPTY_BOOK, DatesOps(cfg, streams, items)))
  {
    DatesReplay(cfg, streams, items);
    CashIdentity(DatesOps(cfg, streams, items));
  }

  /** When no roll of the run ends or turns the bet of the contract it enters, its trade ledger lists whole
    * flat-to-flat bets at their net cash. */
  lemma DatesTradesAreWholeBets(cfg: PConfig, streams: nat, items: seq<Item>)
    requires RunDates(cfg, NEW_ACCOUNT, streams, items).Success? && BetTape.AllClean(EMPTY_BOOK, DatesOps(cfg, streams, items))
    ensures BetTape.Tracks(RunDates(cfg, NEW_ACCOUNT, streams, items).value.account.book, BetTape.TapeOf(DatesOps(cfg, streams, items)))
  {
    DatesReplay(cfg, streams, items);
    BetTape.BookedTradesAreWholeBets(DatesOps(cfg, streams, items));
  }
}
