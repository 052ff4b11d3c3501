/** What a portfolio run has seen: each stream's bars, each contract's latest close, and equity marked there. */
module PortfolioHistory {
  import opened Wrappers
  import opened Contracts
  import opened Broker
  import opened Valuation
  import opened Backtest
  import opened BacktestAttribution
  import opened Portfolio

  /** The bars of one stream, in order. */
  function StreamBars(items: seq<Item>, stream: nat): seq<Bar> {
    if |items| == 0 then []
    else
      var last := items[|items| - 1];
      StreamBars(items[..|items| - 1], stream) + if last.stream == stream then [last.bar] else []
  }

  /** The close of the latest bar of a contract, over all streams. */
  function LatestOf(items: seq<Item>, c: Contract): Option<real> {
    if |items| == 0 then None
    else if items[|items| - 1].bar.contract == c then Some(items[|items| - 1].bar.close)
    else LatestOf(items[..|items| - 1], c)
  }

  lemma {:induction false} StreamBarsAppend(x: seq<Item>, y: seq<Item>, stream: nat)
    ensures StreamBars(x + y, stream) == StreamBars(x, stream) + StreamBars(y, stream)
  {
    if |y| == 0 {
      assert x + y == x;
    } else {
      var z, last := y[..|y| - 1], y[|y| - 1];
      assert (x + y)[..|x + y| - 1] == x + z;
      StreamBarsAppend(x, z, stream);
    }
  }

  lemma {:induction false} LatestOfAppend(x: seq<Item>, y: seq<Item>, c: Contract)
    ensures LatestOf(x + y, c) == if LatestOf(y, c).Some? then LatestOf(y, c) else LatestOf(x, c)
  {
    if |y| == 0 {
      assert x + y == x;
    } else {
      assert (x + y)[..|x + y| - 1] == x + y[..|y| - 1];
      LatestOfAppend(x, y[..|y| - 1], c);
    }
  }

  /** The state has added exactly these bars to what it had seen. */
  ghost predicate Added(s: PState, n: PState, items: seq<Item>) {
    && |n.history| == |s.history| && (forall k | 0 <= k < |s.history| :: n.history[k] == s.history[k] + StreamBars(items, k))
    && forall c :: MarkOf(n.marks, c) == if LatestOf(items, c).Some? then LatestOf(items, c) else MarkOf(s.marks, c)
  }

  lemma HistoryGrows(was: seq<Bar>, h: Histories, i: Item, past: seq<Item>, items: seq<Item>, k: nat)
    requires |items| > 0 && past == items[..|items| - 1] && i == items[|items| - 1] && k < |h| && h[k] == was + StreamBars(past, k)
    ensures AddBar(h, i)[k] == was + StreamBars(items, k)
  {
    assert was + StreamBars(past, k) + [i.bar] == was + (StreamBars(past, k) + [i.bar]);
    assert StreamBars(past, k) + [] == StreamBars(past, k);
  }

  lemma ItemAdds(cfg: PConfig, s: PState, t: PState, items: seq<Item>)
    requires |items| > 0 && Shaped(t.account) && Added(s, t, items[..|items| - 1]) && AdvanceItem(cfg, t, items[|items| - 1]).Success?
    ensures Added(s, AdvanceItem(cfg, t, items[|items| - 1]).value, items)
  {
    var past, i := items[..|items| - 1], items[|items| - 1];
    var n := AdvanceItem(cfg, t, i).value;
    forall k | 0 <= k < |s.history| ensures n.history[k] == s.history[k] + StreamBars(items, k) {
      HistoryGrows(s.history[k], t.history, i, past, items, k);
    }
    forall c ensures MarkOf(n.marks, c) == if LatestOf(items, c).Some? then LatestOf(items, c) else MarkOf(s.marks, c) {
      assert MarkOf(t.marks, c) == if LatestOf(past, c).Some? then LatestOf(past, c) else MarkOf(s.marks, c);
    }
  }

  lemma {:induction false} ItemsAdd(cfg: PConfig, s: PState, items: seq<Item>)
    requires Shaped(s.account) && AdvanceItems(cfg, s, items).Success?
    ensures Added(s, AdvanceItems(cfg, s, items).value, items)
  {
    if |items| > 0 {
      ItemsAdd(cfg, s, items[..|items| - 1]);
      ItemAdds(cfg, s, AdvanceItems(cfg, s, items[..|items| - 1]).value, items);
    }
  }

  lemma DateAdds(cfg: PConfig, s: PState, day: int, items: seq<Item>)
    requires Shaped(s.account) && DateStep(cfg, s, day, items).Success?
    ensures var n := DateStep(cfg, s, day, items).value;
            && Added(s, n, items) && |n.curve| > 0 && n.curve[|n.curve| - 1] == Equity(cfg.start, n.account.book, n.marks)
  {
    ItemsAdd(cfg, s, items);
    var t := AdvanceItems(cfg, s, items).value;
    RollAllKeepsOrders(t, RollsOn(cfg, day));
    var marked := MarkDate(cfg, RollAll(t, RollsOn(cfg, day)).value).value;
    DecideOnlyPlaces(cfg, marked, marked.curve[|marked.curve| - 1]);
  }

  /** The run has seen exactly these bars. */
  ghost predicate Seen(n: PState, streams: nat, items: seq<Item>) {
    && |n.history| == streams && (forall k: nat | k < streams :: n.history[k] == StreamBars(items, k))
    && forall c :: MarkOf(n.marks, c) == LatestOf(items, c)
  }

  lemma AddedIsSeen(s: PState, n: PState, streams: nat, before: seq<Item>, items: seq<Item>)
    requires Seen(s, streams, before) && Added(s, n, items)
    ensures Seen(n, streams, before + items)
  {
    forall k: nat | k < streams ensures n.history[k] == StreamBars(before + items, k) {
      StreamBarsAppend(before, items, k);
    }
    forall c ensures MarkOf(n.marks, c) == LatestOf(before + items, c) {
      LatestOfAppend(before, items, c);
    }
  }

  /** The run has seen these bars, and ends on the account's value. */
  ghost predicate SeenAndMarked(cfg: PConfig, n: PState, streams: nat, items: seq<Item>) {
    && Seen(n, streams, items)
    && (|items| > 0 ==> |n.curve| > 0 && n.curve[|n.curve| - 1] == Equity(cfg.start, n.account.book, n.marks))
  }

  lemma LastDateSeen(cfg: PConfig, s: PState, n: PState, day: int, streams: nat, before: seq<Item>, group: seq<Item>)
    requires Shaped(s.account) && Seen(s, streams, before) && DateStep(cfg, s, day, group) == Success(n)
    ensures SeenAndMarked(cfg, n, streams, before + group)
  {
    DateAdds(cfg, s, day, group);
    AddedIsSeen(s, n, streams, before, group);
  }

  lemma GroupSeen(cfg: PConfig, a: Account, streams: nat, items: seq<Item>, p: nat)
    requires Shaped(a) && |items| > 0 && p == GroupStart(items, |items| - 1) && RunDates(cfg, a, streams, items).Success?
    requires RunDates(cfg, a, streams, items[..p]).Success? && Seen(RunDates(cfg, a, streams, items[..p]).value, streams, items[..p])
    ensures SeenAndMarked(cfg, RunDates(cfg, a, streams, items).value, streams, items)
  {
    RunLastGroup(cfg, a, streams, items, p);
    LastDateSeen(cfg, RunDates(cfg, a, streams, items[..p]).value, RunDates(cfg, a, streams, items).value, DayOf(items[|items| - 1]), streams,
                 items[..p], items[p..]);
    assert items[..p] + items[p..] == items;
  }

  lemma NothingSeen(a: Account, streams: nat)
    ensures Seen(Start(a, streams), streams, [])
  {
  }

  /** At the end of every run the strategy has been shown exactly each stream's bars, every contract is marked at the
    * close of its latest bar, and the last equity point is the account's value at those marks. */
  lemma {:induction false} DatesSeen(cfg: PConfig, a: Account, streams: nat, items: seq<Item>)
    requires Shaped(a) && RunDates(cfg, a, streams, items).Success?
    ensures SeenAndMarked(cfg, RunDates(cfg, a, streams, items).value, streams, items)
    decreases |items|
  {
    if |items| == 0 {
      NothingSeen(a, streams);
    } else {
      var p := GroupStart(items, |items| - 1);
      DatesSeen(cfg, a, streams, items[..p]);
      GroupSeen(cfg, a, streams, items, p);
    }
  }

  // ---------------------------------------------------------------------------------------------
  // The counters
  // ---------------------------------------------------------------------------------------------

  /** From `s` to `n` the counters moved with the account. */
  ghost predicate Counted(s: PState, n: PState) {
    && n.orders - s.orders == |n.account.orders| - |s.account.orders| && n.fills - s.fills == |n.account.fills| - |s.account.fills|
  }

  lemma {:induction false} ItemsCount(cfg: PConfig, s: PState, items: seq<Item>)
    requires Shaped(s.account) && AdvanceItems(cfg, s, items).Success?
    ensures Counted(s, AdvanceItems(cfg, s, items).value)
  {
    if |items| > 0 {
      ItemsCount(cfg, s, items[..|items| - 1]);
    }
  }

  lemma RollOneCounts(s: PState, e: RollEvent)
    requires RollOne(s, e).Success?
    ensures Counted(s, RollOne(s, e).value)
  {
  }

  lemma {:induction false} RollAllCounts(s: PState, events: seq<RollEvent>)
    requires RollAll(s, events).Success?
    ensures Counted(s, RollAll(s, events).value)
  {
    if |events| > 0 {
      RollAllCounts(s, events[..|events| - 1]);
      RollOneCounts(RollAll(s, events[..|events| - 1]).value, events[|events| - 1]);
    }
  }

  lemma LegCounts(cfg: PConfig, s: PState, equity: real, weight: nat -> real, leg: Leg)
    requires PlaceLeg(cfg, s, equity, weight, leg).Success?
    ensures Counted(s, PlaceLeg(cfg, s, equity, weight, leg).value)
  {
  }

  lemma {:induction false} LegsCount(cfg: PConfig, s: PState, equity: real, weight: nat -> real, legs: seq<Leg>)
    requires PlaceLegs(cfg, s, equity, weight, legs).Success?
    ensures Counted(s, PlaceLegs(cfg, s, equity, weight, legs).value)
  {
    if |legs| > 0 {
      LegsCount(cfg, s, equity, weight, legs[..|legs| - 1]);
      LegCounts(cfg, PlaceLegs(cfg, s, equity, weight, legs[..|legs| - 1]).value, equity, weight, legs[|legs| - 1]);
    }
  }

  lemma DecideCounts(cfg: PConfig, s: PState, equity: real)
    requires DecideDate(cfg, s, equity).Success?
    ensures Counted(s, DecideDate(cfg, s, equity).value)
  {
    var legs := cfg.strategy(s.history);
    if equity > 0.0 && |legs| > 0 {
      LegsCount(cfg, s.(signals := s.signals + |legs|), equity, cfg.weights(s.history, legs).value, legs);
    }
  }

  lemma DateCounts(cfg: PConfig, s: PState, day: int, items: seq<Item>)
    requires Shaped(s.account) && DateStep(cfg, s, day, items).Success?
    ensures Counted(s, DateStep(cfg, s, day, items).value)
  {
    var t := AdvanceItems(cfg, s, items).value;
    ItemsCount(cfg, s, items);
    RollAllCounts(t, RollsOn(cfg, day));
    var marked := MarkDate(cfg, RollAll(t, RollsOn(cfg, day)).value).value;
    DecideCounts(cfg, marked, marked.curve[|marked.curve| - 1]);
  }

  /** A run's order and fill counters are the orders placed and the fills made since it began. */
  lemma {:induction false} DatesCounted(cfg: PConfig, a: Account, streams: nat, items: seq<Item>)
    requires Shaped(a) && RunDates(cfg, a, streams, items).Success?
    ensures Counted(Start(a, streams), RunDates(cfg, a, streams, items).value)
    decreases |items|
  {
    if |items| > 0 {
      var p := GroupStart(items, |items| - 1);
      DatesCounted(cfg, a, streams, items[..p]);
      RunLastGroup(cfg, a, streams, items, p);
      DateCounts(cfg, RunDates(cfg, a, streams, items[..p]).value, DayOf(items[|items| - 1]), items[p..]);
    }
  }
}
