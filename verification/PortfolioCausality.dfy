/** The portfolio loop never looks ahead: causality by date. */
module PortfolioCausality {
  import opened Wrappers
  import opened Sorting
  import opened Broker
  import opened Valuation
  import opened Backtest
  import opened Portfolio

  // ---------------------------------------------------------------------------------------------
  // What one date keeps
  // ---------------------------------------------------------------------------------------------

  /** Equity points, orders and fills are only appended, and the new fills are of earlier orders. */
  ghost predicate Extends(s: PState, n: PState) {
    && Accounted(n.account) && s.account.orders <= n.account.orders && s.account.fills <= n.account.fills && s.curve <= n.curve
  }

  lemma ExtendsTransitive(a: PState, b: PState, c: PState)
    requires Extends(a, b) && Extends(b, c)
    ensures Extends(a, c)
  {
  }

  lemma {:induction false} AdvanceItemsExtend(cfg: PConfig, s: PState, items: seq<Item>)
    requires Accounted(s.account) && AdvanceItems(cfg, s, items).Success?
    ensures var t := AdvanceItems(cfg, s, items).value;
            Extends(s, t) && t.account.orders == s.account.orders && t.curve == s.curve
  {
    if |items| > 0 {
      AdvanceItemsExtend(cfg, s, items[..|items| - 1]);
      var t := AdvanceItems(cfg, s, items[..|items| - 1]).value;
      AdvanceAccounted(t.account, |t.account.orders|, items[|items| - 1].bar, cfg.slip);
    }
  }

  lemma PlacedAccounted(s: PState, t: PState)
    requires Accounted(s.account) && OnlyPlaced(s, t) && UnfilledFrom(t.account, |s.account.orders|)
    ensures Accounted(t.account)
  {
    forall id: nat | id < |t.account.orders| ensures FilledBy(t.account.fills, id) == t.account.filled[id] && 0 <= t.account.filled[id] <= t.account.orders[id].quantity {
      if id >= |s.account.orders| {
        FilledByAbsent(t.account.fills, id);
      } else {
        assert t.account.orders[id] == s.account.orders[id] && t.account.filled[id] == s.account.filled[id];
      }
    }
  }

  ghost predicate UnfilledFrom(a: Account, first: nat) {
    forall id | first <= id < |a.filled| :: a.filled[id] == 0
  }

  lemma PlaceLegUnfilled(cfg: PConfig, s: PState, equity: real, weight: nat -> real, leg: Leg, first: nat)
    requires Shaped(s.account) && UnfilledFrom(s.account, first) && PlaceLeg(cfg, s, equity, weight, leg).Success?
    ensures UnfilledFrom(PlaceLeg(cfg, s, equity, weight, leg).value.account, first)
  {
  }

  lemma {:induction false} PlaceLegsUnfilled(cfg: PConfig, s: PState, equity: real, weight: nat -> real, legs: seq<Leg>)
    requires Shaped(s.account) && PlaceLegs(cfg, s, equity, weight, legs).Success?
    ensures UnfilledFrom(PlaceLegs(cfg, s, equity, weight, legs).value.account, |s.account.orders|)
    ensures Shaped(PlaceLegs(cfg, s, equity, weight, legs).value.account)
  {
    if |legs| > 0 {
      var t := PlaceLegs(cfg, s, equity, weight, legs[..|legs| - 1]).value;
      PlaceLegsUnfilled(cfg, s, equity, weight, legs[..|legs| - 1]);
      PlaceLegUnfilled(cfg, t, equity, weight, legs[|legs| - 1], |s.account.orders|);
    }
  }

  lemma DecideExtends(cfg: PConfig, s: PState, equity: real)
    requires Accounted(s.account) && DecideDate(cfg, s, equity).Success?
    ensures Extends(s, DecideDate(cfg, s, equity).value)
    ensures OnlyPlaced(s, DecideDate(cfg, s, equity).value)
  {
    DecideOnlyPlaces(cfg, s, equity);
    var legs := cfg.strategy(s.history);
    if equity > 0.0 && |legs| > 0 {
      PlaceLegsUnfilled(cfg, s.(signals := s.signals + |legs|), equity, cfg.weights(s.history, legs).value, legs);
    }
    PlacedAccounted(s, DecideDate(cfg, s, equity).value);
  }

  lemma AdvanceAndRollExtend(cfg: PConfig, s: PState, day: int, items: seq<Item>) returns (rolled: PState)
    requires Accounted(s.account) && DateStep(cfg, s, day, items).Success?
    ensures AdvanceItems(cfg, s, items).Success? && RollAll(AdvanceItems(cfg, s, items).value, RollsOn(cfg, day)) == Success(rolled)
    ensures Extends(s, rolled) && rolled.account.orders == s.account.orders && rolled.curve == s.curve
  {
    AdvanceItemsExtend(cfg, s, items);
    var filled := AdvanceItems(cfg, s, items).value;
    rolled := RollAll(filled, RollsOn(cfg, day)).value;
    RollAllKeepsOrders(filled, RollsOn(cfg, day));
  }

  /** One date adds one equity point, appends orders and fills, and fills only orders of earlier dates. */
  lemma DateStepExtends(cfg: PConfig, s: PState, day: int, items: seq<Item>)
    requires Accounted(s.account) && DateStep(cfg, s, day, items).Success?
    ensures var n := DateStep(cfg, s, day, items).value;
            && Extends(s, n) && |n.curve| == |s.curve| + 1
            && forall k | 0 <= k < |n.account.fills| :: n.account.fills[k].id < |s.account.orders|
  {
    var rolled := AdvanceAndRollExtend(cfg, s, day, items);
    var marked := MarkDate(cfg, rolled).value;
    DecideExtends(cfg, marked, marked.curve[|marked.curve| - 1]);
    ExtendsTransitive(s, marked, DateStep(cfg, s, day, items).value);
  }

  lemma {:induction false} DatesAccounted(cfg: PConfig, a: Account, streams: nat, items: seq<Item>)
    requires Accounted(a) && RunDates(cfg, a, streams, items).Success?
    ensures Accounted(RunDates(cfg, a, streams, items).value.account)
    decreases |items|
  {
    if |items| > 0 {
      var p := GroupStart(items, |items| - 1);
      DatesAccounted(cfg, a, streams, items[..p]);
      DateStepExtends(cfg, RunDates(cfg, a, streams, items[..p]).value, DayOf(items[|items| - 1]), items[p..]);
    }
  }

  // ---------------------------------------------------------------------------------------------
  // Causality by date
  // ---------------------------------------------------------------------------------------------

  lemma {:induction false} GroupStartAfter(items: seq<Item>, i: nat, k: nat)
    requires k <= i < |items| && DayOf(items[i]) == DayOf(items[|items| - 1])
    requires forall x | 0 <= x < k :: DayOf(items[x]) != DayOf(items[|items| - 1])
    ensures k <= GroupStart(items, i)
  {
    if i > k && DayOf(items[i - 1]) == DayOf(items[|items| - 1]) {
      GroupStartAfter(items, i - 1, k);
    }
  }

  /** Stopping after the first `k` items, cut where the day changes, gives the first part of the run. */
  lemma {:induction false} CutCausality(cfg: PConfig, a: Account, streams: nat, items: seq<Item>, k: nat, d: int)
    requires Accounted(a) && k <= |items| && RunDates(cfg, a, streams, items).Success?
    requires (forall i | 0 <= i < k :: DayOf(items[i]) <= d) && forall i | k <= i < |items| :: DayOf(items[i]) > d
    ensures RunDates(cfg, a, streams, items[..k]).Success?
    ensures Extends(RunDates(cfg, a, streams, items[..k]).value, RunDates(cfg, a, streams, items).value)
    decreases |items|
  {
    DatesAccounted(cfg, a, streams, items);
    if k == |items| {
      assert items[..k] == items;
    } else {
      var p := LastGroupAfter(items, k, d);
      var before := items[..p];
      LastGroupExtends(cfg, a, streams, items, p);
      CutCausality(cfg, a, streams, before, k, d);
      ExtendsTransitive(RunDates(cfg, a, streams, items[..k]).value, RunDates(cfg, a, streams, before).value, RunDates(cfg, a, streams, items).value);
    }
  }

  /** The last date's group lies wholly past the cut. */
  lemma LastGroupAfter(items: seq<Item>, k: nat, d: int) returns (p: nat)
    requires k < |items| && (forall i | 0 <= i < k :: DayOf(items[i]) <= d) && forall i | k <= i < |items| :: DayOf(items[i]) > d
    ensures k <= p < |items| && p == GroupStart(items, |items| - 1) && items[..p][..k] == items[..k]
    ensures (forall i | 0 <= i < k :: DayOf(items[..p][i]) <= d) && forall i | k <= i < p :: DayOf(items[..p][i]) > d
  {
    p := GroupStart(items, |items| - 1);
    GroupStartAfter(items, |items| - 1, k);
    PrefixDays(items, p, k, d);
  }

  lemma PrefixDays(items: seq<Item>, p: nat, k: nat, d: int)
    requires k <= p <= |items| && (forall i | 0 <= i < k :: DayOf(items[i]) <= d) && forall i | k <= i < |items| :: DayOf(items[i]) > d
    ensures items[..p][..k] == items[..k]
    ensures (forall i | 0 <= i < k :: DayOf(items[..p][i]) <= d) && forall i | k <= i < p :: DayOf(items[..p][i]) > d
  {
  }

  lemma LastGroupExtends(cfg: PConfig, a: Account, streams: nat, items: seq<Item>, p: nat)
    requires Accounted(a) && |items| > 0 && RunDates(cfg, a, streams, items).Success? && p == GroupStart(items, |items| - 1)
    ensures RunDates(cfg, a, streams, items[..p]).Success?
    ensures Extends(RunDates(cfg, a, streams, items[..p]).value, RunDates(cfg, a, streams, items).value)
  {
    DatesAccounted(cfg, a, streams, items[..p]);
    DateStepExtends(cfg, RunDates(cfg, a, streams, items[..p]).value, DayOf(items[|items| - 1]), items[p..]);
  }

  function BarDay(): Bar -> int {
    (b: Bar) => Day(b.ts)
  }

  lemma ItemsOneMore(stream: nat, bars: seq<Bar>, x: Bar)
    ensures Items(stream, bars + [x]) == Items(stream, bars) + [Item(stream, x)]
  {
    assert (bars + [x])[..|bars|] == bars;
  }

  /** Every stream cut after date `d`. */
  function UpTo(h: Histories, d: int): (r: Histories)
    ensures |r| == |h|
  {
    if |h| == 0 then [] else UpTo(h[..|h| - 1], d) + [Below(BarDay(), h[|h| - 1], d)]
  }

  lemma {:induction false} ItemsBelow(stream: nat, bars: seq<Bar>, d: int)
    ensures Items(stream, Below(BarDay(), bars, d)) == Below(DayOf, Items(stream, bars), d)
  {
    if |bars| > 0 {
      ItemsBelow(stream, bars[..|bars| - 1], d);
      ItemsBelowStep(stream, bars[..|bars| - 1], bars[|bars| - 1], d);
      assert bars == bars[..|bars| - 1] + [bars[|bars| - 1]];
    }
  }

  lemma ItemsBelowStep(stream: nat, bars: seq<Bar>, x: Bar, d: int)
    requires Items(stream, Below(BarDay(), bars, d)) == Below(DayOf, Items(stream, bars), d)
    ensures Items(stream, Below(BarDay(), bars + [x], d)) == Below(DayOf, Items(stream, bars + [x]), d)
  {
    BelowOneMore(BarDay(), bars, x, d);
    ItemsOneMore(stream, Below(BarDay(), bars, d), x);
    ItemsOneMore(stream, bars, x);
    BelowOneMore(DayOf, Items(stream, bars), Item(stream, x), d);
  }

  lemma {:induction false} BelowAppend<T>(key: T -> int, a: seq<T>, b: seq<T>, d: int)
    ensures Below(key, a + b, d) == Below(key, a, d) + Below(key, b, d)
  {
    if |b| == 0 {
      assert a + b == a;
    } else {
      var t, x := b[..|b| - 1], b[|b| - 1];
      BelowAppend(key, a, t, d);
      assert a + b == a + t + [x];
      BelowOneMore(key, a + t, x, d);
    }
  }

  lemma {:induction false} FlattenUpTo(h: Histories, d: int)
    ensures Flatten(UpTo(h, d)) == Below(DayOf, Flatten(h), d)
  {
    if |h| > 0 {
      var n := |h| - 1;
      FlattenUpTo(h[..n], d);
      ItemsBelow(n, h[n], d);
      BelowAppend(DayOf, Flatten(h[..n]), Items(n, h[n]), d);
      assert UpTo(h, d)[..n] == UpTo(h[..n], d);
    }
  }

  /** The days that have a bar. */
  function DaysSeen(items: seq<Item>): set<int> {
    if |items| == 0 then {} else DaysSeen(items[..|items| - 1]) + {DayOf(items[|items| - 1])}
  }

  lemma {:induction false} DaysSeenAre(items: seq<Item>, d: int)
    ensures d in DaysSeen(items) <==> exists i :: 0 <= i < |items| && DayOf(items[i]) == d
  {
    if |items| > 0 {
      var t := items[..|items| - 1];
      DaysSeenAre(t, d);
      if exists i :: 0 <= i < |t| && DayOf(t[i]) == d {
        var i :| 0 <= i < |t| && DayOf(t[i]) == d;
        assert DayOf(items[i]) == d;
      }
    }
  }

  /** Members of the last group share its day. */
  lemma {:induction false} GroupDay(items: seq<Item>, i: nat, x: nat)
    requires i < |items| && DayOf(items[i]) == DayOf(items[|items| - 1]) && GroupStart(items, i) <= x <= i
    ensures DayOf(items[x]) == DayOf(items[|items| - 1])
  {
    if x < i {
      GroupDay(items, i - 1, x);
    }
  }

  lemma {:induction false} GroupEdge(items: seq<Item>, i: nat)
    requires i < |items| && DayOf(items[i]) == DayOf(items[|items| - 1])
    ensures var p := GroupStart(items, i); p > 0 ==> DayOf(items[p - 1]) != DayOf(items[|items| - 1])
  {
    if i > 0 && DayOf(items[i - 1]) == DayOf(items[|items| - 1]) {
      GroupEdge(items, i - 1);
    }
  }

  /** On sorted items the last group adds exactly one new day. */
  lemma GroupAddsDay(items: seq<Item>)
    requires |items| > 0 && Ascending(DayOf, items)
    ensures var p, last := GroupStart(items, |items| - 1), DayOf(items[|items| - 1]);
            last !in DaysSeen(items[..p]) && DaysSeen(items) == DaysSeen(items[..p]) + {last}
  {
    var p, last := GroupStart(items, |items| - 1), DayOf(items[|items| - 1]);
    GroupEdge(items, |items| - 1);
    DaysSeenAre(items[..p], last);
    assert forall i | 0 <= i < p :: DayOf(items[i]) <= DayOf(items[p - 1]) <= last;
    forall d ensures d in DaysSeen(items) <==> d in DaysSeen(items[..p]) + {last} {
      SeenSplit(items, p, d);
    }
  }

  lemma SeenSplit(items: seq<Item>, p: nat, d: int)
    requires |items| > 0 && p == GroupStart(items, |items| - 1)
    ensures d in DaysSeen(items) <==> d in DaysSeen(items[..p]) + {DayOf(items[|items| - 1])}
  {
    DaysSeenAre(items, d);
    DaysSeenAre(items[..p], d);
    if d in DaysSeen(items) && d != DayOf(items[|items| - 1]) {
      var i :| 0 <= i < |items| && DayOf(items[i]) == d;
      if i >= p {
        GroupDay(items, |items| - 1, i);
      }
      assert DayOf(items[..p][i]) == d;
    }
    if d in DaysSeen(items[..p]) {
      var i :| 0 <= i < p && DayOf(items[..p][i]) == d;
      assert DayOf(items[i]) == d;
    }
  }

  /** One equity point per day. */
  lemma {:induction false} OnePointPerDay(cfg: PConfig, a: Account, streams: nat, items: seq<Item>)
    requires Accounted(a) && Ascending(DayOf, items) && RunDates(cfg, a, streams, items).Success?
    ensures |RunDates(cfg, a, streams, items).value.curve| == |DaysSeen(items)|
    decreases |items|
  {
    if |items| > 0 {
      var p := GroupStart(items, |items| - 1);
      DatesAccounted(cfg, a, streams, items[..p]);
      OnePointPerDay(cfg, a, streams, items[..p]);
      DateStepExtends(cfg, RunDates(cfg, a, streams, items[..p]).value, DayOf(items[|items| - 1]), items[p..]);
      GroupAddsDay(items);
    }
  }

  lemma SortedDays(h: Histories)
    ensures DaysSeen(Indexed(h)) == DaysSeen(Flatten(h)) && Ascending(DayOf, Indexed(h))
  {
    var raw, sorted := Flatten(h), Indexed(h);
    SortAscending(DayOf, raw);
    forall d ensures d in DaysSeen(sorted) <==> d in DaysSeen(raw) {
      DaysSeenAre(sorted, d);
      DaysSeenAre(raw, d);
      if d in DaysSeen(sorted) {
        var i :| 0 <= i < |sorted| && DayOf(sorted[i]) == d;
        SortMembers(DayOf, raw, sorted[i]);
      }
      if d in DaysSeen(raw) {
        var i :| 0 <= i < |raw| && DayOf(raw[i]) == d;
        SortMembers(DayOf, raw, raw[i]);
      }
    }
  }

  /** Running on the data up to a date gives exactly the equity points, placements and fills the full
    * run had by then, one point for each day with a bar: nothing dated later can change them. */
  lemma DateCausality(cfg: PConfig, a: Account, h: Histories, d: int)
    requires Accounted(a) && RunDates(cfg, a, |h|, Indexed(h)).Success?
    ensures RunDates(cfg, a, |h|, Indexed(UpTo(h, d))).Success?
    ensures var early, late := RunDates(cfg, a, |h|, Indexed(UpTo(h, d))).value, RunDates(cfg, a, |h|, Indexed(h)).value;
            early.curve <= late.curve && early.account.orders <= late.account.orders && early.account.fills <= late.account.fills
    ensures |RunDates(cfg, a, |h|, Indexed(UpTo(h, d))).value.curve| == |DaysSeen(Flatten(UpTo(h, d)))|
    ensures |RunDates(cfg, a, |h|, Indexed(h)).value.curve| == |DaysSeen(Flatten(h))|
  {
    CutRuns(cfg, a, h, d);
    SortedDays(h);
    SortedDays(UpTo(h, d));
    OnePointPerDay(cfg, a, |h|, Indexed(h));
    OnePointPerDay(cfg, a, |h|, Indexed(UpTo(h, d)));
  }

  lemma CutRuns(cfg: PConfig, a: Account, h: Histories, d: int)
    requires Accounted(a) && RunDates(cfg, a, |h|, Indexed(h)).Success?
    ensures RunDates(cfg, a, |h|, Indexed(UpTo(h, d))).Success?
    ensures Extends(RunDates(cfg, a, |h|, Indexed(UpTo(h, d))).value, RunDates(cfg, a, |h|, Indexed(h)).value)
  {
    var items := Indexed(h);
    FlattenUpTo(h, d);
    SortBelow(DayOf, Flatten(h), d);
    SortAscending(DayOf, Flatten(h));
    var k := BelowIsPrefix(DayOf, items, d);
    CutCausality(cfg, a, |h|, items, k, d);
  }

  /** No order fills on the date that placed it: an order placed on the last date is unfilled, and every
    * fill is of an order placed on an earlier date. */
  lemma NoSameDateFill(cfg: PConfig, a: Account, streams: nat, items: seq<Item>)
    requires Accounted(a) && |items| > 0 && RunDates(cfg, a, streams, items).Success?
    ensures var p := GroupStart(items, |items| - 1);
            && RunDates(cfg, a, streams, items[..p]).Success?
            && var early, late := RunDates(cfg, a, streams, items[..p]).value, RunDates(cfg, a, streams, items).value;
               && |late.curve| == |early.curve| + 1
               && forall k | 0 <= k < |late.account.fills| :: late.account.fills[k].id < |early.account.orders|
  {
    var p := GroupStart(items, |items| - 1);
    DatesAccounted(cfg, a, streams, items[..p]);
    DateStepExtends(cfg, RunDates(cfg, a, streams, items[..p]).value, DayOf(items[|items| - 1]), items[p..]);
  }
}
