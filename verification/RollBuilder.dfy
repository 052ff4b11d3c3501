/** Building roll entries: `build` and `build_cycle` of futur3/execution/roll_executor.py. */
module RollBuilder {
  import opened Wrappers
  import opened CmeCalendar
  import opened RollSymbols
  import opened RollCalendar
  import TradingDays

  type Outcome<T> = Result<T, RollSymbols.Error>

  method Shifted(f: int -> bool, d: int, n: int) returns (r: Outcome<int>)
    ensures r.Success? ==> TradingDays.IsShift(f, d, n, r.value)
    ensures TradingDays.WeeklyOpen(f, 4) ==> r.Success?
  {
    var e := TradingDays.AddTradingDays(f, d, n);
    if e.Success? {
      return Success(e.value);
    }
    if TradingDays.WeeklyOpen(f, 4) {
      WeakerWeek(f);
      var x := TradingDays.ShiftExists(f, d, n);
      assert false;
    }
    r := Failure(TooFewTradingDays);
  }

  lemma WeakerWeek(f: int -> bool)
    requires TradingDays.WeeklyOpen(f, 4)
    ensures TradingDays.WeeklyOpen(f, 1)
  {
    forall d: int ensures TradingDays.WeekCount(f, d) >= 1 {
      assert TradingDays.WeekCount(f, d) >= 4;
    }
  }

  /** The day itself, or the prior trading day when it is closed. */
  method Guard(f: int -> bool, d: int) returns (r: Outcome<int>)
    ensures r.Success? ==> Guarded(f, d, r.value)
    ensures TradingDays.WeeklyOpen(f, 4) ==> r.Success?
  {
    if f(d) {
      return Success(d);
    }
    r := Shifted(f, d, -1);
  }

  method GuardThenBack(f: int -> bool, d: int, n: int) returns (r: Outcome<int>)
    ensures r.Success? ==> exists g :: Guarded(f, d, g) && TradingDays.IsShift(f, g, n, r.value)
    ensures TradingDays.WeeklyOpen(f, 4) ==> r.Success?
  {
    var g := Guard(f, d);
    if g.Failure? {
      return g;
    }
    r := Shifted(f, g.value, n);
  }

  /** The n-th trading day from the end of a month, one step back at a time. */
  method NthToLast(f: int -> bool, y: int, m: int, n: nat) returns (r: Outcome<int>)
    requires 1 <= m <= 12 && n >= 1
    ensures r.Success? ==> exists g :: Guarded(f, MonthEnd(y, m), g) && TradingDays.IsShift(f, g, 1 - n, r.value)
    ensures TradingDays.WeeklyOpen(f, 4) ==> r.Success?
  {
    r := Guard(f, MonthEnd(y, m));
    if r.Failure? {
      return;
    }
    ghost var g := r.value;
    for i := 1 to n
      invariant r.Success? && Guarded(f, MonthEnd(y, m), g) && TradingDays.IsShift(f, g, 1 - i, r.value)
    {
      var next := Shifted(f, r.value, -1);
      if next.Failure? {
        return next;
      }
      TradingDays.ShiftsCompose(f, g, 1 - i, -1, r.value, next.value);
      r := next;
    }
  }

  method Derive(f: int -> bool, kind: Kind, y: int, m: int) returns (r: Outcome<Derived>)
    requires 1 <= m <= 12
    ensures r.Success? ==> Derives(f, kind, y, m, r.value)
    ensures TradingDays.WeeklyOpen(f, 4) ==> r.Success?
  {
    var nominal := Nominal(kind, y, m);
    var ltd: Outcome<int>;
    match kind {
      case Equity => ltd := Guard(f, nominal);
      case Nikkei => ltd := Shifted(f, nominal, -1);
      case Crypto => ltd := Guard(f, nominal);
      case Fx => ltd := GuardThenBack(f, nominal, -2);
      case Crude => ltd := GuardThenBack(f, nominal, -3);
      case Rates => ltd := GuardThenBack(f, nominal, -7);
      case Metals => ltd := NthToLast(f, y, m, 3);
    }
    if ltd.Failure? {
      return Failure(ltd.error);
    }
    if kind == Crude {
      var fnd := Shifted(f, ltd.value, 2);
      if fnd.Failure? {
        return Failure(fnd.error);
      }
      return Success(Derived(ltd.value, Some(fnd.value)));
    }
    if kind == Rates || kind == Metals {
      var fnd := Guard(f, PrevMonthEnd(y, m));
      if fnd.Failure? {
        return Failure(fnd.error);
      }
      return Success(Derived(ltd.value, Some(fnd.value)));
    }
    r := Success(Derived(ltd.value, None));
  }

  /** The two roll days before the anchor; crude's deadline is also clamped to before first notice,
    * which never changes it. */
  method RollDays(f: int -> bool, s: Spec, y: int, m: int, d: Derived) returns (r: Outcome<(int, int)>)
    requires 1 <= m <= 12 && Sensible(s) && Derives(f, s.kind, y, m, d)
    ensures AnchorDay(s, d).Some?
    ensures r.Success? ==> TradingDays.IsShift(f, AnchorDay(s, d).value, 0 - s.target, r.value.0)
    ensures r.Success? ==> TradingDays.IsShift(f, AnchorDay(s, d).value, 0 - s.deadline, r.value.1)
    ensures TradingDays.WeeklyOpen(f, 4) ==> r.Success?
  {
    var anchor := AnchorDay(s, d).value;
    var target := Shifted(f, anchor, 0 - s.target);
    if target.Failure? {
      return Failure(target.error);
    }
    var deadline := Shifted(f, anchor, 0 - s.deadline);
    if deadline.Failure? {
      return Failure(deadline.error);
    }
    if s.kind == Crude {
      var clamp := Shifted(f, d.fnd.value, -1);
      if clamp.Failure? {
        return Failure(clamp.error);
      }
      CrudeClampIdle(f, d.ltd, d.fnd.value, deadline.value, clamp.value);
      deadline := Success(MinInt(deadline.value, clamp.value));
    }
    r := Success((target.value, deadline.value));
  }

  /** The roll window of one contract month, before its symbols are filled in. */
  method Window(f: int -> bool, s: Spec, y: int, m: int) returns (r: Outcome<Entry>)
    requires 1 <= m <= 12 && Sensible(s)
    ensures r.Success? ==> Windowed(f, s, y, m, r.value)
    ensures TradingDays.WeeklyOpen(f, 4) ==> r.Success?
  {
    var derived := Derive(f, s.kind, y, m);
    if derived.Failure? {
      return Failure(derived.error);
    }
    var days := RollDays(f, s, y, m, derived.value);
    if days.Failure? {
      return Failure(days.error);
    }
    r := Success(Entry("", "", derived.value.ltd, days.value.0, days.value.1, derived.value.fnd));
  }

  /** What the build needs of a symbol: it parses, its root has a rule, and its month is in the cycle. */
  function Buildable(front: string): Outcome<Parsed> {
    var p :- Parse(front);
    if SpecOf(p.root).None? then Failure(NoRollSpec)
    else
      var _ :- NextContract(front);
      Success(p)
  }

  /** An entry built for `front`, whose parts are `p`. */
  ghost predicate BuiltEntry(f: int -> bool, front: string, e: Entry) {
    && Parse(front).Success? && e.front == front && NextContract(front) == Success(e.back)
    && WindowOf(f, Parse(front).value, e)
  }

  /** The window belongs to the contract's root, year and month. */
  ghost predicate WindowOf(f: int -> bool, p: Parsed, e: Entry) {
    && MonthOf(p.code).Some? && SpecOf(p.root).Some?
    && Windowed(f, SpecOf(p.root).value, p.year, MonthOf(p.code).value, e)
  }

  predicate InOrder(e: Entry) {
    e.target <= e.deadline <= e.ltd
  }

  lemma WindowInOrder(f: int -> bool, p: Parsed, e: Entry)
    requires TradingDays.WeeklyOpen(f, 4) && WindowOf(f, p, e)
    ensures InOrder(e)
  {
    SpecsSensible(p.root);
    WindowOrdered(f, SpecOf(p.root).value, p.year, MonthOf(p.code).value, e);
  }

  method WindowFor(f: int -> bool, p: Parsed) returns (r: Outcome<Entry>)
    requires MonthOf(p.code).Some? && SpecOf(p.root).Some?
    ensures r.Success? ==> WindowOf(f, p, r.value)
    ensures TradingDays.WeeklyOpen(f, 4) ==> r.Success? && InOrder(r.value)
  {
    SpecsSensible(p.root);
    r := Window(f, SpecOf(p.root).value, p.year, MonthOf(p.code).value);
    if TradingDays.WeeklyOpen(f, 4) {
      WindowInOrder(f, p, r.value);
    }
  }

  /** Build fails only as `Buildable` says once the calendar is open enough: the window check never
    * fires. */
  method Build(f: int -> bool, front: string) returns (r: Outcome<Entry>)
    ensures r.Success? ==> BuiltEntry(f, front, r.value) && InOrder(r.value)
    ensures TradingDays.WeeklyOpen(f, 4) ==> (r.Success? <==> Buildable(front).Success?)
    ensures TradingDays.WeeklyOpen(f, 4) && r.Failure? ==> r.error == Buildable(front).error
  {
    var p := Parse(front);
    if p.Failure? {
      return Failure(p.error);
    }
    if SpecOf(p.value.root).None? {
      return Failure(NoRollSpec);
    }
    var window := WindowFor(f, p.value);
    if window.Failure? {
      return window;
    }
    var back := NextContract(front);
    if back.Failure? {
      return Failure(back.error);
    }
    var e := window.value.(front := front, back := back.value);
    if !InOrder(e) {
      return Failure(BadWindow);
    }
    r := Success(e);
  }

  // ---------------------------------------------------------------------------------------------
  // A whole cycle
  // ---------------------------------------------------------------------------------------------

  /** Contracts in `k` years of a cycle of `n`. */
  function Slots(k: nat, n: nat): nat {
    if k == 0 then 0 else Slots(k - 1, n) + n
  }

  lemma {:induction false} SlotsIs(k: nat, n: nat)
    ensures Slots(k, n) == k * n
  {
    if k > 0 {
      SlotsIs(k - 1, n);
      assert (k - 1) * n + n == k * n;
    }
  }

  /** The `j`-th symbol lies in year `start + k` at place `i` of the cycle. */
  lemma SymbolAt(root: string, cycle: string, start: int, k: nat, i: nat)
    requires i < |cycle|
    ensures CycleSymbol(root, cycle, start, Slots(k, |cycle|) + i) == Format(root, cycle[i], start + k)
  {
    SlotsIs(k, |cycle|);
    DivisionUnique(k * |cycle| + i, |cycle|, k, i);
  }

  /** Every symbol of a root with a cycle and a roll rule can be built. */
  lemma CycleBuildable(root: string, i: nat, year: int)
    requires CycleOf(root).Some? && SpecOf(root).Some? && i < |CycleOf(root).value|
    ensures Buildable(Format(root, CycleOf(root).value[i], year)).Success?
  {
    var cycle := CycleOf(root).value;
    CycleAscends(root);
    FormatParses(root, cycle[i], year);
    FindDistinct(cycle, i);
  }

  /** Which entry belongs to which symbol, on a calendar. */
  ghost function Builds(f: int -> bool): (built: (string, Entry) -> bool)
    ensures Covers(f, built)
  {
    (front: string, e: Entry) => BuiltEntry(f, front, e)
  }

  ghost predicate Covers(f: int -> bool, built: (string, Entry) -> bool) {
    forall front, e :: BuiltEntry(f, front, e) ==> built(front, e)
  }

  /** Entries for consecutive contracts of a cycle, from the start of a year. */
  ghost predicate CycleEntries(built: (string, Entry) -> bool, root: string, cycle: string, start: int, entries: seq<Entry>)
    requires |cycle| > 0
  {
    forall j | 0 <= j < |entries| :: built(CycleSymbol(root, cycle, start, j), entries[j])
  }

  /** One year of a cycle, month by month. */
  ghost predicate YearEntries(built: (string, Entry) -> bool, root: string, codes: string, year: int, entries: seq<Entry>) {
    |entries| == |codes| && forall i | 0 <= i < |codes| :: built(Format(root, codes[i], year), entries[i])
  }

  method BuildMonth(f: int -> bool, root: string, cycle: string, i: nat, year: int) returns (r: Outcome<Entry>)
    requires CycleOf(root) == Some(cycle) && i < |cycle|
    ensures r.Success? ==> BuiltEntry(f, Format(root, cycle[i], year), r.value)
    ensures TradingDays.WeeklyOpen(f, 4) && SpecOf(root).Some? ==> r.Success?
  {
    r := Build(f, Format(root, cycle[i], year));
    if r.Failure? && SpecOf(root).Some? {
      CycleAscends(root);
      CycleBuildable(root, i, year);
    }
  }

  lemma YearOneMore(built: (string, Entry) -> bool, root: string, cycle: string, i: nat, year: int, entries: seq<Entry>, e: Entry)
    requires i < |cycle| && YearEntries(built, root, cycle[..i], year, entries) && built(Format(root, cycle[i], year), e)
    ensures YearEntries(built, root, cycle[..i + 1], year, entries + [e])
  {
  }

  method BuildYear(f: int -> bool, root: string, cycle: string, year: int, ghost built: (string, Entry) -> bool) returns (r: Outcome<seq<Entry>>)
    requires Covers(f, built) && CycleOf(root) == Some(cycle)
    ensures r.Success? ==> YearEntries(built, root, cycle, year, r.value)
    ensures TradingDays.WeeklyOpen(f, 4) && SpecOf(root).Some? ==> r.Success?
  {
    var entries: seq<Entry> := [];
    for i := 0 to |cycle|
      invariant YearEntries(built, root, cycle[..i], year, entries)
    {
      var e := BuildMonth(f, root, cycle, i, year);
      if e.Failure? {
        return Failure(e.error);
      }
      YearOneMore(built, root, cycle, i, year, entries, e.value);
      entries := entries + [e.value];
    }
    assert cycle[..|cycle|] == cycle;
    r := Success(entries);
  }

  /** A further year continues the cycle. */
  lemma YearContinues(built: (string, Entry) -> bool, root: string, cycle: string, start: int, k: nat, entries: seq<Entry>, next: seq<Entry>)
    requires |cycle| > 0 && |entries| == Slots(k, |cycle|) && CycleEntries(built, root, cycle, start, entries)
    requires YearEntries(built, root, cycle, start + k, next)
    ensures |entries + next| == Slots(k + 1, |cycle|) && CycleEntries(built, root, cycle, start, entries + next)
  {
    var both := entries + next;
    forall j | 0 <= j < |both| ensures built(CycleSymbol(root, cycle, start, j), both[j]) {
      if j >= |entries| {
        SymbolAt(root, cycle, start, k, j - |entries|);
        assert both[j] == next[j - |entries|];
      }
    }
  }

  method BuildYears(f: int -> bool, root: string, cycle: string, start: int, end: int, ghost built: (string, Entry) -> bool) returns (r: Outcome<seq<Entry>>)
    requires Covers(f, built) && CycleOf(root) == Some(cycle) && |cycle| > 0 && start <= end
    ensures r.Success? ==> |r.value| == Slots(end + 1 - start, |cycle|) && CycleEntries(built, root, cycle, start, r.value)
    ensures TradingDays.WeeklyOpen(f, 4) && SpecOf(root).Some? ==> r.Success?
  {
    var entries: seq<Entry> := [];
    for year := start to end + 1
      invariant |entries| == Slots(year - start, |cycle|) && CycleEntries(built, root, cycle, start, entries)
    {
      var next := BuildYear(f, root, cycle, year, built);
      if next.Failure? {
        return next;
      }
      ghost var k := year - start;
      YearContinues(built, root, cycle, start, k, entries, next.value);
      entries := entries + next.value;
      assert year + 1 - start == k + 1;
    }
    r := Success(entries);
  }

  /** One entry per cycle month of every year asked for, in cycle order. */
  method BuildCycle(f: int -> bool, root: string, start: int, end: int) returns (r: Outcome<seq<Entry>>)
    ensures CycleOf(root).None? ==> r == Failure(UnknownRoot)
    ensures CycleOf(root).Some? && start > end ==> r == Failure(InvertedYears)
    ensures r.Success? ==> CycleOf(root).Some? && |CycleOf(root).value| > 0
    ensures r.Success? ==> |r.value| == (end + 1 - start) * |CycleOf(root).value|
    ensures r.Success? ==> CycleEntries(Builds(f), root, CycleOf(root).value, start, r.value)
    ensures TradingDays.WeeklyOpen(f, 4) && CycleOf(root).Some? && SpecOf(root).Some? && start <= end ==> r.Success?
  {
    var cycle := CycleOf(root);
    if cycle.None? {
      return Failure(UnknownRoot);
    }
    if start > end {
      return Failure(InvertedYears);
    }
    CycleAscends(root);
    SlotsIs(end + 1 - start, |cycle.value|);
    r := BuildYears(f, root, cycle.value, start, end, Builds(f));
  }

  /** Later contracts of a cycle have later months. */
  lemma CycleMonthsAscend(cycle: string, start: int, i: nat, j: nat)
    requires MonthsAscend(cycle) && i < j
    ensures MonthIndex(CycleYear(cycle, start, i), MonthOf(CycleCode(cycle, i)).value) < MonthIndex(CycleYear(cycle, start, j), MonthOf(CycleCode(cycle, j)).value)
  {
    var n := |cycle|;
    QuotientMonotone(i, j, n);
  }

  lemma QuotientMonotone(i: nat, j: nat, n: nat)
    requires n > 0 && i < j
    ensures i / n < j / n || (i / n == j / n && i % n < j % n)
  {
    var d := j / n - i / n;
    assert n * d == j - i - (j % n - i % n);
    DivisionGap(n, d);
  }

  /** Roll targets strictly increase along a cycle built over years the symbols can name. */
  lemma CycleTargetsAscend(f: int -> bool, root: string, cycle: string, start: int, entries: seq<Entry>, i: nat, j: nat)
    requires TradingDays.WeeklyOpen(f, 4) && CycleOf(root) == Some(cycle) && |cycle| > 0
    requires CycleEntries(Builds(f), root, cycle, start, entries) && i < j < |entries|
    requires Representable(CycleYear(cycle, start, i)) && Representable(CycleYear(cycle, start, j))
    ensures entries[i].target < entries[j].target
  {
    CycleAscends(root);
    CycleMonthsAscend(cycle, start, i, j);
    EntryMonth(f, root, cycle, start, i, entries[i]);
    EntryMonth(f, root, cycle, start, j, entries[j]);
    SpecsSensible(root);
    TargetsAscend(f, SpecOf(root).value, CycleYear(cycle, start, i), MonthOf(CycleCode(cycle, i)).value, entries[i],
                  CycleYear(cycle, start, j), MonthOf(CycleCode(cycle, j)).value, entries[j]);
  }

  lemma EntryMonth(f: int -> bool, root: string, cycle: string, start: int, j: nat, e: Entry)
    requires |root| > 0 && MonthsAscend(cycle) && Representable(CycleYear(cycle, start, j))
    requires BuiltEntry(f, CycleSymbol(root, cycle, start, j), e)
    ensures SpecOf(root).Some?
    ensures Windowed(f, SpecOf(root).value, CycleYear(cycle, start, j), MonthOf(CycleCode(cycle, j)).value, e)
  {
    FormatParses(root, CycleCode(cycle, j), CycleYear(cycle, start, j));
  }

  /** The default calendar, with any extra trading days, is open enough for all of the above. */
  lemma DefaultCalendarBuilds(c: CmeCalendar, front: string, e: Entry)
    requires c.extraHolidays == {} && BuiltEntry(c.Open(), front, e)
    ensures TradingDays.WeeklyOpen(c.Open(), 4)
    ensures e.target < e.deadline < e.ltd
  {
    FourTradingDaysAWeek(c);
    var p := Parse(front).value;
    SpecsSensible(p.root);
    WindowOrdered(c.Open(), SpecOf(p.root).value, p.year, MonthOf(p.code).value, e);
  }
}
