/** Roll windows derived from expiry rules: `RollCalendarBuilder` in futur3/execution/roll_executor.py. */
module RollCalendar {
  import opened Wrappers
  import opened Dates
  import opened TradingDays
  import opened CmeCalendar

  datatype Kind = Equity | Nikkei | Fx | Rates | Crude | Metals | Crypto

  datatype Anchor = Ltd | Fnd

  datatype Spec = Spec(kind: Kind, anchor: Anchor, target: nat, deadline: nat)

  const ROLL_ROOTS := 22

  /** The roll rule of each root. */
  function RollSpec(i: nat): (string, Spec) {
    match i
    case 0 => ("ES", Spec(Equity, Ltd, 5, 2))
    case 1 => ("NQ", Spec(Equity, Ltd, 5, 2))
    case 2 => ("CL", Spec(Crude, Ltd, 5, 3))
    case 3 => ("GC", Spec(Metals, Fnd, 7, 3))
    case 4 => ("MBT", Spec(Crypto, Ltd, 7, 3))
    case 5 => ("MET", Spec(Crypto, Ltd, 7, 3))
    case 6 => ("YM", Spec(Equity, Ltd, 5, 2))
    case 7 => ("RTY", Spec(Equity, Ltd, 5, 2))
    case 8 => ("6E", Spec(Fx, Ltd, 5, 2))
    case 9 => ("6A", Spec(Fx, Ltd, 5, 2))
    case 10 => ("ZN", Spec(Rates, Fnd, 5, 2))
    case 11 => ("ZB", Spec(Rates, Fnd, 5, 2))
    case 12 => ("6J", Spec(Fx, Ltd, 5, 2))
    case 13 => ("6B", Spec(Fx, Ltd, 5, 2))
    case 14 => ("6C", Spec(Fx, Ltd, 5, 2))
    case 15 => ("6S", Spec(Fx, Ltd, 5, 2))
    case 16 => ("HG", Spec(Metals, Fnd, 7, 3))
    case 17 => ("SI", Spec(Metals, Fnd, 7, 3))
    case 18 => ("ZT", Spec(Rates, Fnd, 5, 2))
    case 19 => ("ZF", Spec(Rates, Fnd, 5, 2))
    case 20 => ("UB", Spec(Rates, Fnd, 5, 2))
    case _ => ("NKD", Spec(Nikkei, Ltd, 5, 2))
  }

  function SpecIn(root: string, n: nat): Option<Spec> {
    if n == 0 then None
    else if RollSpec(n - 1).0 == root then Some(RollSpec(n - 1).1)
    else SpecIn(root, n - 1)
  }

  function SpecOf(root: string): Option<Spec> {
    SpecIn(root, ROLL_ROOTS)
  }

  /** The target comes before the deadline; rates and metals anchor on first notice, the rest on expiry. */
  predicate Sensible(s: Spec) {
    && s.target > s.deadline > 0 && (s.anchor == Fnd <==> s.kind == Rates || s.kind == Metals)
    && (s.kind == Crude ==> s.deadline == 3)
  }

  lemma {:induction false} SpecFound(root: string, n: nat)
    ensures SpecIn(root, n).Some? ==> Sensible(SpecIn(root, n).value)
  {
    if n > 0 {
      SpecFound(root, n - 1);
    }
  }

  lemma SpecsSensible(root: string)
    ensures SpecOf(root).Some? ==> Sensible(SpecOf(root).value)
  {
    SpecFound(root, ROLL_ROOTS);
  }

  // ---------------------------------------------------------------------------------------------
  // Nominal days
  // ---------------------------------------------------------------------------------------------

  function MonthEnd(y: int, m: int): int
    requires 1 <= m <= 12
  {
    DateOf(y, m, DaysInMonth(y, m))
  }

  /** The month before. */
  function PrevYear(y: int, m: int): int {
    if m == 1 then y - 1 else y
  }

  function PrevMonth(m: int): (p: int)
    requires 1 <= m <= 12
    ensures 1 <= p <= 12
  {
    if m == 1 then 12 else m - 1
  }

  function PrevMonthEnd(y: int, m: int): int
    requires 1 <= m <= 12
  {
    MonthEnd(PrevYear(y, m), PrevMonth(m))
  }

  /** The day each contract's expiry is reckoned from. */
  function Nominal(kind: Kind, y: int, m: int): int
    requires 1 <= m <= 12
  {
    match kind
    case Equity => NthWeekday(y, m, FRIDAY, 3)
    case Nikkei => NthWeekday(y, m, FRIDAY, 2)
    case Fx => NthWeekday(y, m, WEDNESDAY, 3)
    case Crude => DateOf(PrevYear(y, m), PrevMonth(m), 25)
    case Crypto => LastWeekday(y, m, FRIDAY)
    case Rates => MonthEnd(y, m)
    case Metals => MonthEnd(y, m)
  }

  // ---------------------------------------------------------------------------------------------
  // Expiry, first notice and the roll window
  // ---------------------------------------------------------------------------------------------

  /** The day itself when open, else the trading day before it. */
  ghost predicate Guarded(f: int -> bool, d: int, e: int) {
    if f(d) then e == d else IsShift(f, d, -1, e)
  }

  datatype Derived = Derived(ltd: int, fnd: Option<int>)

  /** Last trading day and first notice day of a contract. */
  ghost predicate Derives(f: int -> bool, kind: Kind, y: int, m: int, r: Derived)
    requires 1 <= m <= 12
  {
    var nominal := Nominal(kind, y, m);
    match kind
    case Equity => Guarded(f, nominal, r.ltd) && r.fnd.None?
    case Nikkei => IsShift(f, nominal, -1, r.ltd) && r.fnd.None?
    case Crypto => Guarded(f, nominal, r.ltd) && r.fnd.None?
    case Fx => (exists g :: Guarded(f, nominal, g) && IsShift(f, g, -2, r.ltd)) && r.fnd.None?
    case Crude => (exists g :: Guarded(f, nominal, g) && IsShift(f, g, -3, r.ltd)) && r.fnd.Some? && IsShift(f, r.ltd, 2, r.fnd.value)
    case Rates => (exists g :: Guarded(f, nominal, g) && IsShift(f, g, -7, r.ltd)) && r.fnd.Some? && Guarded(f, PrevMonthEnd(y, m), r.fnd.value)
    case Metals => (exists g :: Guarded(f, nominal, g) && IsShift(f, g, -2, r.ltd)) && r.fnd.Some? && Guarded(f, PrevMonthEnd(y, m), r.fnd.value)
  }

  datatype Entry = Entry(front: string, back: string, ltd: int, target: int, deadline: int, fnd: Option<int>)

  function AnchorDay(s: Spec, r: Derived): Option<int> {
    if s.anchor == Ltd then Some(r.ltd) else r.fnd
  }

  /** The roll window of a contract: trading-day offsets before its anchor. */
  ghost predicate Windowed(f: int -> bool, s: Spec, y: int, m: int, e: Entry)
    requires 1 <= m <= 12
  {
    && Derives(f, s.kind, y, m, Derived(e.ltd, e.fnd)) && AnchorDay(s, Derived(e.ltd, e.fnd)).Some?
    && var anchor := AnchorDay(s, Derived(e.ltd, e.fnd)).value;
       && IsShift(f, anchor, 0 - s.target, e.target)
       && IsShift(f, anchor, 0 - s.deadline, e.deadline)
  }

  // ---------------------------------------------------------------------------------------------
  // Order within a window
  // ---------------------------------------------------------------------------------------------

  /** Moving further back lands earlier. */
  lemma FurtherBack(f: int -> bool, d: int, a: nat, b: nat, x: int, y: int)
    requires a > b && IsShift(f, d, 0 - a, x) && IsShift(f, d, 0 - b, y)
    ensures x < y
  {
    if b > 0 && x >= y {
      CountSplit(f, y + 1, x + 1, d);
    }
  }

  /** Any two trading days hold the first notice after expiry for crude: the clamp that would keep the
    * deadline before first notice never binds. */
  lemma CrudeClampIdle(f: int -> bool, ltd: int, fnd: int, deadline: int, clamp: int)
    requires IsShift(f, ltd, 2, fnd) && IsShift(f, ltd, -3, deadline) && IsShift(f, fnd, -1, clamp)
    ensures deadline < clamp && MinInt(deadline, clamp) == deadline
  {
    if clamp <= ltd {
      CountSplit(f, clamp + 1, ltd + 1, fnd);
    }
  }

  lemma GuardedFacts(f: int -> bool, d: int, e: int)
    requires Guarded(f, d, e)
    ensures e <= d && f(e) && Count(f, e + 1, d + 1) == 0
  {
  }

  /** With four open days a week, a month holds at least sixteen. */
  lemma MonthOpen(f: int -> bool, y: int, m: int)
    requires WeeklyOpen(f, 4) && 1 <= m <= 12
    ensures Count(f, PrevMonthEnd(y, m) + 1, MonthEnd(y, m) + 1) >= 16
  {
    var d := PrevMonthEnd(y, m) + 1;
    MonthLengths(y, m);
    WeeksCount(f, 4, d, 4);
    CountSplit(f, d, d + 28, MonthEnd(y, m) + 1);
  }

  lemma MonthLengths(y: int, m: int)
    requires 1 <= m <= 12
    ensures MonthEnd(y, m) == PrevMonthEnd(y, m) + DaysInMonth(y, m)
    ensures PrevMonthEnd(y, m) == DateOf(y, m, 1) - 1
  {
    YearLength(y - 1);
  }

  /** Near the end of a month, a short step back by trading days stays inside the month. */
  lemma StaysInMonth(f: int -> bool, y: int, m: int, g: int, n: nat, e: int)
    requires WeeklyOpen(f, 4) && 1 <= m <= 12 && 0 < n <= 10
    requires Guarded(f, MonthEnd(y, m), g) && IsShift(f, g, 0 - n, e)
    ensures e > PrevMonthEnd(y, m)
  {
    var first := PrevMonthEnd(y, m) + 1;
    MonthOpen(f, y, m);
    GuardedFacts(f, MonthEnd(y, m), g);
    if e < first {
      if g < first {
        CountSplit(f, g + 1, first, MonthEnd(y, m) + 1);
      } else {
        CountSplit(f, first, g, MonthEnd(y, m) + 1);
        CountFirst(f, g, MonthEnd(y, m) + 1);
        CountSplit(f, e + 1, first, g);
      }
    }
  }

  /** Target before deadline, deadline no later than the last trading day: for every contract with a
    * roll rule, on every calendar with four trading days a week. */
  lemma WindowOrdered(f: int -> bool, s: Spec, y: int, m: int, e: Entry)
    requires WeeklyOpen(f, 4) && Sensible(s) && 1 <= m <= 12 && Windowed(f, s, y, m, e)
    ensures e.target < e.deadline < e.ltd
  {
    var anchor := AnchorDay(s, Derived(e.ltd, e.fnd)).value;
    FurtherBack(f, anchor, s.target, s.deadline, e.target, e.deadline);
    if s.anchor == Fnd {
      GuardedFacts(f, PrevMonthEnd(y, m), anchor);
      var g :| Guarded(f, MonthEnd(y, m), g) && IsShift(f, g, if s.kind == Rates then -7 else -2, e.ltd);
      StaysInMonth(f, y, m, g, if s.kind == Rates then 7 else 2, e.ltd);
    }
  }

  // ---------------------------------------------------------------------------------------------
  // The derived days, counted
  // ---------------------------------------------------------------------------------------------

  /** The day expiry is reckoned from: a Friday or Wednesday of the third week, a second Friday, a last Friday, the
    * 25th of the month before, or the month's end. */
  lemma NominalDays(kind: Kind, y: int, m: int)
    requires 1 <= m <= 12
    ensures var d := Nominal(kind, y, m);
            match kind
            case Equity => Weekday(d) == FRIDAY && DateOf(y, m, 15) <= d <= DateOf(y, m, 21)
            case Nikkei => Weekday(d) == FRIDAY && DateOf(y, m, 8) <= d <= DateOf(y, m, 14)
            case Fx => Weekday(d) == WEDNESDAY && DateOf(y, m, 15) <= d <= DateOf(y, m, 21)
            case Crude => d == DateOf(y, m, 1) - DaysInMonth(PrevYear(y, m), PrevMonth(m)) + 24
            case Crypto => Weekday(d) == FRIDAY && DateOf(y, m, DaysInMonth(y, m)) - 6 <= d <= DateOf(y, m, DaysInMonth(y, m))
            case _ => d == DateOf(y, m, DaysInMonth(y, m))
  {
    match kind
    case Equity => NthWeekdayIs(y, m, FRIDAY, 3);
    case Nikkei => NthWeekdayIs(y, m, FRIDAY, 2);
    case Fx => NthWeekdayIs(y, m, WEDNESDAY, 3);
    case Crude => MonthLengths(y, m);
    case Crypto => LastWeekdayIs(y, m, FRIDAY);
    case _ =>
  }

  /** Trading days after `ltd` up to the nominal day, for each kind; the Nikkei's nominal day itself does not count. */
  function DaysKept(kind: Kind): nat {
    match kind
    case Equity => 0
    case Nikkei => 0
    case Crypto => 0
    case Fx => 2
    case Crude => 3
    case Rates => 7
    case Metals => 2
  }

  lemma BackFromGuard(f: int -> bool, nominal: int, g: int, n: nat, e: int)
    requires Guarded(f, nominal, g) && IsShift(f, g, 0 - n, e)
    ensures e <= nominal && f(e) && Count(f, e + 1, nominal + 1) == n
  {
    GuardedFacts(f, nominal, g);
    if n > 0 {
      CountSplit(f, e + 1, g + 1, nominal + 1);
    }
  }

  /** A kind's expiry is so many trading days back from the guarded nominal day. */
  lemma ReckonedFrom(f: int -> bool, kind: Kind, y: int, m: int, r: Derived) returns (g: int)
    requires 1 <= m <= 12 && kind != Nikkei && Derives(f, kind, y, m, r)
    ensures Guarded(f, Nominal(kind, y, m), g) && IsShift(f, g, 0 - DaysKept(kind), r.ltd)
  {
    if kind == Equity || kind == Crypto {
      g := r.ltd;
    } else {
      g :| Guarded(f, Nominal(kind, y, m), g) && IsShift(f, g, 0 - DaysKept(kind), r.ltd);
    }
  }

  /** Every last trading day is open and has exactly the kind's number of trading days after it up to the nominal day. */
  lemma ExpiryInDays(f: int -> bool, kind: Kind, y: int, m: int, r: Derived)
    requires 1 <= m <= 12 && Derives(f, kind, y, m, r)
    ensures f(r.ltd)
    ensures kind == Nikkei ==> r.ltd < Nominal(kind, y, m) && Count(f, r.ltd + 1, Nominal(kind, y, m)) == 0
    ensures kind != Nikkei ==> r.ltd <= Nominal(kind, y, m) && Count(f, r.ltd + 1, Nominal(kind, y, m) + 1) == DaysKept(kind)
  {
    if kind != Nikkei {
      var g := ReckonedFrom(f, kind, y, m, r);
      BackFromGuard(f, Nominal(kind, y, m), g, DaysKept(kind), r.ltd);
    }
  }

  /** Crude's first notice is the second trading day after expiry, that of rates and metals the last trading day of the
    * month before, and the others have none. */
  lemma NoticeInDays(f: int -> bool, kind: Kind, y: int, m: int, r: Derived)
    requires 1 <= m <= 12 && Derives(f, kind, y, m, r)
    ensures kind == Crude ==> r.fnd.Some? && f(r.fnd.value) && Count(f, r.ltd + 1, r.fnd.value + 1) == 2
    ensures kind == Rates || kind == Metals ==>
              && r.fnd.Some? && f(r.fnd.value) && r.fnd.value < DateOf(y, m, 1) && Count(f, r.fnd.value + 1, DateOf(y, m, 1)) == 0
    ensures kind != Crude && kind != Rates && kind != Metals ==> r.fnd.None?
  {
    if kind == Rates || kind == Metals {
      LastOfMonthBefore(f, y, m, r.fnd.value);
    }
  }

  lemma LastOfMonthBefore(f: int -> bool, y: int, m: int, d: int)
    requires 1 <= m <= 12 && Guarded(f, PrevMonthEnd(y, m), d)
    ensures f(d) && d < DateOf(y, m, 1) && Count(f, d + 1, DateOf(y, m, 1)) == 0
  {
    MonthLengths(y, m);
    GuardedFacts(f, PrevMonthEnd(y, m), d);
  }

  // ---------------------------------------------------------------------------------------------
  // Order along a cycle
  // ---------------------------------------------------------------------------------------------

  /** Months in one line. */
  function MonthIndex(y: int, m: int): int {
    12 * y + m
  }

  lemma NextMonthStart(y: int, m: int)
    requires 1 <= m <= 12
    ensures if m < 12 then DateOf(y, m + 1, 1) == DateOf(y, m, 1) + DaysInMonth(y, m)
            else DateOf(y + 1, 1, 1) == DateOf(y, 12, 1) + DaysInMonth(y, 12)
  {
    YearLength(y);
  }

  lemma MonthBefore(z: int, n: int) returns (w: int, k: int)
    requires 1 <= n <= 12
    ensures 1 <= k <= 12 && MonthIndex(w, k) == MonthIndex(z, n) - 1
    ensures DateOf(z, n, 1) == DateOf(w, k, 1) + DaysInMonth(w, k)
  {
    w, k := if n == 1 then z - 1 else z, if n == 1 then 12 else n - 1;
    NextMonthStart(w, k);
  }

  lemma {:induction false} MonthsApart(y: int, m: int, z: int, n: int)
    requires 1 <= m <= 12 && 1 <= n <= 12 && MonthIndex(y, m) < MonthIndex(z, n)
    ensures DateOf(z, n, 1) >= DateOf(y, m, 1) + DaysInMonth(y, m)
    decreases MonthIndex(z, n) - MonthIndex(y, m)
  {
    var w, k := MonthBefore(z, n);
    if MonthIndex(y, m) < MonthIndex(w, k) {
      MonthsApart(y, m, w, k);
    } else {
      assert w == y && k == m;
    }
  }

  /** Nominal days of a later month come at least twenty-two days later. */
  lemma NominalsApart(kind: Kind, y: int, m: int, z: int, n: int)
    requires 1 <= m <= 12 && 1 <= n <= 12 && MonthIndex(y, m) < MonthIndex(z, n)
    ensures Nominal(kind, z, n) >= Nominal(kind, y, m) + 22
    ensures PrevMonthEnd(z, n) >= PrevMonthEnd(y, m) + 28
  {
    MonthsApart(y, m, z, n);
    MonthLengths(y, m);
    MonthLengths(z, n);
    match kind
    case Equity => NthWeekdayIs(y, m, FRIDAY, 3); NthWeekdayIs(z, n, FRIDAY, 3);
    case Nikkei => NthWeekdayIs(y, m, FRIDAY, 2); NthWeekdayIs(z, n, FRIDAY, 2);
    case Fx => NthWeekdayIs(y, m, WEDNESDAY, 3); NthWeekdayIs(z, n, WEDNESDAY, 3);
    case Crypto => LastWeekdayIs(y, m, FRIDAY); LastWeekdayIs(z, n, FRIDAY);
    case Crude => TwentyFifth(y, m); TwentyFifth(z, n);
    case Rates =>
    case Metals =>
  }

  lemma TwentyFifth(y: int, m: int)
    requires 1 <= m <= 12
    ensures Nominal(Crude, y, m) == PrevMonthEnd(y, m) - DaysInMonth(PrevYear(y, m), PrevMonth(m)) + 25
  {
  }

  /** A closed day's guard is less than a week back. */
  lemma GuardedNear(f: int -> bool, d: int, e: int)
    requires WeeklyOpen(f, 4) && Guarded(f, d, e)
    ensures d - 7 <= e <= d
  {
    if e < d - 7 {
      assert WeekCount(f, d - 7) >= 4;
      CountSplit(f, e + 1, d - 7, d);
    }
  }

  lemma GuardedOrder(f: int -> bool, d: int, x: int, e: int, g: int)
    requires WeeklyOpen(f, 4) && d + 22 <= x && Guarded(f, d, e) && Guarded(f, x, g)
    ensures e < g && f(e) && f(g)
  {
    GuardedNear(f, d, e);
    GuardedNear(f, x, g);
  }

  lemma OneBack(f: int -> bool, d: int, e: int)
    requires WeeklyOpen(f, 4) && IsShift(f, d, -1, e)
    ensures d - 7 <= e < d && f(e)
  {
    if e < d - 7 {
      assert WeekCount(f, d - 7) >= 4;
      CountSplit(f, e + 1, d - 7, d);
    }
  }

  /** Anchors of later contract months come strictly later, on open days. */
  lemma AnchorsAscend(f: int -> bool, s: Spec, y: int, m: int, e: Entry, z: int, n: int, g: Entry)
    requires WeeklyOpen(f, 4) && Sensible(s) && 1 <= m <= 12 && 1 <= n <= 12 && MonthIndex(y, m) < MonthIndex(z, n)
    requires Windowed(f, s, y, m, e) && Windowed(f, s, z, n, g)
    ensures var a, b := AnchorDay(s, Derived(e.ltd, e.fnd)).value, AnchorDay(s, Derived(g.ltd, g.fnd)).value;
            a < b && f(a) && f(b)
  {
    NominalsApart(s.kind, y, m, z, n);
    match s.kind
    case Equity => GuardedOrder(f, Nominal(s.kind, y, m), Nominal(s.kind, z, n), e.ltd, g.ltd);
    case Crypto => GuardedOrder(f, Nominal(s.kind, y, m), Nominal(s.kind, z, n), e.ltd, g.ltd);
    case Nikkei =>
      OneBack(f, Nominal(s.kind, y, m), e.ltd);
      OneBack(f, Nominal(s.kind, z, n), g.ltd);
    case Fx =>
      var u :| Guarded(f, Nominal(s.kind, y, m), u) && IsShift(f, u, -2, e.ltd);
      var v :| Guarded(f, Nominal(s.kind, z, n), v) && IsShift(f, v, -2, g.ltd);
      GuardedOrder(f, Nominal(s.kind, y, m), Nominal(s.kind, z, n), u, v);
      ShiftMonotone(f, u, v, -2, e.ltd, g.ltd);
    case Crude =>
      var u :| Guarded(f, Nominal(s.kind, y, m), u) && IsShift(f, u, -3, e.ltd);
      var v :| Guarded(f, Nominal(s.kind, z, n), v) && IsShift(f, v, -3, g.ltd);
      GuardedOrder(f, Nominal(s.kind, y, m), Nominal(s.kind, z, n), u, v);
      ShiftMonotone(f, u, v, -3, e.ltd, g.ltd);
    case Rates => GuardedOrder(f, PrevMonthEnd(y, m), PrevMonthEnd(z, n), e.fnd.value, g.fnd.value);
    case Metals => GuardedOrder(f, PrevMonthEnd(y, m), PrevMonthEnd(z, n), e.fnd.value, g.fnd.value);
  }

  /** Roll targets strictly increase with the contract month. */
  lemma TargetsAscend(f: int -> bool, s: Spec, y: int, m: int, e: Entry, z: int, n: int, g: Entry)
    requires WeeklyOpen(f, 4) && Sensible(s) && 1 <= m <= 12 && 1 <= n <= 12 && MonthIndex(y, m) < MonthIndex(z, n)
    requires Windowed(f, s, y, m, e) && Windowed(f, s, z, n, g)
    ensures e.target < g.target
  {
    AnchorsAscend(f, s, y, m, e, z, n, g);
    ShiftMonotone(f, AnchorDay(s, Derived(e.ltd, e.fnd)).value, AnchorDay(s, Derived(g.ltd, g.fnd)).value, 0 - s.target, e.target, g.target);
  }
}
