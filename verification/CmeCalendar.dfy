/** The CME full-closure holidays: futur3/contracts/trading_calendar.py. */
module CmeCalendar {
  import opened Wrappers
  import opened Dates
  import opened TradingDays

  const MONDAY := 0
  const WEDNESDAY := 2
  const THURSDAY := 3
  const FRIDAY := 4
  const SATURDAY := 5
  const SUNDAY := 6
  const JUNETEENTH_FIRST_CME_YEAR := 2022

  /** A holiday on Saturday is observed the Friday before, one on Sunday the Monday after. */
  function Observed(day: int): int {
    if Weekday(day) == SATURDAY then day - 1 else if Weekday(day) == SUNDAY then day + 1 else day
  }

  /** The n-th such weekday of the month. */
  function NthWeekday(y: int, m: int, weekday: int, n: int): int
    requires 1 <= m <= 12
  {
    var first := DateOf(y, m, 1);
    DateOf(y, m, 1 + (weekday - Weekday(first)) % 7 + (n - 1) * 7)
  }

  function LastWeekday(y: int, m: int, weekday: int): int
    requires 1 <= m <= 12
  {
    var last := DateOf(y, m, DaysInMonth(y, m));
    last - (Weekday(last) - weekday) % 7
  }

  lemma NthWeekdayIs(y: int, m: int, weekday: int, n: int)
    requires 1 <= m <= 12 && 0 <= weekday < 7
    ensures Weekday(NthWeekday(y, m, weekday, n)) == weekday
    ensures 7 * (n - 1) <= NthWeekday(y, m, weekday, n) - DateOf(y, m, 1) <= 7 * (n - 1) + 6
  {
    WeekdayShift(DateOf(y, m, 1), weekday, n - 1);
  }

  lemma WeekdayShift(day: int, weekday: int, weeks: int)
    requires 0 <= weekday < 7
    ensures Weekday(day + (weekday - Weekday(day)) % 7 + weeks * 7) == weekday
  {
    var a := day + 6;
    var k := (weekday - a % 7) % 7;
    assert (a + k) % 7 == weekday;
    assert (a + k + weeks * 7) % 7 == weekday;
  }

  lemma LastWeekdayIs(y: int, m: int, weekday: int)
    requires 1 <= m <= 12 && 0 <= weekday < 7
    ensures Weekday(LastWeekday(y, m, weekday)) == weekday
    ensures 0 <= DateOf(y, m, DaysInMonth(y, m)) - LastWeekday(y, m, weekday) <= 6
  {
    WeekdayBack(DateOf(y, m, DaysInMonth(y, m)), weekday);
  }

  lemma WeekdayBack(day: int, weekday: int)
    requires 0 <= weekday < 7
    ensures Weekday(day - (Weekday(day) - weekday) % 7) == weekday
  {
    var a := day + 6;
    var k := (a % 7 - weekday) % 7;
    assert (a - k) % 7 == weekday;
  }

  // ---------------------------------------------------------------------------------------------
  // Easter
  // ---------------------------------------------------------------------------------------------

  function Epact(y: int): int {
    var century := y / 100;
    var correction := (century + 8) / 25;
    var sundayLetter := (century - correction + 1) / 3;
    (19 * (y % 19) + century - century / 4 - sundayLetter + 15) % 30
  }

  function EasterOffset(y: int): int {
    (32 + 2 * (y / 100 % 4) + 2 * (y % 100 / 4) - Epact(y) - y % 100 % 4) % 7
  }

  function MonthSeed(y: int): int {
    (y % 19 + 11 * Epact(y) + 22 * EasterOffset(y)) / 451
  }

  /** Month and day of Easter by the anonymous Gregorian algorithm. */
  function EasterMonthDay(y: int): (int, int) {
    var n := Epact(y) + EasterOffset(y) - 7 * MonthSeed(y) + 114;
    (n / 31, n % 31 + 1)
  }

  function EasterSunday(y: int): int
  {
    EasterValid(y);
    DateOf(y, EasterMonthDay(y).0, EasterMonthDay(y).1)
  }

  /** Days from March 22. */
  function EasterDelay(y: int): (d: int)
    ensures 0 <= d <= 34
  {
    Epact(y) + EasterOffset(y) - 7 * MonthSeed(y)
  }

  /** The computed month and day are always a day from March 22 to April 25. */
  lemma EasterValid(y: int)
    ensures var (m, d) := EasterMonthDay(y); (m == 3 && 22 <= d <= 31) || (m == 4 && 1 <= d <= 25)
  {
    var x := EasterDelay(y);
    assert EasterMonthDay(y) == ((x + 114) / 31, (x + 114) % 31 + 1);
  }

  /** Easter falls from March 22 to April 25. */
  lemma EasterWindow(y: int)
    ensures EasterSunday(y) == DateOf(y, 3, 22) + EasterDelay(y)
    ensures DateOf(y, 3, 22) <= EasterSunday(y) <= DateOf(y, 4, 25)
  {
    EasterValid(y);
    var x := EasterDelay(y);
    assert EasterMonthDay(y) == ((x + 114) / 31, (x + 114) % 31 + 1);
  }

  lemma MarchIs(y: int, b: int, e: int, i: int, k: int)
    requires 0 <= e <= 3 && 0 <= i <= 24 && 0 <= k <= 3 && y == 400 * b + 100 * e + 4 * i + k
    ensures DateOf(y, 3, 22) == 146097 * b + 36524 * e + 1461 * i + 365 * k - 284
  {
    YearLength(y);
    NextJanuary(b, e, i, k);
  }

  lemma MarchDivides(march: int, b: int, e: int, i: int, k: int)
    requires march == 146097 * b + 36524 * e + 1461 * i + 365 * k - 284
    ensures (march + 32 + 2 * e + 2 * i - k) % 7 == 0
  {
    assert march + 32 + 2 * e + 2 * i - k == 7 * (20871 * b + 5218 * e + 209 * i + 52 * k - 36);
  }

  /** The weekday of March 22, in the terms of the algorithm. */
  lemma MarchWeekday(y: int)
    ensures (DateOf(y, 3, 22) + 32 + 2 * (y / 100 % 4) + 2 * (y % 100 / 4) - y % 100 % 4) % 7 == 0
  {
    var b, e, i, k := y / 100 / 4, y / 100 % 4, y % 100 / 4, y % 100 % 4;
    assert y == 400 * b + 100 * e + 4 * i + k;
    MarchIs(y, b, e, i, k);
    MarchDivides(DateOf(y, 3, 22), b, e, i, k);
  }

  lemma NextJanuary(b: int, e: int, i: int, k: int)
    requires 0 <= e <= 3 && 0 <= i <= 24 && 0 <= k <= 3
    ensures DaysBefore(400 * b + 100 * e + 4 * i + k + 1) == 146097 * b + 36524 * e + 1461 * i + 365 * k
  {
    CycleDays(b, e, i, k);
  }

  /** Easter is a Sunday, in every year. */
  lemma EasterIsSunday(y: int)
    ensures Weekday(EasterSunday(y)) == SUNDAY
  {
    EasterWindow(y);
    MarchWeekday(y);
    var base := 32 + 2 * (y / 100 % 4) + 2 * (y % 100 / 4) - y % 100 % 4;
    SundayByRemainder(DateOf(y, 3, 22), base, Epact(y), MonthSeed(y));
  }

  lemma SundayByRemainder(march: int, base: int, epact: int, seed: int)
    requires (march + base) % 7 == 0
    ensures Weekday(march + (epact + (base - epact) % 7 - 7 * seed)) == SUNDAY
  {
    var q := (base - epact) / 7;
    assert (base - epact) % 7 == base - epact - 7 * q;
    assert march + (epact + (base - epact) % 7 - 7 * seed) + 6 == (march + base) + 7 * (-q - seed) + 6;
  }

  /** The ecclesiastical full moon of 1900 to 2199, in days after March 21, by the year's place in the
    * nineteen-year cycle. */
  function FullMoonDelay(golden: int): (d: int)
    requires 0 <= golden < 19
    ensures 1 <= d <= 28
  {
    match golden
    case 0 => 24
    case 1 => 13
    case 2 => 2
    case 3 => 21
    case 4 => 10
    case 5 => 28
    case 6 => 18
    case 7 => 7
    case 8 => 26
    case 9 => 15
    case 10 => 4
    case 11 => 23
    case 12 => 12
    case 13 => 1
    case 14 => 20
    case 15 => 9
    case 16 => 27
    case 17 => 17
    case _ => 6
  }

  lemma EpactIs(y: int)
    requires 1900 <= y < 2200
    ensures Epact(y) == (19 * (y % 19) + 24) % 30
  {
  }

  /** The computed epact gives the full moon, but for the two latest dates, which the table brings forward. */
  lemma MoonFromEpact(golden: int, epact: int)
    requires 0 <= golden < 19 && epact == (19 * golden + 24) % 30
    ensures FullMoonDelay(golden) == if epact == 29 || (epact == 28 && golden > 10) then epact - 1 else epact
  {
  }

  lemma SundayAfterMoon(golden: int, epact: int, offset: int)
    requires 0 <= golden < 19 && epact == (19 * golden + 24) % 30 && 0 <= offset <= 6
    ensures var delay := epact + offset - 7 * ((golden + 11 * epact + 22 * offset) / 451) + 1;
            FullMoonDelay(golden) < delay <= FullMoonDelay(golden) + 7
  {
    MoonFromEpact(golden, epact);
  }

  /** From 1900 to 2199 Easter is the first Sunday after the full moon. */
  lemma EasterFollowsFullMoon(y: int)
    requires 1900 <= y < 2200
    ensures var moon := DateOf(y, 3, 21) + FullMoonDelay(y % 19);
            Weekday(EasterSunday(y)) == SUNDAY && moon < EasterSunday(y) <= moon + 7
  {
    EasterIsSunday(y);
    EasterWindow(y);
    EpactIs(y);
    SundayAfterMoon(y % 19, Epact(y), EasterOffset(y));
  }

  // ---------------------------------------------------------------------------------------------
  // The holidays of a year, in order
  // ---------------------------------------------------------------------------------------------

  const HOLIDAYS := 10
  const JUNETEENTH := 5

  /** The `k`-th full closure anchored to year `y`. */
  function Holiday(y: int, k: int): int
    requires 0 <= k < HOLIDAYS
  {
    if k == 0 then Observed(DateOf(y, 1, 1))
    else if k == 1 then NthWeekday(y, 1, MONDAY, 3)
    else if k == 2 then NthWeekday(y, 2, MONDAY, 3)
    else if k == 3 then EasterSunday(y) - 2
    else if k == 4 then LastWeekday(y, 5, MONDAY)
    else if k == 5 then Observed(DateOf(y, 6, 19))
    else if k == 6 then Observed(DateOf(y, 7, 4))
    else if k == 7 then NthWeekday(y, 9, MONDAY, 1)
    else if k == 8 then NthWeekday(y, 11, THURSDAY, 4)
    else Observed(DateOf(y, 12, 25))
  }

  /** Juneteenth is closed from 2022 on. */
  predicate InForce(y: int, k: int) {
    0 <= k < HOLIDAYS && (k == JUNETEENTH ==> y >= JUNETEENTH_FIRST_CME_YEAR)
  }

  /** Days of the year each holiday can fall on, first and last, before any leap day. */
  const FIRST: seq<int> := [0, 15, 46, 79, 145, 169, 184, 244, 326, 358]
  const LAST: seq<int> := [2, 21, 52, 113, 151, 171, 186, 250, 332, 360]

  predicate InRange(y: int, k: int, day: int)
    requires 0 <= k < HOLIDAYS
  {
    DaysBefore(y) + FIRST[k] + (if k >= 3 then LeapDay(y) else 0)
    <= day <= DaysBefore(y) + LAST[k] + (if k >= 3 then LeapDay(y) else 0)
  }

  lemma ObservedIsWeekday(day: int)
    ensures Weekday(Observed(day)) < SATURDAY && day - 1 <= Observed(day) <= day + 1
  {
  }

  ghost predicate GoodHoliday(y: int, k: int)
    requires 0 <= k < HOLIDAYS
  {
    Weekday(Holiday(y, k)) < SATURDAY && InRange(y, k, Holiday(y, k))
  }

  lemma FixedHolidays(y: int)
    ensures GoodHoliday(y, 0) && GoodHoliday(y, 5) && GoodHoliday(y, 6) && GoodHoliday(y, 9)
  {
    ObservedIsWeekday(DateOf(y, 1, 1));
    ObservedIsWeekday(DateOf(y, 6, 19));
    ObservedIsWeekday(DateOf(y, 7, 4));
    ObservedIsWeekday(DateOf(y, 12, 25));
  }

  lemma EarlyMondays(y: int)
    ensures GoodHoliday(y, 1) && GoodHoliday(y, 2)
  {
    NthWeekdayIs(y, 1, MONDAY, 3);
    NthWeekdayIs(y, 2, MONDAY, 3);
  }

  lemma LateWeekdays(y: int)
    ensures GoodHoliday(y, 7) && GoodHoliday(y, 8)
  {
    NthWeekdayIs(y, 9, MONDAY, 1);
    NthWeekdayIs(y, 11, THURSDAY, 4);
  }

  lemma MemorialDay(y: int)
    ensures GoodHoliday(y, 4)
  {
    LastWeekdayIs(y, 5, MONDAY);
  }

  lemma GoodFriday(y: int)
    ensures GoodHoliday(y, 3) && Weekday(Holiday(y, 3)) == FRIDAY
  {
    EasterIsSunday(y);
    EasterWindow(y);
    TwoBefore(EasterSunday(y));
  }

  lemma TwoBefore(day: int)
    requires Weekday(day) == SUNDAY
    ensures Weekday(day - 2) == FRIDAY
  {
  }

  /** Every observed holiday is a weekday, inside its own stretch of the year. */
  lemma HolidayIsWeekday(y: int, k: int)
    requires 0 <= k < HOLIDAYS
    ensures GoodHoliday(y, k)
  {
    FixedHolidays(y);
    EarlyMondays(y);
    LateWeekdays(y);
    MemorialDay(y);
    GoodFriday(y);
    assert k == 0 || k == 1 || k == 2 || k == 3 || k == 4 || k == 5 || k == 6 || k == 7 || k == 8 || k == 9;
  }

  /** Which weekday each floating holiday is. */
  lemma FloatingWeekdays(y: int)
    ensures Weekday(Holiday(y, 1)) == MONDAY && Weekday(Holiday(y, 2)) == MONDAY && Weekday(Holiday(y, 4)) == MONDAY
    ensures Weekday(Holiday(y, 7)) == MONDAY && Weekday(Holiday(y, 8)) == THURSDAY && Weekday(Holiday(y, 3)) == FRIDAY
  {
    NthWeekdayIs(y, 1, MONDAY, 3);
    NthWeekdayIs(y, 2, MONDAY, 3);
    LastWeekdayIs(y, 5, MONDAY);
    NthWeekdayIs(y, 9, MONDAY, 1);
    NthWeekdayIs(y, 11, THURSDAY, 4);
    GoodFriday(y);
  }

  lemma ObservedShifts(day: int)
    ensures Observed(day + 7) == Observed(day) + 7
  {
    assert (day + 7 + 6) % 7 == (day + 6) % 7;
  }

  /** Christmas and the next New Year fall on one weekday and are observed exactly seven days apart. */
  lemma ChristmasToNewYear(y: int)
    ensures Holiday(y + 1, 0) == Holiday(y, 9) + 7
  {
    YearLength(y);
    assert DateOf(y + 1, 1, 1) == DateOf(y, 12, 25) + 7;
    ObservedShifts(DateOf(y, 12, 25));
  }

  /** The holidays of all years in one line. */
  function HolidayLine(j: int): int {
    Holiday(j / HOLIDAYS, j % HOLIDAYS)
  }

  lemma NeighboursApart(j: int)
    ensures HolidayLine(j + 1) >= HolidayLine(j) + 7
  {
    var y, k := j / HOLIDAYS, j % HOLIDAYS;
    HolidayIsWeekday(y, k);
    if k < HOLIDAYS - 1 {
      assert (j + 1) / HOLIDAYS == y && (j + 1) % HOLIDAYS == k + 1;
      HolidayIsWeekday(y, k + 1);
    } else {
      assert (j + 1) / HOLIDAYS == y + 1 && (j + 1) % HOLIDAYS == 0;
      ChristmasToNewYear(y);
    }
  }

  lemma {:induction false} HolidaysApart(i: int, j: int)
    requires i < j
    ensures HolidayLine(j) >= HolidayLine(i) + 7
    decreases j - i
  {
    NeighboursApart(j - 1);
    if i < j - 1 {
      HolidaysApart(i, j - 1);
    }
  }

  /** Any two distinct holidays, of any years, are at least seven days apart. */
  lemma DistinctHolidaysApart(y: int, k: int, z: int, l: int)
    requires 0 <= k < HOLIDAYS && 0 <= l < HOLIDAYS && Holiday(y, k) < Holiday(z, l)
    ensures Holiday(z, l) - Holiday(y, k) >= 7
  {
    var i, j := HOLIDAYS * y + k, HOLIDAYS * z + l;
    assert i / HOLIDAYS == y && i % HOLIDAYS == k && j / HOLIDAYS == z && j % HOLIDAYS == l;
    if i < j {
      HolidaysApart(i, j);
    } else if j < i {
      HolidaysApart(j, i);
    }
  }

  // ---------------------------------------------------------------------------------------------
  // The calendar
  // ---------------------------------------------------------------------------------------------

  /** Closures anchored to a year. */
  function Anchored(y: int): set<int> {
    set k | 0 <= k < HOLIDAYS && InForce(y, k) :: Holiday(y, k)
  }

  /** Closures falling in a calendar year: its own, and a New Year observed back onto December 31. */
  function HolidaysInYear(y: int): set<int> {
    InYear(Anchored(y) + Anchored(y + 1), y)
  }

  function InYear(days: set<int>, y: int): set<int> {
    set d | d in days && YearOf(d) == y
  }

  datatype CmeCalendar = CmeCalendar(extraHolidays: set<int>, extraTradingDays: set<int>) {
    predicate IsTradingDay(day: int) {
      if day in extraTradingDays then true
      else if day in extraHolidays then false
      else if Weekday(day) >= SATURDAY then false
      else day !in HolidaysInYear(YearOf(day))
    }

    function Open(): int -> bool {
      day => IsTradingDay(day)
    }
  }

  /** A calendar is refused when a date is declared both closed and open. */
  method MakeCalendar(extraHolidays: set<int>, extraTradingDays: set<int>) returns (c: Option<CmeCalendar>)
    ensures c.Some? <==> extraHolidays * extraTradingDays == {}
    ensures c.Some? ==> forall d :: (d in extraTradingDays ==> c.value.IsTradingDay(d)) && (d in extraHolidays ==> !c.value.IsTradingDay(d))
  {
    if extraHolidays * extraTradingDays != {} {
      return None;
    }
    c := Some(CmeCalendar(extraHolidays, extraTradingDays));
    forall d | d in extraHolidays ensures d !in extraTradingDays {
      assert d !in extraHolidays * extraTradingDays;
    }
  }

  /** A day some year's rules close. */
  ghost predicate IsObservedHoliday(day: int) {
    exists y, k :: InForce(y, k) && day == Holiday(y, k)
  }

  lemma AnchoredIs(y: int, day: int)
    ensures day in Anchored(y) <==> exists k :: InForce(y, k) && day == Holiday(y, k)
  {
  }

  ghost predicate AnchoredTo(y: int, day: int) {
    exists k :: InForce(y, k) && day == Holiday(y, k)
  }

  lemma NearestAnchors(y: int, day: int)
    requires forall z | AnchoredTo(z, day) :: z == y || z == y + 1
    ensures day in Anchored(y) + Anchored(y + 1) <==> IsObservedHoliday(day)
  {
    AnchoredIs(y, day);
    AnchoredIs(y + 1, day);
    if IsObservedHoliday(day) {
      var z, k :| InForce(z, k) && day == Holiday(z, k);
      assert AnchoredTo(z, day);
    }
  }

  lemma InYearHolds(days: set<int>, day: int)
    ensures day in InYear(days, YearOf(day)) <==> day in days
  {
  }

  /** Looking at this year's and the next year's anchors finds every observed holiday. */
  lemma HolidaysFound(day: int)
    ensures day in HolidaysInYear(YearOf(day)) <==> IsObservedHoliday(day)
  {
    var y := YearOf(day);
    InYearHolds(Anchored(y) + Anchored(y + 1), day);
    forall z | AnchoredTo(z, day) ensures z == y || z == y + 1 {
      AnchorYear(z, day);
    }
    NearestAnchors(y, day);
  }

  lemma AnchorYear(z: int, day: int)
    requires AnchoredTo(z, day)
    ensures YearOf(day) == z || YearOf(day) == z - 1
  {
    var k :| InForce(z, k) && day == Holiday(z, k);
    HolidayYear(z, k);
  }

  /** A holiday anchored to a year falls in it, or on the last day of the year before. */
  lemma HolidayYear(y: int, k: int)
    requires 0 <= k < HOLIDAYS
    ensures YearOf(Holiday(y, k)) == y || YearOf(Holiday(y, k)) == y - 1
  {
    var day := Holiday(y, k);
    HolidayIsWeekday(y, k);
    YearLength(y);
    YearLength(y - 1);
    YearOfIs(day, y);
    YearOfIs(day, y - 1);
    RangeInYear(y, k, day);
  }

  lemma RangeInYear(y: int, k: int, day: int)
    requires 0 <= k < HOLIDAYS && InRange(y, k, day)
    ensures DaysBefore(y) <= day <= DaysBefore(y) + 365 + LeapDay(y)
  {
    assert 0 <= FIRST[k] && LAST[k] <= 365;
  }

  /** A weekday of a calendar without extra holidays is closed only for an observed holiday. */
  lemma ClosedWeekday(c: CmeCalendar, day: int)
    requires c.extraHolidays == {} && Weekday(day) < SATURDAY && !c.IsTradingDay(day)
    ensures IsObservedHoliday(day)
  {
    HolidaysFound(day);
  }

  predicate ClosedOnWeekday(isOpen: int -> bool, day: int) {
    Weekday(day) < SATURDAY && !isOpen(day)
  }

  /** Without an override a day is open exactly when it is a weekday that no year's rules close. */
  lemma OpenExactly(c: CmeCalendar, day: int)
    requires day !in c.extraHolidays && day !in c.extraTradingDays
    ensures c.IsTradingDay(day) <==> Weekday(day) < SATURDAY && !IsObservedHoliday(day)
  {
    HolidaysFound(day);
  }

  /** Any seven consecutive days hold at most one holiday. */
  lemma TwoClosures(c: CmeCalendar, d: int, e: int)
    requires c.extraHolidays == {} && d < e && ClosedOnWeekday(c.Open(), d) && ClosedOnWeekday(c.Open(), e)
    ensures e - d >= 7
  {
    ClosedWeekday(c, d);
    ClosedWeekday(c, e);
    var y, k :| InForce(y, k) && d == Holiday(y, k);
    var z, l :| InForce(z, l) && e == Holiday(z, l);
    DistinctHolidaysApart(y, k, z, l);
  }

  /** Hence at least four trading days in any seven, and a shift never runs out of days. */
  lemma FourTradingDaysAWeek(c: CmeCalendar)
    requires c.extraHolidays == {}
    ensures WeeklyOpen(c.Open(), 4) && WeeklyOpen(c.Open(), 1)
  {
    var f := c.Open();
    forall d: int ensures WeekCount(f, d) >= 4 {
      forall a, b | d <= a < b < d + 7 && ClosedOnWeekday(f, a) ensures !ClosedOnWeekday(f, b) {
        if ClosedOnWeekday(f, b) {
          TwoClosures(c, a, b);
        }
      }
      WeekOf(f, d);
    }
  }

  /** A weekday that is not the one possible closure is open. */
  lemma WeekOf(f: int -> bool, d: int)
    requires forall a, b | d <= a < b < d + 7 && ClosedOnWeekday(f, a) :: !ClosedOnWeekday(f, b)
    ensures WeekCount(f, d) >= 4
  {
    UnrollWeek(f, d);
    var opens := [f(d), f(d + 1), f(d + 2), f(d + 3), f(d + 4), f(d + 5), f(d + 6)];
    var closed := ClosedIn(f, d);
    forall i | 0 <= i < 7 ensures (Weekday(d) + i) % 7 < SATURDAY && !closed[i] ==> opens[i] {
      WeekdayAfter(d, i);
      assert opens[i] == f(d + i);
    }
    AtMostOne(opens, closed, Weekday(d));
  }

  /** The weekday closures among seven days. */
  function ClosedIn(isOpen: int -> bool, d: int): (closed: seq<bool>)
    ensures |closed| == 7 && forall i | 0 <= i < 7 :: closed[i] == ClosedOnWeekday(isOpen, d + i)
  {
    seq(7, i => ClosedOnWeekday(isOpen, d + i))
  }

  lemma WeekdayAfter(d: int, i: int)
    ensures Weekday(d + i) == (Weekday(d) + i) % 7
  {
  }

  function Unit(b: bool): nat {
    if b then 1 else 0
  }

  lemma UnrollWeek(f: int -> bool, d: int)
    ensures Count(f, d, d + 7)
            == Unit(f(d)) + Unit(f(d + 1)) + Unit(f(d + 2)) + Unit(f(d + 3)) + Unit(f(d + 4)) + Unit(f(d + 5)) + Unit(f(d + 6))
  {
    assert Count(f, d, d + 1) == Unit(f(d));
    assert Count(f, d, d + 2) == Count(f, d, d + 1) + Unit(f(d + 1));
    assert Count(f, d, d + 3) == Count(f, d, d + 2) + Unit(f(d + 2));
    assert Count(f, d, d + 4) == Count(f, d, d + 3) + Unit(f(d + 3));
    assert Count(f, d, d + 5) == Count(f, d, d + 4) + Unit(f(d + 4));
    assert Count(f, d, d + 6) == Count(f, d, d + 5) + Unit(f(d + 5));
  }

  /** Seven days from weekday `w`: all open but the weekend and at most one closure. */
  lemma AtMostOne(opens: seq<bool>, closed: seq<bool>, w: int)
    requires |opens| == |closed| == 7 && 0 <= w < 7
    requires forall i, j | 0 <= i < j < 7 && closed[i] :: !closed[j]
    requires forall i | 0 <= i < 7 :: (w + i) % 7 < SATURDAY && !closed[i] ==> opens[i]
    ensures Unit(opens[0]) + Unit(opens[1]) + Unit(opens[2]) + Unit(opens[3]) + Unit(opens[4]) + Unit(opens[5]) + Unit(opens[6]) >= 4
  {
    assert (w + 0) % 7 < 5 && !closed[0] ==> opens[0];
    assert (w + 1) % 7 < 5 && !closed[1] ==> opens[1];
    assert (w + 2) % 7 < 5 && !closed[2] ==> opens[2];
    assert (w + 3) % 7 < 5 && !closed[3] ==> opens[3];
    assert (w + 4) % 7 < 5 && !closed[4] ==> opens[4];
    assert (w + 5) % 7 < 5 && !closed[5] ==> opens[5];
    assert (w + 6) % 7 < 5 && !closed[6] ==> opens[6];
  }
}
