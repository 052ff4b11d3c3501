/** Proleptic Gregorian dates as ordinals: day 1 is Monday, January 1 of year 1. */
module Dates {

  predicate IsLeap(y: int) {
    y % 4 == 0 && (y % 100 != 0 || y % 400 == 0)
  }

  function LeapDay(y: int): nat {
    if IsLeap(y) then 1 else 0
  }

  /** Days before January 1 of year `y`. */
  function DaysBefore(y: int): int {
    365 * (y - 1) + (y - 1) / 4 - (y - 1) / 100 + (y - 1) / 400
  }

  lemma YearLength(y: int)
    ensures DaysBefore(y + 1) == DaysBefore(y) + 365 + LeapDay(y)
  {
    Quotient4(y);
    Quotient100(y);
    Quotient400(y);
    LeapSteps(y);
  }

  lemma LeapSteps(y: int)
    ensures LeapDay(y) == (if y % 4 == 0 then 1 else 0) - (if y % 100 == 0 then 1 else 0) + (if y % 400 == 0 then 1 else 0)
  {
    if y % 100 == 0 {
      FourDivides(y, 25 * (y / 100));
    }
    if y % 400 == 0 {
      HundredDivides(y, 4 * (y / 400));
    }
  }

  lemma FourDivides(y: int, k: int)
    requires y == 4 * k
    ensures y % 4 == 0
  {
  }

  lemma HundredDivides(y: int, k: int)
    requires y == 100 * k
    ensures y % 100 == 0
  {
  }

  lemma Quotient4(y: int)
    ensures y / 4 == (y - 1) / 4 + if y % 4 == 0 then 1 else 0
  {
  }

  lemma Quotient100(y: int)
    ensures y / 100 == (y - 1) / 100 + if y % 100 == 0 then 1 else 0
  {
  }

  lemma Quotient400(y: int)
    ensures y / 400 == (y - 1) / 400 + if y % 400 == 0 then 1 else 0
  {
  }

  lemma {:induction false} YearsGrow(y: int, z: int)
    requires y <= z
    ensures DaysBefore(z) >= DaysBefore(y) + 365 * (z - y)
    decreases z - y
  {
    if y < z {
      YearsGrow(y, z - 1);
      YearLength(z - 1);
    }
  }

  /** The calendar year of a day. */
  function YearOf(n: int): int {
    var (q, r) := ((n - 1) / 146097, (n - 1) % 146097);
    var (c, s) := (r / 36524, r % 36524);
    var (o, t) := (s / 1461, s % 1461);
    var u := t / 365;
    var y := 400 * q + 100 * c + 4 * o + u + 1;
    if u == 4 || c == 4 then y - 1 else y
  }

  lemma CycleDays(q: int, c: int, o: int, u: int)
    requires 0 <= c <= 3 && 0 <= o <= 24 && 0 <= u <= 3
    ensures DaysBefore(400 * q + 100 * c + 4 * o + u + 1) == 146097 * q + 36524 * c + 1461 * o + 365 * u
  {
    var y := 400 * q + 100 * c + 4 * o + u;
    assert y / 4 == 100 * q + 25 * c + o;
    assert y / 100 == 4 * q + c;
    assert y / 400 == q;
  }

  /** A day lies within its year, and only within its year. */
  lemma YearOfIs(n: int, y: int)
    ensures DaysBefore(y) < n <= DaysBefore(y + 1) <==> y == YearOf(n)
  {
    YearOfContains(n);
    var z := YearOf(n);
    if y < z {
      YearsGrow(y + 1, z);
    } else if y > z {
      YearsGrow(z + 1, y);
    }
  }

  /** Days since the cycle began, split into centuries, four-year groups and a rest. */
  lemma CycleParts(r: int, c: int, o: int, t: int)
    requires 0 <= r < 146097 && c == r / 36524 && o == r % 36524 / 1461 && t == r % 36524 % 1461
    ensures r == 36524 * c + 1461 * o + t && 0 <= c <= 4 && 0 <= o <= 24 && 0 <= t < 1461
    ensures (o == 24 ==> t < 1460) && (c == 4 ==> o == 0 && t == 0)
  {
    var s := r % 36524;
    assert r == 36524 * c + s && s == 1461 * o + t;
  }

  /** The parts of a day number, and its year put together from them. */
  lemma YearParts(n: int) returns (q: int, c: int, o: int, t: int)
    ensures n - 1 == 146097 * q + 36524 * c + 1461 * o + t
    ensures 0 <= c <= 4 && 0 <= o <= 24 && 0 <= t < 1461 && (o == 24 ==> t < 1460) && (c == 4 ==> o == 0 && t == 0)
    ensures YearOf(n) == 400 * q + if c == 4 then 400 else 100 * c + 4 * o + (if t == 1460 then 3 else t / 365) + 1
  {
    var r := (n - 1) % 146097;
    q, c, o, t := (n - 1) / 146097, r / 36524, r % 36524 / 1461, r % 36524 % 1461;
    CycleParts(r, c, o, t);
  }

  lemma YearOfContains(n: int)
    ensures DaysBefore(YearOf(n)) < n <= DaysBefore(YearOf(n) + 1)
  {
    var q, c, o, t := YearParts(n);
    if c == 4 {
      LastOfCycle(n, q);
    } else {
      GroupContains(n, q, c, o, t);
    }
  }

  /** The last day of a 400-year cycle. */
  lemma LastOfCycle(n: int, q: int)
    requires n - 1 == 146097 * q + 146096
    ensures DaysBefore(400 * q + 400) < n <= DaysBefore(400 * q + 401)
  {
    CycleDays(q, 3, 24, 3);
    YearLength(400 * q + 400);
    LeapFourth(q, 3, 24);
  }

  lemma GroupContains(n: int, q: int, c: int, o: int, t: int)
    requires 0 <= c <= 3 && 0 <= o <= 24 && 0 <= t < 1461 && (o == 24 ==> t < 1460)
    requires n - 1 == 146097 * q + 36524 * c + 1461 * o + t
    ensures var y := 400 * q + 100 * c + 4 * o + (if t == 1460 then 3 else t / 365) + 1;
            DaysBefore(y) < n <= DaysBefore(y + 1)
  {
    var u := if t == 1460 then 3 else t / 365;
    var y := 400 * q + 100 * c + 4 * o + u + 1;
    CycleDays(q, c, o, u);
    YearLength(y);
    if t == 1460 {
      LeapFourth(q, c, o);
    }
  }

  /** The fourth year of a four-year group is a leap year, but for the last group of most centuries. */
  lemma LeapFourth(q: int, c: int, o: int)
    requires 0 <= c <= 3 && 0 <= o <= 24 && (o < 24 || c == 3)
    ensures IsLeap(400 * q + 100 * c + 4 * o + 4)
  {
    var y := 400 * q + 100 * c + 4 * o + 4;
    Remainder(y, 4, 100 * q + 25 * c + o + 1, 0);
    if o < 24 {
      Remainder(y, 100, 4 * q + c, 4 * o + 4);
    } else {
      Remainder(y, 400, q + 1, 0);
    }
  }

  lemma Remainder(n: int, k: int, q: int, r: int)
    requires k > 0 && 0 <= r < k && n == k * q + r
    ensures n % k == r
  {
    var d := n / k - q;
    assert n == k * (n / k) + n % k;
    assert k * d == r - n % k;
    MultipleBounds(k, d);
  }

  lemma MultipleBounds(k: int, d: int)
    requires k > 0
    ensures d >= 1 ==> k * d >= k
    ensures d <= -1 ==> k * d <= -k
  {
    if d >= 1 {
      assert k * (d - 1) >= 0;
    } else if d <= -1 {
      assert k * (-d - 1) >= 0;
    }
  }

  const MONTH_STARTS: seq<int> := [0, 31, 59, 90, 120, 151, 181, 212, 243, 273, 304, 334, 365]

  function DaysBeforeMonth(y: int, m: int): int
    requires 1 <= m <= 13
  {
    MONTH_STARTS[m - 1] + if m > 2 then LeapDay(y) else 0
  }

  function DaysInMonth(y: int, m: int): (n: int)
    requires 1 <= m <= 12
    ensures 28 <= n <= 31
  {
    DaysBeforeMonth(y, m + 1) - DaysBeforeMonth(y, m)
  }

  /** The ordinal of a date. */
  function DateOf(y: int, m: int, d: int): int
    requires 1 <= m <= 12
  {
    DaysBefore(y) + DaysBeforeMonth(y, m) + d
  }

  /** Monday is 0 and Sunday is 6. */
  function Weekday(n: int): (w: int)
    ensures 0 <= w < 7
  {
    (n + 6) % 7
  }
}
