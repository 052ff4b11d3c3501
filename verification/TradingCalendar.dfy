/** Business-day arithmetic over an arbitrary set of open days, and the CME holiday calendar:
  * futur3/contracts/trading_calendar.py.
  *
  * A date is its proleptic Gregorian ordinal: day 1 is Monday, January 1 of year 1.
  */
module TradingDays {
  import opened Wrappers

  datatype Error = TooFewTradingDays | InvertedRange

  /** Open days in the half-open span [lo, hi). */
  function Count(isOpen: int -> bool, lo: int, hi: int): nat
    decreases hi - lo
  {
    if hi <= lo then 0 else Count(isOpen, lo, hi - 1) + if isOpen(hi - 1) then 1 else 0
  }

  lemma {:induction false} CountSplit(isOpen: int -> bool, lo: int, mid: int, hi: int)
    requires lo <= mid <= hi
    ensures Count(isOpen, lo, hi) == Count(isOpen, lo, mid) + Count(isOpen, mid, hi)
    decreases hi - mid
  {
    if mid < hi {
      CountSplit(isOpen, lo, mid, hi - 1);
    }
  }

  /** `e` is `d` moved by `n` trading days: the n-th open day after it, or the -n-th before it. */
  ghost predicate IsShift(isOpen: int -> bool, d: int, n: int, e: int) {
    if n == 0 then e == d
    else if n > 0 then e > d && isOpen(e) && Count(isOpen, d + 1, e) == n - 1
    else e < d && isOpen(e) && Count(isOpen, e + 1, d) == -n - 1
  }

  /** A shift has at most one result. */
  lemma ShiftUnique(isOpen: int -> bool, d: int, n: int, e: int, f: int)
    requires IsShift(isOpen, d, n, e) && IsShift(isOpen, d, n, f)
    ensures e == f
  {
    if n > 0 {
      if e < f {
        CountSplit(isOpen, d + 1, e + 1, f);
      } else if f < e {
        CountSplit(isOpen, d + 1, f + 1, e);
      }
    } else if n < 0 {
      if e < f {
        CountSplit(isOpen, e + 1, f, d);
        CountFirst(isOpen, f, d);
      } else if f < e {
        CountSplit(isOpen, f + 1, e, d);
        CountFirst(isOpen, e, d);
      }
    }
  }

  lemma CountFirst(isOpen: int -> bool, lo: int, hi: int)
    requires lo < hi
    ensures Count(isOpen, lo, hi) == (if isOpen(lo) then 1 else 0) + Count(isOpen, lo + 1, hi)
  {
    CountSplit(isOpen, lo, lo + 1, hi);
  }

  /** Moving forward by `n` lands on an open day with exactly `n` open days in (d, e]. */
  lemma ShiftCounts(isOpen: int -> bool, d: int, n: int, e: int)
    requires n > 0 && IsShift(isOpen, d, n, e)
    ensures isOpen(e) && Count(isOpen, d + 1, e + 1) == n
  {
  }

  /** Shifts the same way compose additively. */
  lemma ShiftsCompose(isOpen: int -> bool, d: int, a: int, b: int, e: int, f: int)
    requires (a >= 0 && b >= 0) || (a <= 0 && b <= 0)
    requires IsShift(isOpen, d, a, e) && IsShift(isOpen, e, b, f)
    ensures IsShift(isOpen, d, a + b, f)
  {
    if a > 0 && b > 0 {
      CountSplit(isOpen, d + 1, e + 1, f);
    } else if a < 0 && b < 0 {
      CountSplit(isOpen, f + 1, e, d);
      CountFirst(isOpen, e, d);
    }
  }

  /** From an open day, shifting there and back returns. */
  lemma ShiftInverts(isOpen: int -> bool, d: int, n: int, e: int)
    requires isOpen(d) && IsShift(isOpen, d, n, e)
    ensures IsShift(isOpen, e, -n, d)
  {
  }

  /** Shifts keep the order of open days. */
  lemma ShiftMonotone(isOpen: int -> bool, d: int, f: int, n: int, e: int, g: int)
    requires isOpen(d) && isOpen(f) && d < f && IsShift(isOpen, d, n, e) && IsShift(isOpen, f, n, g)
    ensures e < g
  {
    if n > 0 {
      if g <= e {
        CountSplit(isOpen, d + 1, f, e);
        CountSplit(isOpen, f, g, e);
        CountFirst(isOpen, f, g);
      }
    } else if n < 0 {
      if g <= e {
        CountSplit(isOpen, g + 1, e + 1, f);
        CountSplit(isOpen, e + 1, d, f);
        CountFirst(isOpen, d, f);
      }
    }
  }

  /** How far a shift looks before giving up. */
  function StepBound(n: int): nat {
    7 * Abs(n) + 30
  }

  /** Walks day by day, counting open days; gives up past the bound. Succeeds exactly when the shift
    * exists within the bound. */
  method AddTradingDays(isOpen: int -> bool, start: int, n: int) returns (r: Result<int, Error>)
    ensures r.Success? ==> IsShift(isOpen, start, n, r.value) && Abs(r.value - start) <= StepBound(n)
    ensures r.Failure? ==> r.error == TooFewTradingDays && forall e | IsShift(isOpen, start, n, e) :: Abs(e - start) > StepBound(n)
  {
    if n == 0 {
      return Success(start);
    }
    var step := if n > 0 then 1 else -1;
    var remaining := Abs(n);
    var current, steps := start, 0;
    while remaining > 0
      invariant 0 <= remaining <= Abs(n) && 0 <= steps <= StepBound(n) && current == start + step * steps
      invariant n > 0 ==> Count(isOpen, start + 1, current + 1) == n - remaining
      invariant n < 0 ==> Count(isOpen, current, start) == -n - remaining
      invariant remaining == 0 ==> IsShift(isOpen, start, n, current)
      decreases StepBound(n) - steps
    {
      current, steps := current + step, steps + 1;
      if steps > StepBound(n) {
        forall e | IsShift(isOpen, start, n, e) ensures Abs(e - start) > StepBound(n) {
          BeyondBound(isOpen, start, n, current - step, e);
        }
        return Failure(TooFewTradingDays);
      }
      if n < 0 {
        CountFirst(isOpen, current, start);
      }
      if isOpen(current) {
        remaining := remaining - 1;
      }
    }
    r := Success(current);
  }

  /** With too few open days up to `reached`, the shift lies beyond it. */
  lemma BeyondBound(isOpen: int -> bool, start: int, n: int, reached: int, e: int)
    requires n != 0 && IsShift(isOpen, start, n, e)
    requires n > 0 ==> reached >= start && Count(isOpen, start + 1, reached + 1) < n
    requires n < 0 ==> reached <= start && Count(isOpen, reached, start) < -n
    ensures Abs(e - start) > Abs(reached - start)
  {
    if n > 0 && e <= reached {
      CountSplit(isOpen, start + 1, e + 1, reached + 1);
    }
    if n < 0 && e >= reached {
      CountSplit(isOpen, reached, e, start);
      CountFirst(isOpen, e, start);
    }
  }

  /** A shift that returned can be shifted back: the return trip is as short, so it returns too. */
  method RoundTrip(isOpen: int -> bool, d: int, n: int) returns (there: Result<int, Error>, back: Result<int, Error>)
    requires isOpen(d)
    ensures there.Success? ==> back == Success(d)
  {
    there := AddTradingDays(isOpen, d, n);
    back := there;
    if there.Success? {
      back := AddTradingDays(isOpen, there.value, -n);
      ShiftInverts(isOpen, d, n, there.value);
      if back.Success? {
        ShiftUnique(isOpen, there.value, -n, d, back.value);
      }
    }
  }

  method TradingDaysBetween(isOpen: int -> bool, start: int, end: int) returns (r: Result<nat, Error>)
    ensures r == if start > end then Failure(InvertedRange) else Success(Count(isOpen, start, end + 1))
  {
    if start > end {
      return Failure(InvertedRange);
    }
    var count, current := 0, start;
    while current <= end
      invariant start <= current <= end + 1 && count == Count(isOpen, start, current)
    {
      if isOpen(current) {
        count := count + 1;
      }
      current := current + 1;
    }
    r := Success(count);
  }

  // ---------------------------------------------------------------------------------------------
  // Calendars that are open often enough
  // ---------------------------------------------------------------------------------------------

  function WeekCount(isOpen: int -> bool, d: int): nat {
    Count(isOpen, d, d + 7)
  }

  /** At least `k` open days in every seven. */
  ghost predicate WeeklyOpen(isOpen: int -> bool, k: nat) {
    forall d: int :: WeekCount(isOpen, d) >= k
  }

  lemma {:induction false} WeeksCount(isOpen: int -> bool, k: nat, d: int, weeks: nat)
    requires WeeklyOpen(isOpen, k)
    ensures Count(isOpen, d, d + 7 * weeks) >= k * weeks
  {
    if weeks > 0 {
      WeeksCount(isOpen, k, d, weeks - 1);
      CountSplit(isOpen, d, d + 7 * (weeks - 1), d + 7 * weeks);
      assert WeekCount(isOpen, d + 7 * (weeks - 1)) >= k;
      assert k * weeks == k * (weeks - 1) + k;
    }
  }

  /** The n-th open day of a span that holds at least `n` of them. */
  lemma {:induction false} NthOpen(isOpen: int -> bool, d: int, n: nat, hi: int) returns (e: int)
    requires n > 0 && hi > d && Count(isOpen, d + 1, hi) >= n
    ensures d < e < hi && IsShift(isOpen, d, n, e)
    decreases hi - d
  {
    if isOpen(hi - 1) && Count(isOpen, d + 1, hi - 1) == n - 1 {
      e := hi - 1;
    } else {
      e := NthOpen(isOpen, d, n, hi - 1);
    }
  }

  lemma {:induction false} NthOpenBack(isOpen: int -> bool, d: int, n: nat, lo: int) returns (e: int)
    requires n > 0 && lo <= d && Count(isOpen, lo, d) >= n
    ensures lo <= e < d && IsShift(isOpen, d, 0 - n, e)
    decreases d - lo
  {
    if lo < d {
      CountFirst(isOpen, lo, d);
      if isOpen(lo) && Count(isOpen, lo + 1, d) == n - 1 {
        e := lo;
      } else {
        e := NthOpenBack(isOpen, d, n, lo + 1);
      }
    } else {
      assert false;
      e := lo;
    }
  }

  /** With one open day in every seven, every shift exists within 7|n| days: the bound is never hit. */
  lemma ShiftExists(isOpen: int -> bool, d: int, n: int) returns (e: int)
    requires WeeklyOpen(isOpen, 1)
    ensures IsShift(isOpen, d, n, e) && Abs(e - d) <= 7 * Abs(n) <= StepBound(n)
  {
    if n == 0 {
      e := d;
    } else if n > 0 {
      WeeksCount(isOpen, 1, d + 1, n);
      e := NthOpen(isOpen, d, n, d + 1 + 7 * n);
    } else {
      WeeksCount(isOpen, 1, d + 7 * n, -n);
      e := NthOpenBack(isOpen, d, -n, d + 7 * n);
    }
  }

  /** Where the shift leads on such a calendar. */
  ghost function Shift(isOpen: int -> bool, d: int, n: int): (e: int)
    requires WeeklyOpen(isOpen, 1)
    ensures IsShift(isOpen, d, n, e) && Abs(e - d) <= 7 * Abs(n)
  {
    ShiftExistsSome(isOpen, d, n);
    var e :| IsShift(isOpen, d, n, e) && Abs(e - d) <= 7 * Abs(n);
    e
  }

  lemma ShiftExistsSome(isOpen: int -> bool, d: int, n: int)
    requires WeeklyOpen(isOpen, 1)
    ensures exists e :: IsShift(isOpen, d, n, e) && Abs(e - d) <= 7 * Abs(n)
  {
    var e := ShiftExists(isOpen, d, n);
  }

  /** On such a calendar the walk always returns, and returns the shift. */
  method AddOnOpenCalendar(isOpen: int -> bool, start: int, n: int) returns (r: Result<int, Error>)
    requires WeeklyOpen(isOpen, 1)
    ensures r == Success(Shift(isOpen, start, n))
  {
    r := AddTradingDays(isOpen, start, n);
    if r.Success? {
      ShiftUnique(isOpen, start, n, r.value, Shift(isOpen, start, n));
    }
  }
}
