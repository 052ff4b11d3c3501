/** Contract symbols and roll cycles: futur3/execution/roll_executor.py. */
module RollSymbols {
  import opened Wrappers
  import opened Contracts

  datatype Error =
    | TooShort
    | BadMonthCode
    | BadYear
    | UnknownRoot
    | NotInCycle
    | NoRollSpec
    | InvertedYears
    | TooFewTradingDays
    | BadWindow

  const YEAR_2DIGIT_PIVOT := 49
  const MONTH_CODES: string := "FGHJKMNQUVXZ"

  const QUARTERLY: string := "HMUZ"
  const MONTHLY: string := "FGHJKMNQUVXZ"
  const BI_MONTHLY: string := "GJMQVZ"
  const HKNUZ: string := "HKNUZ"

  const CYCLE_ROOTS := 26

  /** The delivery cycle of each root. */
  function RootCycle(i: nat): (string, string) {
    match i
    case 0 => ("ES", QUARTERLY)
    case 1 => ("MES", QUARTERLY)
    case 2 => ("NQ", QUARTERLY)
    case 3 => ("MNQ", QUARTERLY)
    case 4 => ("CL", MONTHLY)
    case 5 => ("MCL", MONTHLY)
    case 6 => ("GC", BI_MONTHLY)
    case 7 => ("MGC", BI_MONTHLY)
    case 8 => ("MBT", MONTHLY)
    case 9 => ("MET", MONTHLY)
    case 10 => ("YM", QUARTERLY)
    case 11 => ("RTY", QUARTERLY)
    case 12 => ("6E", QUARTERLY)
    case 13 => ("6A", QUARTERLY)
    case 14 => ("ZN", QUARTERLY)
    case 15 => ("ZB", QUARTERLY)
    case 16 => ("6J", QUARTERLY)
    case 17 => ("6B", QUARTERLY)
    case 18 => ("6C", QUARTERLY)
    case 19 => ("6S", QUARTERLY)
    case 20 => ("HG", HKNUZ)
    case 21 => ("SI", HKNUZ)
    case 22 => ("ZT", QUARTERLY)
    case 23 => ("ZF", QUARTERLY)
    case 24 => ("UB", QUARTERLY)
    case _ => ("NKD", QUARTERLY)
  }

  function CycleIn(root: string, n: nat): Option<string> {
    if n == 0 then None
    else if RootCycle(n - 1).0 == root then Some(RootCycle(n - 1).1)
    else CycleIn(root, n - 1)
  }

  function CycleOf(root: string): Option<string> {
    CycleIn(root, CYCLE_ROOTS)
  }

  /** Position of a character, when it occurs. */
  function Find(s: string, c: char): (i: Option<nat>)
    ensures i.Some? ==> i.value < |s| && s[i.value] == c
    ensures i.None? <==> c !in s
  {
    if |s| == 0 then None
    else if s[0] == c then Some(0)
    else match Find(s[1..], c) case None => None case Some(k) => Some(k + 1)
  }

  /** Month number, 1 to 12, of a CME month code. */
  function MonthOf(code: char): (m: Option<int>)
    ensures m.Some? ==> 1 <= m.value <= 12
  {
    match Find(MONTH_CODES, code) case None => None case Some(i) => Some(i + 1)
  }

  predicate IsDigit(c: char) {
    '0' <= c <= '9'
  }

  function ExpandYear(yy: int): int {
    if yy <= YEAR_2DIGIT_PIVOT then 2000 + yy else 1900 + yy
  }

  datatype Parsed = Parsed(root: string, code: char, year: int)

  function Parse(symbol: string): Result<Parsed, Error> {
    if |symbol| <= SYMBOL_SUFFIX_LEN then Failure(TooShort)
    else
      var n := |symbol| - SYMBOL_SUFFIX_LEN;
      var code, tens, units := symbol[n], symbol[n + 1], symbol[n + 2];
      if MonthOf(code).None? then Failure(BadMonthCode)
      else if !IsDigit(tens) || !IsDigit(units) then Failure(BadYear)
      else Success(Parsed(symbol[..n], code, ExpandYear(10 * (tens as int - '0' as int) + (units as int - '0' as int))))
  }

  function Digit(d: int): char
    requires 0 <= d < 10
  {
    "0123456789"[d]
  }

  /** The symbol of a contract: root, month code and the year's last two digits. */
  function Format(root: string, code: char, year: int): string {
    root + [code, Digit(year % 100 / 10), Digit(year % 10)]
  }

  lemma DigitValue(d: int)
    requires 0 <= d < 10
    ensures IsDigit(Digit(d)) && Digit(d) as int - '0' as int == d
  {
  }

  predicate Representable(year: int) {
    1950 <= year <= 2049
  }

  lemma FormatShape(root: string, code: char, year: int)
    ensures var s, n := Format(root, code, year), |root|;
            && |s| == n + SYMBOL_SUFFIX_LEN && s[..n] == root
            && s[n] == code && s[n + 1] == Digit(year % 100 / 10) && s[n + 2] == Digit(year % 10)
  {
  }

  lemma TwoDigits(year: int)
    ensures 10 * (year % 100 / 10) + year % 10 == year % 100
  {
    var c, t, u := year / 100, year % 100 / 10, year % 100 % 10;
    assert year == 100 * c + 10 * t + u;
  }

  /** The pivot undoes the cut to two digits exactly for the years it can name. */
  lemma PivotExact(year: int)
    ensures ExpandYear(year % 100) == year <==> Representable(year)
  {
    var c, r := year / 100, year % 100;
    assert year == 100 * c + r;
  }

  /** Formatting and parsing round-trip exactly for the years two digits can name. */
  lemma FormatParses(root: string, code: char, year: int)
    requires |root| > 0 && MonthOf(code).Some?
    ensures var p := Parse(Format(root, code, year)); p.Success? && p.value.root == root && p.value.code == code
    ensures Parse(Format(root, code, year)) == Success(Parsed(root, code, year)) <==> Representable(year)
  {
    FormatShape(root, code, year);
    DigitValue(year % 100 / 10);
    DigitValue(year % 10);
    TwoDigits(year);
    PivotExact(year);
    ParseParts(Format(root, code, year), root, code, year % 100 / 10, year % 10);
  }

  lemma ParseParts(s: string, root: string, code: char, tens: int, units: int)
    requires |root| > 0 && MonthOf(code).Some? && 0 <= tens < 10 && 0 <= units < 10
    requires |s| == |root| + SYMBOL_SUFFIX_LEN && s[..|root|] == root && s[|root|] == code
    requires s[|root| + 1] == Digit(tens) && s[|root| + 2] == Digit(units)
    ensures Parse(s) == Success(Parsed(root, code, ExpandYear(10 * tens + units)))
  {
    DigitValue(tens);
    DigitValue(units);
  }

  /** The next contract of the root's cycle, into the next year past its last month. */
  function NextContract(symbol: string): Result<string, Error> {
    var p :- Parse(symbol);
    match CycleOf(p.root)
    case None => Failure(UnknownRoot)
    case Some(cycle) =>
      match Find(cycle, p.code)
      case None => Failure(NotInCycle)
      case Some(i) =>
        if i + 1 < |cycle| then Success(Format(p.root, cycle[i + 1], p.year)) else Success(Format(p.root, cycle[0], p.year + 1))
  }

  /** The cycle is a run of strictly later months. */
  predicate MonthsAscend(cycle: string) {
    |cycle| > 0 && (forall i | 0 <= i < |cycle| :: MonthOf(cycle[i]).Some?)
    && forall i, j | 0 <= i < j < |cycle| :: MonthOf(cycle[i]).value < MonthOf(cycle[j]).value
  }

  lemma {:induction false} FindDistinct(s: string, i: nat)
    requires i < |s| && forall j, k | 0 <= j < k < |s| :: s[j] != s[k]
    ensures Find(s, s[i]) == Some(i)
  {
    if i > 0 {
      FindDistinct(s[1..], i - 1);
    }
  }

  lemma {:induction false} CycleFound(root: string, n: nat)
    requires forall i: nat | i < n :: |RootCycle(i).0| > 0 && MonthsAscend(RootCycle(i).1)
    ensures CycleIn(root, n).Some? ==> |root| > 0 && MonthsAscend(CycleIn(root, n).value)
  {
    if n > 0 {
      CycleFound(root, n - 1);
    }
  }

  /** A cycle whose codes are those of ascending months. */
  lemma AscendsBy(cycle: string, months: seq<int>)
    requires |cycle| == |months| > 0
    requires forall i | 0 <= i < |months| :: 1 <= months[i] <= 12 && cycle[i] == MONTH_CODES[months[i] - 1]
    requires forall i, j | 0 <= i < j < |months| :: months[i] < months[j]
    ensures MonthsAscend(cycle)
  {
    forall i | 0 <= i < |cycle| ensures MonthOf(cycle[i]) == Some(months[i]) {
      FindDistinct(MONTH_CODES, months[i] - 1);
    }
  }

  lemma QuarterlyAscends()
    ensures MonthsAscend(QUARTERLY)
  {
    AscendsBy(QUARTERLY, [3, 6, 9, 12]);
  }

  lemma MonthlyAscends()
    ensures MonthsAscend(MONTHLY)
  {
    var months := seq(12, i => i + 1);
    AscendsBy(MONTHLY, months);
  }

  lemma BiMonthlyAscends()
    ensures MonthsAscend(BI_MONTHLY)
  {
    AscendsBy(BI_MONTHLY, [2, 4, 6, 8, 10, 12]);
  }

  lemma HknuzAscends()
    ensures MonthsAscend(HKNUZ)
  {
    AscendsBy(HKNUZ, [3, 5, 7, 9, 12]);
  }

  lemma KnownCycles(i: nat)
    ensures |RootCycle(i).0| > 0
    ensures var c := RootCycle(i).1; c == QUARTERLY || c == MONTHLY || c == BI_MONTHLY || c == HKNUZ
  {
  }

  /** Every root's cycle is a non-empty run of strictly later months. */
  lemma CycleAscends(root: string)
    ensures CycleOf(root).Some? ==> |root| > 0 && MonthsAscend(CycleOf(root).value)
  {
    QuarterlyAscends();
    MonthlyAscends();
    BiMonthlyAscends();
    HknuzAscends();
    forall i: nat | i < CYCLE_ROOTS ensures |RootCycle(i).0| > 0 && MonthsAscend(RootCycle(i).1) {
      KnownCycles(i);
    }
    CycleFound(root, CYCLE_ROOTS);
  }

  // ---------------------------------------------------------------------------------------------
  // The cycle as a line of contracts
  // ---------------------------------------------------------------------------------------------

  /** Year and month code of the `j`-th contract from the start of `year`. */
  function CycleYear(cycle: string, year: int, j: int): int
    requires |cycle| > 0
  {
    year + j / |cycle|
  }

  function CycleCode(cycle: string, j: int): char
    requires |cycle| > 0
  {
    cycle[j % |cycle|]
  }

  function CycleSymbol(root: string, cycle: string, year: int, j: int): string
    requires |cycle| > 0
  {
    Format(root, CycleCode(cycle, j), CycleYear(cycle, year, j))
  }

  lemma NextPosition(n: int, j: int)
    requires n > 0
    ensures if j % n + 1 < n then (j + 1) / n == j / n && (j + 1) % n == j % n + 1
            else (j + 1) / n == j / n + 1 && (j + 1) % n == 0
  {
    var q, r := j / n, j % n;
    assert j == n * q + r;
    if r + 1 < n {
      DivisionUnique(j + 1, n, q, r + 1);
    } else {
      assert j + 1 == n * (q + 1) + 0;
      DivisionUnique(j + 1, n, q + 1, 0);
    }
  }

  lemma DivisionUnique(x: int, n: int, q: int, r: int)
    requires n > 0 && 0 <= r < n && x == n * q + r
    ensures x / n == q && x % n == r
  {
    var d := x / n - q;
    assert x == n * (x / n) + x % n;
    assert n * d == r - x % n;
    DivisionGap(n, d);
  }

  lemma DivisionGap(n: int, d: int)
    requires n > 0
    ensures d >= 1 ==> n * d >= n
    ensures d <= -1 ==> n * d <= -n
  {
    if d >= 1 {
      assert n * (d - 1) >= 0;
    } else if d <= -1 {
      assert n * (-d - 1) >= 0;
    }
  }

  /** The next contract is the next one along the cycle, as long as its year can be named. */
  lemma NextIsSuccessor(root: string, year: int, j: nat)
    requires CycleOf(root).Some? && |CycleOf(root).value| > 0
    requires Representable(CycleYear(CycleOf(root).value, year, j))
    ensures var cycle := CycleOf(root).value;
            NextContract(CycleSymbol(root, cycle, year, j)) == Success(CycleSymbol(root, cycle, year, j + 1))
  {
    var cycle := CycleOf(root).value;
    CycleAscends(root);
    FormatParses(root, CycleCode(cycle, j), CycleYear(cycle, year, j));
    FindDistinct(cycle, j % |cycle|);
    NextPosition(|cycle|, j);
  }

  /** Past 2049 the next symbol no longer names the next contract: it reads as a century earlier. */
  lemma NextWraps(root: string)
    requires CycleOf(root).Some? && |CycleOf(root).value| > 0
    ensures var cycle := CycleOf(root).value;
            var next := NextContract(Format(root, cycle[|cycle| - 1], 2049));
            next.Success? && Parse(next.value) == Success(Parsed(root, cycle[0], 1950))
  {
    var cycle := CycleOf(root).value;
    CycleAscends(root);
    FormatParses(root, cycle[|cycle| - 1], 2049);
    FindDistinct(cycle, |cycle| - 1);
    FormatParses(root, cycle[0], 1950);
    assert Format(root, cycle[0], 2050) == Format(root, cycle[0], 1950);
  }
}
