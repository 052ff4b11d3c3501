/** The unadjusted continuous-contract stitcher: futur3/data/continuous.py. */
module Continuous {
  import opened Wrappers
  import opened Contracts
  import opened Broker
  import opened Backtest
  import opened Sorting

  datatype Error =
    | NoBars
    | WrongRoot
    | NotInCalendar
    | NothingInWindow
    | ForeignSymbol
    | FrontGap
    | BackGap
    | FlagsMismatch
    | FirstFlagSet
    | EventsMismatch
    | NotIncreasing
    | ZeroSettle

  datatype Series = Series(bars: seq<Bar>, events: seq<RollEvent>, flags: seq<bool>)

  /** Raw bars by contract, in the mapping's order, with each contract's roll target day. */
  datatype Input = Input(order: seq<Contract>, bars: map<Contract, seq<Bar>>, calendar: map<Contract, int>, root: string) {
    predicate Valid() {
      (forall i | 0 <= i < |order| :: order[i] in bars) && forall i, j | 0 <= i < j < |order| :: order[i] != order[j]
    }

    function BarsOf(c: Contract): seq<Bar> {
      if c in bars then bars[c] else []
    }

    function Target(c: Contract): int {
      if c in calendar then calendar[c] else 0
    }
  }

  function Present(input: Input, n: nat): (r: seq<Contract>)
    requires n <= |input.order|
    ensures forall c :: c in r <==> c in input.order[..n] && |input.BarsOf(c)| > 0
  {
    if n == 0 then []
    else
      assert input.order[..n] == input.order[..n - 1] + [input.order[n - 1]];
      Present(input, n - 1) + if |input.BarsOf(input.order[n - 1])| > 0 then [input.order[n - 1]] else []
  }

  predicate InWindow(day: int, start: Option<int>, end: int) {
    (start.None? || day >= start.value) && day < end
  }

  function Select(bars: seq<Bar>, start: Option<int>, end: int): (r: seq<Bar>)
    ensures forall b :: b in r <==> b in bars && InWindow(Day(b.ts), start, end)
  {
    if |bars| == 0 then []
    else
      var last := bars[|bars| - 1];
      assert bars == bars[..|bars| - 1] + [last];
      Select(bars[..|bars| - 1], start, end) + if InWindow(Day(last.ts), start, end) then [last] else []
  }

  function Stamp(b: Bar): int {
    b.ts
  }

  /** The active window of the `i`-th contract of the chain, in time order. */
  function Window(input: Input, chain: seq<Contract>, i: nat): seq<Bar>
    requires i < |chain|
  {
    SortBy(Stamp, Select(input.BarsOf(chain[i]), StartOf(input, chain, i), input.Target(chain[i])))
  }

  function StartOf(input: Input, chain: seq<Contract>, i: nat): Option<int>
    requires i < |chain|
  {
    if i == 0 then None else Some(input.Target(chain[i - 1]))
  }

  function Splice(input: Input, chain: seq<Contract>, n: nat): seq<Bar>
    requires n <= |chain|
  {
    if n == 0 then [] else Splice(input, chain, n - 1) + Window(input, chain, n - 1)
  }

  // ---------------------------------------------------------------------------------------------
  // Roll events
  // ---------------------------------------------------------------------------------------------

  /** The latest bar on or before `day`; of several on one day, the first listed. */
  function OnOrBefore(bars: seq<Bar>, day: int): Option<Bar> {
    if |bars| == 0 then None
    else
      var best, b := OnOrBefore(bars[..|bars| - 1], day), bars[|bars| - 1];
      if Day(b.ts) <= day && (best.None? || Day(b.ts) > Day(best.value.ts)) then Some(b) else best
  }

  /** The earliest bar on or after `day`; of several on one day, the first listed. */
  function OnOrAfter(bars: seq<Bar>, day: int): Option<Bar> {
    if |bars| == 0 then None
    else
      var best, b := OnOrAfter(bars[..|bars| - 1], day), bars[|bars| - 1];
      if Day(b.ts) >= day && (best.None? || Day(b.ts) < Day(best.value.ts)) then Some(b) else best
  }

  function MakeRollEvent(input: Input, chain: seq<Contract>, front: Contract, back: Contract): Result<RollEvent, Error> {
    if front !in chain || back !in chain then Failure(ForeignSymbol)
    else
      var rollDate := input.Target(front);
      var frontBar, backBar := OnOrBefore(input.BarsOf(front), rollDate), OnOrAfter(input.BarsOf(back), rollDate);
      if frontBar.None? then Failure(FrontGap)
      else if backBar.None? then Failure(BackGap)
      else Success(RollEvent(rollDate, front, back, frontBar.value.close, backBar.value.close))
  }

  /** Flag and event for each bar of the first `n`: a roll wherever the contract changes. */
  function Rolls(input: Input, chain: seq<Contract>, bars: seq<Bar>, n: nat): (r: Result<(seq<bool>, seq<RollEvent>), Error>)
    requires 1 <= n <= |bars|
    ensures r.Success? ==> |r.value.0| == n
  {
    if n == 1 then Success(([false], []))
    else
      var done :- Rolls(input, chain, bars, n - 1);
      var changed := bars[n - 1].contract != bars[n - 2].contract;
      if !changed then Success((done.0 + [false], done.1))
      else
        var e :- MakeRollEvent(input, chain, bars[n - 2].contract, bars[n - 1].contract);
        Success((done.0 + [true], done.1 + [e]))
  }

  function CountTrue(flags: seq<bool>): nat {
    if |flags| == 0 then 0 else CountTrue(flags[..|flags| - 1]) + if flags[|flags| - 1] then 1 else 0
  }

  predicate Increasing(bars: seq<Bar>) {
    forall i | 0 <= i < |bars| - 1 :: bars[i].ts < bars[i + 1].ts
  }

  /** The checks the series record makes of itself. */
  function Construct(bars: seq<Bar>, events: seq<RollEvent>, flags: seq<bool>): Result<Series, Error> {
    if |bars| == 0 then Failure(NoBars)
    else if |bars| != |flags| then Failure(FlagsMismatch)
    else if flags[0] then Failure(FirstFlagSet)
    else if CountTrue(flags) != |events| then Failure(EventsMismatch)
    else if !Increasing(bars) then Failure(NotIncreasing)
    else Success(Series(bars, events, flags))
  }

  // ---------------------------------------------------------------------------------------------
  // Build
  // ---------------------------------------------------------------------------------------------

  /** Why a build is refused before splicing. */
  function Refusal(input: Input): Option<Error> {
    var present := Present(input, |input.order|);
    if |present| == 0 then Some(NoBars)
    else if exists i :: 0 <= i < |present| && !(input.root <= present[i]) then Some(WrongRoot)
    else if exists i :: 0 <= i < |present| && present[i] !in input.calendar then Some(NotInCalendar)
    else None
  }

  function Chain(input: Input): seq<Contract> {
    SortBy(c => input.Target(c), Present(input, |input.order|))
  }

  function Spliced(input: Input): seq<Bar> {
    Splice(input, Chain(input), |Chain(input)|)
  }

  function BuildSpec(input: Input): Result<Series, Error> {
    if Refusal(input).Some? then Failure(Refusal(input).value)
    else
      var bars := Spliced(input);
      if |bars| == 0 then Failure(NothingInWindow)
      else Assemble(input, Chain(input), bars)
  }

  function Assemble(input: Input, chain: seq<Contract>, bars: seq<Bar>): Result<Series, Error>
    requires |bars| > 0
  {
    var rolls :- Rolls(input, chain, bars, |bars|);
    Construct(bars, rolls.1, rolls.0)
  }

  method PresentContracts(input: Input) returns (present: seq<Contract>)
    requires input.Valid()
    ensures present == Present(input, |input.order|)
  {
    present := [];
    for i := 0 to |input.order|
      invariant present == Present(input, i)
    {
      if |input.bars[input.order[i]]| > 0 {
        present := present + [input.order[i]];
      }
    }
  }

  method Build(input: Input) returns (r: Result<Series, Error>)
    requires input.Valid()
    ensures r == BuildSpec(input)
  {
    var present := PresentContracts(input);
    if Refusal(input).Some? {
      return Failure(Refusal(input).value);
    }
    var chain := SortBy(c => input.Target(c), present);
    assert chain == Chain(input);
    var spliced := SpliceWindows(input, chain);
    if |spliced| == 0 {
      return Failure(NothingInWindow);
    }
    var rolls := FindRolls(input, chain, spliced);
    if rolls.Failure? {
      return Failure(rolls.error);
    }
    r := Construct(spliced, rolls.value.1, rolls.value.0);
  }

  method SpliceWindows(input: Input, chain: seq<Contract>) returns (spliced: seq<Bar>)
    ensures spliced == Splice(input, chain, |chain|)
  {
    spliced := [];
    for i := 0 to |chain|
      invariant spliced == Splice(input, chain, i)
    {
      var selected := SelectWindow(input.BarsOf(chain[i]), StartOf(input, chain, i), input.Target(chain[i]));
      spliced := spliced + SortBy(Stamp, selected);
    }
  }

  method FindRolls(input: Input, chain: seq<Contract>, spliced: seq<Bar>) returns (r: Result<(seq<bool>, seq<RollEvent>), Error>)
    requires |spliced| > 0
    ensures r == Rolls(input, chain, spliced, |spliced|)
  {
    var flags, events := [false], [];
    for i := 1 to |spliced|
      invariant Rolls(input, chain, spliced, i) == Success((flags, events))
    {
      var changed := spliced[i].contract != spliced[i - 1].contract;
      flags := flags + [changed];
      if changed {
        var e := RollEventFor(input, chain, spliced[i - 1].contract, spliced[i].contract);
        if e.Failure? {
          RollsStopped(input, chain, spliced, i + 1, |spliced|);
          return Failure(e.error);
        }
        events := events + [e.value];
      }
    }
    r := Success((flags, events));
  }

  method SelectWindow(bars: seq<Bar>, start: Option<int>, end: int) returns (r: seq<Bar>)
    ensures r == Select(bars, start, end)
  {
    r := [];
    for i := 0 to |bars|
      invariant r == Select(bars[..i], start, end)
    {
      assert bars[..i + 1][..i] == bars[..i];
      if InWindow(Day(bars[i].ts), start, end) {
        r := r + [bars[i]];
      }
    }
    assert bars[..|bars|] == bars;
  }

  method RollEventFor(input: Input, chain: seq<Contract>, front: Contract, back: Contract) returns (r: Result<RollEvent, Error>)
    ensures r == MakeRollEvent(input, chain, front, back)
  {
    if front !in chain || back !in chain {
      return Failure(ForeignSymbol);
    }
    var rollDate := input.Target(front);
    var frontBar := LatestOnOrBefore(input.BarsOf(front), rollDate);
    var backBar := EarliestOnOrAfter(input.BarsOf(back), rollDate);
    if frontBar.None? {
      return Failure(FrontGap);
    }
    if backBar.None? {
      return Failure(BackGap);
    }
    r := Success(RollEvent(rollDate, front, back, frontBar.value.close, backBar.value.close));
  }

  method LatestOnOrBefore(bars: seq<Bar>, day: int) returns (best: Option<Bar>)
    ensures best == OnOrBefore(bars, day)
  {
    best := None;
    for i := 0 to |bars|
      invariant best == OnOrBefore(bars[..i], day)
    {
      assert bars[..i + 1][..i] == bars[..i];
      if Day(bars[i].ts) <= day && (best.None? || Day(bars[i].ts) > Day(best.value.ts)) {
        best := Some(bars[i]);
      }
    }
    assert bars[..|bars|] == bars;
  }

  method EarliestOnOrAfter(bars: seq<Bar>, day: int) returns (best: Option<Bar>)
    ensures best == OnOrAfter(bars, day)
  {
    best := None;
    for i := 0 to |bars|
      invariant best == OnOrAfter(bars[..i], day)
    {
      assert bars[..i + 1][..i] == bars[..i];
      if Day(bars[i].ts) >= day && (best.None? || Day(bars[i].ts) < Day(best.value.ts)) {
        best := Some(bars[i]);
      }
    }
    assert bars[..|bars|] == bars;
  }

  lemma {:induction false} RollsStopped(input: Input, chain: seq<Contract>, bars: seq<Bar>, k: nat, n: nat)
    requires 1 <= k <= n <= |bars| && Rolls(input, chain, bars, k).Failure?
    ensures Rolls(input, chain, bars, n) == Rolls(input, chain, bars, k)
    decreases n
  {
    if k < n {
      RollsStopped(input, chain, bars, k, n - 1);
    }
  }

  // ---------------------------------------------------------------------------------------------
  // What a built series is
  // ---------------------------------------------------------------------------------------------

  /** Each contract's bars carry its symbol and have distinct timestamps. */
  ghost predicate Clean(input: Input) {
    input.Valid() && forall c | c in input.bars ::
      (forall b | b in input.bars[c] :: b.contract == c) && DistinctKeys(Stamp, input.bars[c])
  }

  lemma {:induction false} SelectDistinct(bars: seq<Bar>, start: Option<int>, end: int)
    requires DistinctKeys(Stamp, bars)
    ensures DistinctKeys(Stamp, Select(bars, start, end))
  {
    if |bars| > 0 {
      var t := bars[..|bars| - 1];
      SelectDistinct(t, start, end);
      var r := Select(t, start, end);
      forall i | 0 <= i < |r| ensures Stamp(r[i]) != Stamp(bars[|bars| - 1]) {
        assert r[i] in r;
      }
    }
  }

  lemma WindowIs(input: Input, chain: seq<Contract>, i: nat, b: Bar)
    requires i < |chain|
    ensures b in Window(input, chain, i)
            <==> b in input.BarsOf(chain[i]) && InWindow(Day(b.ts), StartOf(input, chain, i), input.Target(chain[i]))
  {
    SortMembers(Stamp, Select(input.BarsOf(chain[i]), StartOf(input, chain, i), input.Target(chain[i])), b);
  }

  lemma WindowAscends(input: Input, chain: seq<Contract>, i: nat)
    requires Clean(input) && i < |chain|
    ensures StrictlyAscending(Stamp, Window(input, chain, i))
  {
    var bars := input.BarsOf(chain[i]);
    SelectDistinct(bars, StartOf(input, chain, i), input.Target(chain[i]));
    SortAscending(Stamp, Select(bars, StartOf(input, chain, i), input.Target(chain[i])));
  }

  /** `b` lies in the window of one of the first `n` contracts of the chain. */
  ghost predicate Active(input: Input, chain: seq<Contract>, n: nat, b: Bar)
    requires n <= |chain|
  {
    exists i :: 0 <= i < n && ActiveAt(input, chain, i, b)
  }

  predicate ActiveAt(input: Input, chain: seq<Contract>, i: nat, b: Bar)
    requires i < |chain|
  {
    b in input.BarsOf(chain[i]) && InWindow(Day(b.ts), StartOf(input, chain, i), input.Target(chain[i]))
  }

  ghost predicate ChainOrdered(input: Input, chain: seq<Contract>) {
    Ascending(c => input.Target(c), chain)
  }

  lemma ActiveStep(input: Input, chain: seq<Contract>, n: nat, b: Bar)
    requires 0 < n <= |chain|
    ensures Active(input, chain, n, b) <==> Active(input, chain, n - 1, b) || b in Window(input, chain, n - 1)
  {
    WindowIs(input, chain, n - 1, b);
    assert ActiveAt(input, chain, n - 1, b) <==> b in Window(input, chain, n - 1);
  }

  lemma {:induction false} SpliceHolds(input: Input, chain: seq<Contract>, n: nat, b: Bar)
    requires n <= |chain|
    ensures b in Splice(input, chain, n) <==> Active(input, chain, n, b)
  {
    if n > 0 {
      SpliceHolds(input, chain, n - 1, b);
      ActiveStep(input, chain, n, b);
    }
  }

  /** Splicing in roll order keeps the stream strictly increasing in time. */
  lemma {:induction false} SpliceAscends(input: Input, chain: seq<Contract>, n: nat)
    requires Clean(input) && ChainOrdered(input, chain) && n <= |chain|
    ensures StrictlyAscending(Stamp, Splice(input, chain, n))
    ensures n > 0 ==> EndsBefore(Splice(input, chain, n), input.Target(chain[n - 1]))
  {
    if n > 0 {
      SpliceAscends(input, chain, n - 1);
      WindowAscends(input, chain, n - 1);
      WindowBounds(input, chain, n - 1);
      if n > 1 {
        assert input.Target(chain[n - 2]) <= input.Target(chain[n - 1]);
        AppendAscends(Splice(input, chain, n - 1), Window(input, chain, n - 1), input.Target(chain[n - 2]));
        AppendEnds(Splice(input, chain, n - 1), Window(input, chain, n - 1), input.Target(chain[n - 2]), input.Target(chain[n - 1]));
      }
    }
  }

  lemma AppendEnds(before: seq<Bar>, window: seq<Bar>, day: int, later: int)
    requires EndsBefore(before, day) && day <= later && EndsBefore(window, later)
    ensures EndsBefore(before + window, later)
  {
  }

  ghost predicate EndsBefore(bars: seq<Bar>, day: int) {
    forall i | 0 <= i < |bars| :: Day(bars[i].ts) < day
  }

  ghost predicate StartsFrom(bars: seq<Bar>, day: int) {
    forall i | 0 <= i < |bars| :: Day(bars[i].ts) >= day
  }

  lemma WindowBounds(input: Input, chain: seq<Contract>, i: nat)
    requires i < |chain|
    ensures EndsBefore(Window(input, chain, i), input.Target(chain[i]))
    ensures i > 0 ==> StartsFrom(Window(input, chain, i), input.Target(chain[i - 1]))
  {
    var window := Window(input, chain, i);
    forall j | 0 <= j < |window| ensures InWindow(Day(window[j].ts), StartOf(input, chain, i), input.Target(chain[i])) {
      WindowIs(input, chain, i, window[j]);
    }
  }

  lemma AppendAscends(before: seq<Bar>, window: seq<Bar>, day: int)
    requires StrictlyAscending(Stamp, before) && StrictlyAscending(Stamp, window)
    requires EndsBefore(before, day) && StartsFrom(window, day)
    ensures StrictlyAscending(Stamp, before + window)
  {
    forall i, j | 0 <= i < |before| && 0 <= j < |window| ensures before[i].ts < window[j].ts {
      assert Day(before[i].ts) < Day(window[j].ts);
    }
  }

  lemma ChainFacts(input: Input)
    ensures ChainOrdered(input, Chain(input))
    ensures forall c :: c in Chain(input) <==> c in input.order && |input.BarsOf(c)| > 0
  {
    var present := Present(input, |input.order|);
    SortAscending(c => input.Target(c), present);
    forall c ensures c in Chain(input) <==> c in input.order && |input.BarsOf(c)| > 0 {
      SortMembers(c => input.Target(c), present, c);
      assert input.order[..|input.order|] == input.order;
    }
  }

  // ---------------------------------------------------------------------------------------------
  // Transitions
  // ---------------------------------------------------------------------------------------------

  function Repeat(i: nat, k: nat): (r: seq<nat>)
    ensures |r| == k && forall p | 0 <= p < k :: r[p] == i
  {
    if k == 0 then [] else Repeat(i, k - 1) + [i]
  }

  /** A spliced bar carries its contract's symbol and sits in its window. */
  ghost predicate Owned(input: Input, chain: seq<Contract>, b: Bar, i: nat)
    requires i < |chain|
  {
    b.contract == chain[i] && b in input.BarsOf(chain[i]) && InWindow(Day(b.ts), StartOf(input, chain, i), input.Target(chain[i]))
  }

  /** Each bar's owner in the chain, never going back. */
  ghost predicate WellOwned(input: Input, chain: seq<Contract>, bars: seq<Bar>, owners: seq<nat>) {
    && |owners| == |bars| && (forall p | 0 <= p < |bars| :: owners[p] < |chain| && Owned(input, chain, bars[p], owners[p]))
    && forall p, q | 0 <= p < q < |bars| :: owners[p] <= owners[q]
  }

  function Join(windows: seq<seq<Bar>>): seq<Bar> {
    if |windows| == 0 then [] else Join(windows[..|windows| - 1]) + windows[|windows| - 1]
  }

  /** Which contract of the chain each joined bar came from. */
  lemma {:induction false} JoinOwned(input: Input, chain: seq<Contract>, windows: seq<seq<Bar>>) returns (owners: seq<nat>)
    requires |windows| <= |chain| && forall i | 0 <= i < |windows| :: AllOwned(input, chain, windows[i], i)
    ensures WellOwned(input, chain, Join(windows), owners)
    ensures forall p | 0 <= p < |owners| :: owners[p] < |windows|
  {
    owners := [];
    if |windows| > 0 {
      var n := |windows| - 1;
      owners := JoinOwned(input, chain, windows[..n]);
      owners := WindowJoins(input, chain, Join(windows[..n]), owners, windows[n], n);
    }
  }

  lemma {:induction false} SpliceIsJoin(input: Input, chain: seq<Contract>, n: nat) returns (windows: seq<seq<Bar>>)
    requires n <= |chain|
    ensures |windows| == n && Join(windows) == Splice(input, chain, n)
    ensures forall i | 0 <= i < n :: windows[i] == Window(input, chain, i)
  {
    windows := [];
    if n > 0 {
      var before := SpliceIsJoin(input, chain, n - 1);
      windows := before + [Window(input, chain, n - 1)];
      assert windows[..n - 1] == before;
    }
  }

  ghost predicate AllOwned(input: Input, chain: seq<Contract>, bars: seq<Bar>, i: nat)
    requires i < |chain|
  {
    forall j | 0 <= j < |bars| :: Owned(input, chain, bars[j], i)
  }

  lemma WindowOwned(input: Input, chain: seq<Contract>, i: nat)
    requires Clean(input) && i < |chain|
    ensures AllOwned(input, chain, Window(input, chain, i), i)
  {
    var window := Window(input, chain, i);
    forall j | 0 <= j < |window| ensures Owned(input, chain, window[j], i) {
      WindowIs(input, chain, i, window[j]);
    }
  }

  /** A later contract's bars join at the end. */
  lemma WindowJoins(input: Input, chain: seq<Contract>, bars: seq<Bar>, owners: seq<nat>, window: seq<Bar>, i: nat) returns (joined: seq<nat>)
    requires i < |chain| && WellOwned(input, chain, bars, owners) && forall p | 0 <= p < |owners| :: owners[p] < i
    requires AllOwned(input, chain, window, i)
    ensures WellOwned(input, chain, bars + window, joined) && forall p | 0 <= p < |joined| :: joined[p] < i + 1
  {
    var more := Repeat(i, |window|);
    joined := owners + more;
    forall p | 0 <= p < |bars + window| ensures joined[p] < |chain| && Owned(input, chain, (bars + window)[p], joined[p]) {
      if p >= |bars| {
        assert (bars + window)[p] == window[p - |bars|] && joined[p] == i;
      }
    }
  }

  lemma {:induction false} BeforeFound(bars: seq<Bar>, day: int, b: Bar)
    requires b in bars && Day(b.ts) <= day
    ensures OnOrBefore(bars, day).Some?
  {
    if b != bars[|bars| - 1] {
      BeforeFound(bars[..|bars| - 1], day, b);
    }
  }

  lemma {:induction false} AfterFound(bars: seq<Bar>, day: int, b: Bar)
    requires b in bars && Day(b.ts) >= day
    ensures OnOrAfter(bars, day).Some? && day <= Day(OnOrAfter(bars, day).value.ts) <= Day(b.ts) && OnOrAfter(bars, day).value in bars
  {
    var t := bars[..|bars| - 1];
    assert bars == t + [bars[|bars| - 1]];
    if b in t {
      AfterFound(t, day, b);
    } else if OnOrAfter(t, day).Some? {
      AfterMember(t, day);
    }
  }

  lemma {:induction false} AfterMember(bars: seq<Bar>, day: int)
    requires OnOrAfter(bars, day).Some?
    ensures OnOrAfter(bars, day).value in bars && Day(OnOrAfter(bars, day).value.ts) >= day
  {
    var t := bars[..|bars| - 1];
    assert bars == t + [bars[|bars| - 1]];
    if OnOrAfter(t, day).Some? {
      AfterMember(t, day);
    }
  }

  /** At every change of contract both settles exist: the front has earlier bars, the back later ones. */
  lemma TransitionHasEvent(input: Input, chain: seq<Contract>, f: nat, k: nat, last: Bar, first: Bar)
    requires ChainOrdered(input, chain) && f < k < |chain|
    requires Owned(input, chain, last, f) && Owned(input, chain, first, k)
    ensures MakeRollEvent(input, chain, chain[f], chain[k]).Success?
    ensures Day(first.ts) >= input.Target(chain[f])
  {
    assert input.Target(chain[f]) <= input.Target(chain[k - 1]);
    BeforeFound(input.BarsOf(chain[f]), input.Target(chain[f]), last);
    AfterFound(input.BarsOf(chain[k]), input.Target(chain[f]), first);
  }

  lemma SplicedOwned(input: Input, chain: seq<Contract>) returns (owners: seq<nat>)
    requires Clean(input)
    ensures WellOwned(input, chain, Splice(input, chain, |chain|), owners)
  {
    var windows := SpliceIsJoin(input, chain, |chain|);
    forall i | 0 <= i < |windows| ensures AllOwned(input, chain, windows[i], i) {
      WindowOwned(input, chain, i);
    }
    owners := JoinOwned(input, chain, windows);
  }

  /** Two neighbours: the same contract, or a transition that has its event. */
  lemma Neighbours(input: Input, chain: seq<Contract>, bars: seq<Bar>, owners: seq<nat>, n: nat)
    requires ChainOrdered(input, chain) && WellOwned(input, chain, bars, owners) && 1 <= n < |bars| && bars[n].contract != bars[n - 1].contract
    ensures MakeRollEvent(input, chain, bars[n - 1].contract, bars[n].contract).Success?
    ensures input.Target(bars[n - 1].contract) <= Day(bars[n].ts) < input.Target(bars[n].contract)
    ensures bars[n].contract in chain
  {
    assert Owned(input, chain, bars[n - 1], owners[n - 1]) && Owned(input, chain, bars[n], owners[n]);
    TransitionHasEvent(input, chain, owners[n - 1], owners[n], bars[n - 1], bars[n]);
  }

  function EventAt(input: Input, chain: seq<Contract>, bars: seq<Bar>, n: nat): Result<RollEvent, Error>
    requires 1 <= n < |bars|
  {
    MakeRollEvent(input, chain, bars[n - 1].contract, bars[n].contract)
  }

  lemma TransitionsHaveEvents(input: Input, chain: seq<Contract>, bars: seq<Bar>, owners: seq<nat>)
    requires ChainOrdered(input, chain) && WellOwned(input, chain, bars, owners)
    ensures forall n | 1 <= n < |bars| && bars[n].contract != bars[n - 1].contract :: EventAt(input, chain, bars, n).Success?
  {
    forall n | 1 <= n < |bars| && bars[n].contract != bars[n - 1].contract ensures EventAt(input, chain, bars, n).Success? {
      Neighbours(input, chain, bars, owners, n);
    }
  }

  lemma {:induction false} RollsSucceed(input: Input, chain: seq<Contract>, bars: seq<Bar>, n: nat)
    requires 1 <= n <= |bars|
    requires forall k | 1 <= k < |bars| && bars[k].contract != bars[k - 1].contract :: EventAt(input, chain, bars, k).Success?
    ensures Rolls(input, chain, bars, n).Success?
  {
    if n > 1 {
      RollsSucceed(input, chain, bars, n - 1);
      assert bars[n - 1].contract != bars[n - 2].contract ==> EventAt(input, chain, bars, n - 1).Success?;
    }
  }

  lemma CountTrueAppend(flags: seq<bool>, f: bool)
    ensures CountTrue(flags + [f]) == CountTrue(flags) + if f then 1 else 0
  {
    assert (flags + [f])[..|flags|] == flags;
  }

  /** One flag per bar, set exactly at the changes of contract, and one event per flag. */
  ghost predicate Flagged(bars: seq<Bar>, flags: seq<bool>, events: seq<RollEvent>, n: nat)
    requires 1 <= n <= |bars|
  {
    && |flags| == n && CountTrue(flags) == |events| && !flags[0]
    && forall i | 0 < i < n :: flags[i] <==> bars[i].contract != bars[i - 1].contract
  }

  lemma FlagOneMore(bars: seq<Bar>, flags: seq<bool>, events: seq<RollEvent>, n: nat, more: seq<RollEvent>)
    requires 2 <= n <= |bars| && Flagged(bars, flags, events, n - 1)
    requires |more| == if bars[n - 1].contract != bars[n - 2].contract then 1 else 0
    ensures Flagged(bars, flags + [bars[n - 1].contract != bars[n - 2].contract], events + more, n)
  {
    CountTrueAppend(flags, bars[n - 1].contract != bars[n - 2].contract);
  }

  /** What one more bar adds: its flag, and an event when the contract changed. */
  lemma RollsLast(input: Input, chain: seq<Contract>, bars: seq<Bar>, n: nat) returns (more: seq<RollEvent>)
    requires 2 <= n <= |bars| && Rolls(input, chain, bars, n).Success?
    ensures Rolls(input, chain, bars, n - 1).Success?
    ensures Rolls(input, chain, bars, n).value.0 == Rolls(input, chain, bars, n - 1).value.0 + [bars[n - 1].contract != bars[n - 2].contract]
    ensures Rolls(input, chain, bars, n).value.1 == Rolls(input, chain, bars, n - 1).value.1 + more
    ensures if bars[n - 1].contract == bars[n - 2].contract then more == []
            else |more| == 1 && EventAt(input, chain, bars, n - 1) == Success(more[0])
  {
    var events := Rolls(input, chain, bars, n - 1).value.1;
    more := if bars[n - 1].contract == bars[n - 2].contract then [] else [EventAt(input, chain, bars, n - 1).value];
    assert events + [] == events;
  }

  lemma {:induction false} FlagsCountEvents(input: Input, chain: seq<Contract>, bars: seq<Bar>, n: nat)
    requires 1 <= n <= |bars| && Rolls(input, chain, bars, n).Success?
    ensures var r := Rolls(input, chain, bars, n).value; Flagged(bars, r.0, r.1, n)
  {
    if n == 1 {
      CountTrueAppend([], false);
      assert [] + [false] == [false];
    } else {
      var more := RollsLast(input, chain, bars, n);
      FlagsCountEvents(input, chain, bars, n - 1);
      var r := Rolls(input, chain, bars, n - 1).value;
      FlagOneMore(bars, r.0, r.1, n, more);
    }
  }

  lemma SplicedHolds(input: Input)
    ensures forall b :: b in Spliced(input) <==> Active(input, Chain(input), |Chain(input)|, b)
  {
    forall b ensures b in Spliced(input) <==> Active(input, Chain(input), |Chain(input)|, b) {
      SpliceHolds(input, Chain(input), |Chain(input)|, b);
    }
  }

  /** On clean data neither a gap error nor a check of the series record can fire. */
  lemma SplicedBuilds(input: Input)
    requires Clean(input) && Refusal(input).None? && |Spliced(input)| > 0
    ensures BuildSpec(input).Success?
    ensures BuildSpec(input).value.bars == Spliced(input)
    ensures Rolls(input, Chain(input), Spliced(input), |Spliced(input)|) == Success((BuildSpec(input).value.flags, BuildSpec(input).value.events))
  {
    ChainFacts(input);
    AssembleSucceeds(input, Chain(input));
  }

  lemma AssembleSucceeds(input: Input, chain: seq<Contract>)
    requires Clean(input) && ChainOrdered(input, chain) && |Splice(input, chain, |chain|)| > 0
    ensures var bars := Splice(input, chain, |chain|);
            && Assemble(input, chain, bars).Success? && Assemble(input, chain, bars).value.bars == bars
            && Rolls(input, chain, bars, |bars|) == Success((Assemble(input, chain, bars).value.flags, Assemble(input, chain, bars).value.events))
  {
    var bars := Splice(input, chain, |chain|);
    var owners := SplicedOwned(input, chain);
    TransitionsHaveEvents(input, chain, bars, owners);
    RollsSucceed(input, chain, bars, |bars|);
    FlagsCountEvents(input, chain, bars, |bars|);
    SpliceAscends(input, chain, |chain|);
    AscendingIncreases(bars);
  }

  lemma AscendingIncreases(bars: seq<Bar>)
    requires StrictlyAscending(Stamp, bars)
    ensures Increasing(bars)
  {
    assert forall i | 0 <= i < |bars| - 1 :: Stamp(bars[i]) < Stamp(bars[i + 1]);
  }

  /** On clean data a build fails only for the stated refusals or an empty splice. */
  lemma BuildSucceeds(input: Input)
    requires Clean(input)
    ensures BuildSpec(input).Success? <==> Refusal(input).None? && exists b :: Active(input, Chain(input), |Chain(input)|, b)
    ensures BuildSpec(input).Failure? && Refusal(input).None? ==> BuildSpec(input).error == NothingInWindow
  {
    SplicedSome(input);
    if Refusal(input).None? && |Spliced(input)| > 0 {
      SplicedBuilds(input);
    }
  }

  lemma SplicedSome(input: Input)
    ensures |Spliced(input)| > 0 <==> exists b :: Active(input, Chain(input), |Chain(input)|, b)
  {
    SplicedHolds(input);
    if |Spliced(input)| > 0 {
      assert Spliced(input)[0] in Spliced(input);
    }
  }

  /** A built series is strictly increasing, holds exactly the bars inside their contract's window,
    * and flags exactly the changes of contract, one event each. */
  lemma BuiltSeries(input: Input)
    requires Clean(input) && BuildSpec(input).Success?
    ensures var s := BuildSpec(input).value;
            && StrictlyAscending(Stamp, s.bars) && (forall b :: b in s.bars <==> Active(input, Chain(input), |Chain(input)|, b))
            && |s.bars| > 0 && Flagged(s.bars, s.flags, s.events, |s.bars|)
  {
    SplicedBuilds(input);
    ChainFacts(input);
    SpliceAscends(input, Chain(input), |Chain(input)|);
    FlagsCountEvents(input, Chain(input), Spliced(input), |Spliced(input)|);
    SplicedHolds(input);
  }
}
