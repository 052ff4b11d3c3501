/** The Romano-Wolf stepdown: futur3/stats/romano_wolf.py.
  *
  * The studentized statistics and their bootstrap matrix are given; the loop over them is the model.
  */
module RomanoWolf {
  import opened Wrappers
  import opened Ranking

  const MIN_BOOTSTRAP := 1000

  /** Observed statistics, which strategies have variance, and one row of statistics per draw. */
  datatype Stats = Stats(tObs: seq<real>, valid: seq<bool>, tstar: seq<seq<real>>) {
    predicate Shaped() {
      && |valid| == |tObs|
      && (forall b | 0 <= b < |tstar| :: |tstar[b]| == |tObs|)
      && forall k | 0 <= k < |tObs| :: !valid[k] ==> tObs[k] == 0.0
    }
  }

  datatype Outcome = Outcome(adjusted: seq<real>, reject: seq<bool>)

  function UpTo(n: nat): (r: set<nat>)
    ensures forall k: nat :: k in r <==> k < n
  {
    if n == 0 then {} else UpTo(n - 1) + {n - 1}
  }

  function Everyone(s: Stats): set<nat> {
    UpTo(|s.tObs|)
  }

  predicate Within(family: set<nat>, n: nat) {
    forall k | k in family :: k < n
  }

  /** The largest statistic of the family's valid members reaches `t`; with no valid member it is zero. */
  ghost predicate Exceeds(s: Stats, row: seq<real>, family: set<nat>, t: real)
    requires s.Shaped() && |row| == |s.tObs| && Within(family, |row|)
  {
    if exists k :: k in family && s.valid[k] then exists k :: k in family && s.valid[k] && row[k] >= t
    else 0.0 >= t
  }

  ghost function CountExceeding(s: Stats, family: set<nat>, t: real, rows: nat): nat
    requires s.Shaped() && Within(family, |s.tObs|) && rows <= |s.tstar|
  {
    if rows == 0 then 0
    else CountExceeding(s, family, t, rows - 1) + if Exceeds(s, s.tstar[rows - 1], family, t) then 1 else 0
  }

  function PValue(count: nat, draws: nat): real {
    (count + 1) as real / (draws + 1) as real
  }

  /** Share of draws whose largest statistic over the family reaches `t`. */
  ghost function FamilyP(s: Stats, family: set<nat>, t: real): real
    requires s.Shaped() && Within(family, |s.tObs|)
  {
    PValue(CountExceeding(s, family, t, |s.tstar|), |s.tstar|)
  }

  lemma FullPValue(draws: nat)
    ensures PValue(draws, draws) == 1.0
  {
    var d := (draws + 1) as real;
    assert d / d == 1.0;
  }

  lemma PValueSign(count: nat, draws: nat)
    ensures PValue(count, draws) > 0.0
  {
  }

  lemma PValueOrder(a: nat, b: nat, draws: nat)
    requires a <= b
    ensures PValue(a, draws) <= PValue(b, draws)
  {
    var d := (draws + 1) as real;
    var x, y := (a + 1) as real / d, (b + 1) as real / d;
    assert x * d == (a + 1) as real && y * d == (b + 1) as real;
    if x > y {
      assert x * d > y * d;
    }
  }

  /** A larger family with the same valid member, or a lower threshold, is exceeded more often. */
  lemma {:induction false} CountGrows(s: Stats, small: set<nat>, big: set<nat>, hi: real, lo: real, rows: nat, i: nat)
    requires s.Shaped() && Within(big, |s.tObs|) && small <= big && lo <= hi && rows <= |s.tstar|
    requires i in small && i < |s.tObs| && s.valid[i]
    ensures CountExceeding(s, small, hi, rows) <= CountExceeding(s, big, lo, rows)
  {
    if rows > 0 {
      CountGrows(s, small, big, hi, lo, rows - 1, i);
      var row := s.tstar[rows - 1];
      if Exceeds(s, row, small, hi) {
        var k :| k in small && s.valid[k] && row[k] >= hi;
        assert k in big && row[k] >= lo;
      }
    }
  }

  lemma FamilyPGrows(s: Stats, small: set<nat>, big: set<nat>, hi: real, lo: real, i: nat)
    requires s.Shaped() && Within(big, |s.tObs|) && small <= big && lo <= hi
    requires i in small && i < |s.tObs| && s.valid[i]
    ensures FamilyP(s, small, hi) <= FamilyP(s, big, lo)
  {
    CountGrows(s, small, big, hi, lo, |s.tstar|, i);
    PValueOrder(CountExceeding(s, small, hi, |s.tstar|), CountExceeding(s, big, lo, |s.tstar|), |s.tstar|);
  }

  // ---------------------------------------------------------------------------------------------
  // The stepdown
  // ---------------------------------------------------------------------------------------------

  function Negated(xs: seq<real>): (r: seq<real>)
    ensures |r| == |xs| && forall i | 0 <= i < |xs| :: r[i] == -xs[i]
  {
    seq(|xs|, i requires 0 <= i < |xs| => -xs[i])
  }

  /** Strategies by descending observed statistic, earlier index first on ties. */
  function Descending(s: Stats): (r: seq<nat>)
    ensures |r| == |s.tObs| && forall i | 0 <= i < |r| :: r[i] < |s.tObs|
  {
    OrderOf(Negated(s.tObs), |s.tObs|)
  }

  lemma DescendingFacts(s: Stats)
    ensures IsOrder(Negated(s.tObs), Descending(s))
    ensures forall i, j | 0 <= i <= j < |s.tObs| :: s.tObs[Descending(s)[i]] >= s.tObs[Descending(s)[j]]
  {
    var key, order := Negated(s.tObs), Descending(s);
    OrderIsOrder(key);
    forall i, j | 0 <= i <= j < |s.tObs| ensures s.tObs[order[i]] >= s.tObs[order[j]] {
      assert key[order[i]] <= key[order[j]];
    }
  }

  lemma TailWithin(order: seq<nat>, r: nat, n: nat)
    requires r <= |order| && forall i | 0 <= i < |order| :: order[i] < n
    ensures Within(Members(order[r..]), n)
  {
  }

  /** The p-value of one step: the strongest remaining strategy against all that remain. */
  ghost function StepP(s: Stats, r: nat): real
    requires s.Shaped() && r < |s.tObs|
  {
    TailWithin(Descending(s), r, |s.tObs|);
    FamilyP(s, Members(Descending(s)[r..]), s.tObs[Descending(s)[r]])
  }

  ghost function Steps(s: Stats): (steps: seq<real>)
    requires s.Shaped()
    ensures |steps| == |s.tObs| && forall r | 0 <= r < |steps| :: steps[r] == StepP(s, r)
  {
    seq(|s.tObs|, r requires 0 <= r < |s.tObs| => StepP(s, r))
  }

  /** The running maximum of a sequence, from zero. */
  function MaxTo(steps: seq<real>, r: nat): real
    requires r < |steps|
  {
    Max(if r == 0 then 0.0 else MaxTo(steps, r - 1), steps[r])
  }

  ghost function RunP(s: Stats, r: nat): real
    requires s.Shaped() && r < |s.tObs|
  {
    MaxTo(Steps(s), r)
  }

  lemma {:induction false} MaxToIsMax(steps: seq<real>, r: nat) returns (k: nat)
    requires r < |steps| && forall j | 0 <= j <= r :: steps[j] > 0.0
    ensures forall j | 0 <= j <= r :: steps[j] <= MaxTo(steps, r)
    ensures k <= r && MaxTo(steps, r) == steps[k]
  {
    k := r;
    if r > 0 {
      var t := MaxToIsMax(steps, r - 1);
      if MaxTo(steps, r - 1) > steps[r] {
        k := t;
      }
    }
  }

  lemma StepPositive(s: Stats, r: nat)
    requires s.Shaped() && r < |s.tObs|
    ensures StepP(s, r) > 0.0
  {
    TailWithin(Descending(s), r, |s.tObs|);
    PValueSign(CountExceeding(s, Members(Descending(s)[r..]), s.tObs[Descending(s)[r]], |s.tstar|), |s.tstar|);
  }

  lemma RunPIsMax(s: Stats, r: nat) returns (k: nat)
    requires s.Shaped() && r < |s.tObs|
    ensures forall j | 0 <= j <= r :: Steps(s)[j] <= RunP(s, r)
    ensures k <= r && RunP(s, r) == StepP(s, k)
  {
    forall j | 0 <= j <= r ensures Steps(s)[j] > 0.0 {
      StepPositive(s, j);
    }
    k := MaxToIsMax(Steps(s), r);
  }

  /** The running p-values, rank by rank. */
  ghost function Runs(s: Stats, n: nat): (runs: seq<real>)
    requires s.Shaped() && n <= |s.tObs|
    ensures |runs| == n && forall r | 0 <= r < n :: runs[r] == RunP(s, r)
  {
    seq(n, r requires 0 <= r < n => RunP(s, r))
  }

  predicate Ranks(order: seq<nat>, runs: seq<real>, n: nat) {
    |order| == |runs| == n && forall r | 0 <= r < n :: order[r] < n
  }

  /** The loop rejects the ranks before the first running p-value above alpha, and gives that value
    * to everything from there on. */
  ghost predicate Halted(order: seq<nat>, runs: seq<real>, alpha: real, stop: nat, o: Outcome)
    requires |o.adjusted| == |o.reject| && Ranks(order, runs, |o.reject|) && stop <= |runs|
  {
    && (forall r | 0 <= r < stop :: runs[r] <= alpha)
    && (stop < |runs| ==> runs[stop] > alpha)
    && forall r | 0 <= r < |runs| ::
         (o.reject[order[r]] <==> r < stop) && o.adjusted[order[r]] == runs[if r <= stop then r else stop]
  }

  ghost predicate StoppedAt(s: Stats, alpha: real, stop: nat, o: Outcome)
    requires s.Shaped() && stop <= |s.tObs|
  {
    |o.adjusted| == |o.reject| == |s.tObs| && Halted(Descending(s), Runs(s, |s.tObs|), alpha, stop, o)
  }

  ghost predicate StepdownResult(s: Stats, alpha: real, o: Outcome)
    requires s.Shaped()
  {
    exists stop :: 0 <= stop <= |s.tObs| && StoppedAt(s, alpha, stop, o)
  }

  /** The largest valid statistic of the family in one row, zero by default. */
  method MaxOver(s: Stats, row: seq<real>, remaining: set<nat>) returns (m: real)
    requires s.Shaped() && |row| == |s.tObs| && Within(remaining, |row|)
    ensures forall t :: m >= t <==> Exceeds(s, row, remaining, t)
  {
    var best: Option<real> := None;
    for k := 0 to |row|
      invariant best.None? <==> forall j | 0 <= j < k :: !(j in remaining && s.valid[j])
      invariant best.Some? ==> exists j :: 0 <= j < k && j in remaining && s.valid[j] && row[j] == best.value
      invariant best.Some? ==> forall j | 0 <= j < k && j in remaining && s.valid[j] :: row[j] <= best.value
    {
      if k in remaining && s.valid[k] && (best.None? || row[k] > best.value) {
        best := Some(row[k]);
      }
    }
    m := if best.Some? then best.value else 0.0;
    if best.Some? {
      var j: nat :| j < |row| && j in remaining && s.valid[j] && row[j] == best.value;
      forall t ensures m >= t <==> Exceeds(s, row, remaining, t) {
        if m >= t {
          assert row[j] >= t;
        }
      }
    }
  }

  method CountRows(s: Stats, remaining: set<nat>, t: real) returns (count: nat)
    requires s.Shaped() && Within(remaining, |s.tObs|)
    ensures count == CountExceeding(s, remaining, t, |s.tstar|)
  {
    count := 0;
    for b := 0 to |s.tstar|
      invariant count == CountExceeding(s, remaining, t, b)
    {
      var m := MaxOver(s, s.tstar[b], remaining);
      if m >= t {
        count := count + 1;
      }
    }
  }

  /** The ranks done so far are rejected with their running p-values; the rest are untouched. */
  ghost predicate Progress(order: seq<nat>, runs: seq<real>, alpha: real, r: nat, adjusted: seq<real>, reject: seq<bool>)
    requires |adjusted| == |reject| && Ranks(order, runs, |reject|) && r <= |runs|
  {
    && (forall j | 0 <= j < r :: runs[j] <= alpha && reject[order[j]] && adjusted[order[j]] == runs[j])
    && forall j | r <= j < |runs| :: !reject[order[j]]
  }

  lemma ProgressRejects(order: seq<nat>, runs: seq<real>, alpha: real, r: nat, adjusted: seq<real>, reject: seq<bool>)
    requires |adjusted| == |reject| && Ranks(order, runs, |reject|) && r < |runs| && Distinct(order)
    requires Progress(order, runs, alpha, r, adjusted, reject) && runs[r] <= alpha
    ensures Progress(order, runs, alpha, r + 1, adjusted[order[r] := runs[r]], reject[order[r] := true])
  {
  }

  lemma ProgressStops(order: seq<nat>, runs: seq<real>, alpha: real, r: nat, adjusted: seq<real>, reject: seq<bool>, final: seq<real>)
    requires |adjusted| == |reject| == |final| && Ranks(order, runs, |reject|) && r < |runs| && Distinct(order)
    requires Progress(order, runs, alpha, r, adjusted, reject) && runs[r] > alpha
    requires forall k | 0 <= k < |final| :: final[k] == if k in Members(order[r..]) then runs[r] else adjusted[k]
    ensures Halted(order, runs, alpha, r, Outcome(final, reject))
  {
    StopShape(order, r);
  }

  /** The running p-value after one more rank. */
  method NextRunning(s: Stats, r: nat, remaining: set<nat>, running: real) returns (next: real)
    requires s.Shaped() && r < |s.tObs| && remaining == Members(Descending(s)[r..])
    requires running == if r == 0 then 0.0 else Runs(s, |s.tObs|)[r - 1]
    ensures next == Runs(s, |s.tObs|)[r]
  {
    TailWithin(Descending(s), r, |s.tObs|);
    var count := CountRows(s, remaining, s.tObs[Descending(s)[r]]);
    next := Max(running, PValue(count, |s.tstar|));
  }

  /** The strongest remaining strategy survives, and with it everything that remains. */
  method StopAt(order: seq<nat>, ghost runs: seq<real>, alpha: real, r: nat, adjusted: seq<real>, reject: seq<bool>, remaining: set<nat>, running: real)
    returns (o: Outcome)
    requires |adjusted| == |reject| && Ranks(order, runs, |reject|) && r < |runs| && Distinct(order)
    requires Progress(order, runs, alpha, r, adjusted, reject) && running == runs[r] > alpha && remaining == Members(order[r..])
    ensures |o.adjusted| == |o.reject| == |reject| && Halted(order, runs, alpha, r, o)
  {
    var n := |adjusted|;
    var final := seq(n, k requires 0 <= k < n => if k in remaining then running else adjusted[k]);
    ProgressStops(order, runs, alpha, r, adjusted, reject, final);
    o := Outcome(final, reject);
  }

  /** The loop's variables. */
  datatype Loop = Loop(adjusted: seq<real>, reject: seq<bool>, remaining: set<nat>, running: real)

  ghost predicate LoopAt(s: Stats, alpha: real, r: nat, l: Loop)
    requires s.Shaped() && r <= |s.tObs|
  {
    && |l.adjusted| == |l.reject| == |s.tObs| && l.remaining == Members(Descending(s)[r..])
    && Progress(Descending(s), Runs(s, |s.tObs|), alpha, r, l.adjusted, l.reject)
    && l.running == if r == 0 then 0.0 else Runs(s, |s.tObs|)[r - 1]
  }

  /** One turn: reject the strongest remaining strategy, or stop. */
  method Turn(s: Stats, alpha: real, r: nat, l: Loop) returns (next: Loop, stopped: bool)
    requires s.Shaped() && r < |s.tObs| && LoopAt(s, alpha, r, l)
    ensures !stopped ==> LoopAt(s, alpha, r + 1, next)
    ensures stopped ==> StoppedAt(s, alpha, r, Outcome(next.adjusted, next.reject))
  {
    var order := Descending(s);
    DescendingFacts(s);
    ghost var runs := Runs(s, |s.tObs|);
    var running := NextRunning(s, r, l.remaining, l.running);
    stopped := running > alpha;
    if stopped {
      var o := StopAt(order, runs, alpha, r, l.adjusted, l.reject, l.remaining, running);
      next := Loop(o.adjusted, o.reject, l.remaining, running);
    } else {
      ProgressRejects(order, runs, alpha, r, l.adjusted, l.reject);
      TailShrinks(order, r);
      next := Loop(l.adjusted[order[r] := running], l.reject[order[r] := true], l.remaining - {order[r]}, running);
    }
  }

  method Stepdown(s: Stats, alpha: real) returns (o: Outcome)
    requires s.Shaped()
    ensures StepdownResult(s, alpha, o)
  {
    var n := |s.tObs|;
    var l := Start(s, alpha);
    for r := 0 to n
      invariant LoopAt(s, alpha, r, l)
    {
      var next, stopped := Turn(s, alpha, r, l);
      l := next;
      if stopped {
        o := Outcome(l.adjusted, l.reject);
        assert StoppedAt(s, alpha, r, o);
        return;
      }
    }
    o := Outcome(l.adjusted, l.reject);
    AllRejected(s, alpha, l);
  }

  method Start(s: Stats, alpha: real) returns (l: Loop)
    requires s.Shaped()
    ensures LoopAt(s, alpha, 0, l)
  {
    AllMembers(s);
    l := Loop(seq(|s.tObs|, _ => 1.0), seq(|s.tObs|, _ => false), Everyone(s), 0.0);
  }

  lemma AllRejected(s: Stats, alpha: real, l: Loop)
    requires s.Shaped() && LoopAt(s, alpha, |s.tObs|, l)
    ensures StepdownResult(s, alpha, Outcome(l.adjusted, l.reject))
  {
    assert StoppedAt(s, alpha, |s.tObs|, Outcome(l.adjusted, l.reject));
  }

  lemma AllMembers(s: Stats)
    ensures Everyone(s) == Members(Descending(s)[0..])
  {
    DescendingFacts(s);
    var order := Descending(s);
    assert order[0..] == order;
    forall k: nat | k < |s.tObs| ensures k in order {
      var r := RankOf(Negated(s.tObs), order, k);
    }
  }

  lemma TailShrinks(order: seq<nat>, r: nat)
    requires Distinct(order) && r < |order|
    ensures Members(order[r..]) - {order[r]} == Members(order[r + 1..])
  {
    assert order[r..] == [order[r]] + order[r + 1..];
    assert order[r] !in order[r + 1..];
  }

  lemma StopShape(order: seq<nat>, r: nat)
    requires Distinct(order) && r < |order|
    ensures forall j | 0 <= j < |order| :: order[j] in Members(order[r..]) <==> j >= r
  {
    forall j | 0 <= j < |order| ensures order[j] in Members(order[r..]) <==> j >= r {
      if j >= r {
        assert order[r..][j - r] == order[j];
      }
    }
  }

  // ---------------------------------------------------------------------------------------------
  // What the stepdown decides
  // ---------------------------------------------------------------------------------------------

  /** The rank of strategy `i`, where the loop stopped, and what that makes of `i`. */
  lemma VerdictOn(s: Stats, alpha: real, o: Outcome, i: nat) returns (r: nat, stop: nat)
    requires s.Shaped() && i < |s.tObs| && StepdownResult(s, alpha, o)
    ensures r < |s.tObs| && Descending(s)[r] == i && stop <= |s.tObs|
    ensures o.reject[i] <==> r < stop
    ensures o.adjusted[i] == RunP(s, if r <= stop then r else stop)
    ensures forall j | 0 <= j < stop :: RunP(s, j) <= alpha
    ensures stop < |s.tObs| ==> RunP(s, stop) > alpha
  {
    stop :| 0 <= stop <= |s.tObs| && StoppedAt(s, alpha, stop, o);
    DescendingFacts(s);
    r := RankOf(Negated(s.tObs), Descending(s), i);
  }

  /** Rejection is exactly an adjusted p-value at or below alpha. */
  lemma RejectIffAdjusted(s: Stats, alpha: real, o: Outcome, i: nat)
    requires s.Shaped() && i < |s.tObs| && StepdownResult(s, alpha, o)
    ensures o.reject[i] <==> o.adjusted[i] <= alpha
  {
    var r, stop := VerdictOn(s, alpha, o, i);
  }

  /** The max test rejects a family: its strongest observed statistic against all its members. */
  ghost predicate FamilyRejected(s: Stats, family: set<nat>, alpha: real)
    requires s.Shaped() && Within(family, |s.tObs|)
  {
    exists j :: j in family && (forall k | k in family :: s.tObs[k] <= s.tObs[j]) && FamilyP(s, family, s.tObs[j]) <= alpha
  }

  ghost predicate ClosedTestRejects(s: Stats, i: nat, alpha: real)
    requires s.Shaped()
  {
    forall family: set<nat> | i in family && Within(family, |s.tObs|) :: FamilyRejected(s, family, alpha)
  }

  /** The stepdown is the closed test over all families, for every strategy that has variance. */
  lemma StepdownIsClosedTesting(s: Stats, alpha: real, o: Outcome, i: nat)
    requires s.Shaped() && i < |s.tObs| && s.valid[i] && StepdownResult(s, alpha, o)
    ensures o.reject[i] <==> ClosedTestRejects(s, i, alpha)
  {
    var r, stop := VerdictOn(s, alpha, o, i);
    if r < stop {
      forall family: set<nat> | i in family && Within(family, |s.tObs|) ensures FamilyRejected(s, family, alpha) {
        RejectedFamily(s, alpha, i, r, family);
      }
    } else {
      SurvivingFamily(s, alpha, i, r, stop);
    }
  }

  /** The strongest member of a family, at or before the rank of any member. */
  lemma StrongestOf(s: Stats, family: set<nat>, i: nat, r: nat) returns (k: nat)
    requires r < |s.tObs| && Descending(s)[r] == i && i in family && Within(family, |s.tObs|)
    ensures k <= r && Descending(s)[k] in family && family <= Members(Descending(s)[k..])
    ensures forall j | j in family :: s.tObs[j] <= s.tObs[Descending(s)[k]]
  {
    var key, order := Negated(s.tObs), Descending(s);
    DescendingFacts(s);
    k := FirstRank(key, order, family, i);
    TailBounds(key, order, family, k);
    forall j | j in family ensures s.tObs[j] <= s.tObs[order[k]] {
      var q := RankOf(key, order, j);
      assert q >= k;
    }
  }

  lemma RejectedFamily(s: Stats, alpha: real, i: nat, r: nat, family: set<nat>)
    requires s.Shaped() && r < |s.tObs| && RunP(s, r) <= alpha
    requires Descending(s)[r] == i && s.valid[i] && i in family && Within(family, |s.tObs|)
    ensures FamilyRejected(s, family, alpha)
  {
    var k := StrongestOf(s, family, i, r);
    var top := s.tObs[Descending(s)[k]];
    TailWithin(Descending(s), k, |s.tObs|);
    FamilyPGrows(s, family, Members(Descending(s)[k..]), top, top, i);
    var _ := RunPIsMax(s, r);
    assert Steps(s)[k] <= RunP(s, r);
  }

  lemma SurvivingFamily(s: Stats, alpha: real, i: nat, r: nat, stop: nat)
    requires s.Shaped() && stop <= r < |s.tObs| && RunP(s, stop) > alpha && Descending(s)[r] == i
    ensures !ClosedTestRejects(s, i, alpha)
  {
    var k := RunPIsMax(s, stop);
    TailNotRejected(s, alpha, k);
    DescendingFacts(s);
    StopShape(Descending(s), k);
    assert i in Members(Descending(s)[k..]);
  }

  /** A rank whose step p-value exceeds alpha leaves the family from it on unrejected. */
  lemma TailNotRejected(s: Stats, alpha: real, k: nat)
    requires s.Shaped() && k < |s.tObs| && StepP(s, k) > alpha
    ensures Within(Members(Descending(s)[k..]), |s.tObs|) && !FamilyRejected(s, Members(Descending(s)[k..]), alpha)
  {
    var order := Descending(s);
    DescendingFacts(s);
    TailWithin(order, k, |s.tObs|);
    StopShape(order, k);
    var family := Members(order[k..]);
    assert order[k] in family;
    forall j | j in family && forall q | q in family :: s.tObs[q] <= s.tObs[j] ensures s.tObs[j] == s.tObs[order[k]] {
      var q := RankOf(Negated(s.tObs), order, j);
    }
  }

  /** Nothing but strategies without variance from rank `k` on: the step's p-value is 1. */
  lemma BareTail(s: Stats, k: nat)
    requires s.Shaped() && k < |s.tObs| && forall q | k <= q < |s.tObs| :: !s.valid[Descending(s)[q]]
    ensures StepP(s, k) == 1.0
  {
    var order := Descending(s);
    TailWithin(order, k, |s.tObs|);
    forall j | j in Members(order[k..]) ensures !s.valid[j] {
      var x :| 0 <= x < |order[k..]| && order[k..][x] == j;
      assert order[k + x] == j;
    }
    NoVarianceStep(s, k);
  }

  lemma FamilyPAtMostOne(s: Stats, family: set<nat>, t: real)
    requires s.Shaped() && Within(family, |s.tObs|)
    ensures FamilyP(s, family, t) <= 1.0
  {
    CountAtMost(s, family, t, |s.tstar|);
    PValueOrder(CountExceeding(s, family, t, |s.tstar|), |s.tstar|, |s.tstar|);
    FullPValue(|s.tstar|);
  }

  lemma {:induction false} CountAtMost(s: Stats, family: set<nat>, t: real, rows: nat)
    requires s.Shaped() && Within(family, |s.tObs|) && rows <= |s.tstar|
    ensures CountExceeding(s, family, t, rows) <= rows
  {
    if rows > 0 {
      CountAtMost(s, family, t, rows - 1);
    }
  }

  lemma RunPAtMostOne(s: Stats, r: nat)
    requires s.Shaped() && r < |s.tObs|
    ensures RunP(s, r) <= 1.0
  {
    var k := RunPIsMax(s, r);
    TailWithin(Descending(s), k, |s.tObs|);
    FamilyPAtMostOne(s, Members(Descending(s)[k..]), s.tObs[Descending(s)[k]]);
  }

  /** The p-value of strategy `i` tested once, against everyone. */
  ghost function SingleP(s: Stats, i: nat): real
    requires s.Shaped() && i < |s.tObs|
  {
    FamilyP(s, Everyone(s), s.tObs[i])
  }

  /** A strategy with variance stands at or after rank `k`. */
  ghost predicate VarianceFrom(s: Stats, k: nat)
    requires s.Shaped()
  {
    exists q: nat :: k <= q < |s.tObs| && s.valid[Descending(s)[q]]
  }

  /** Rank `r`, or a rank before it whose step fails at alpha, has a strategy with variance at or after it. */
  ghost predicate Supported(s: Stats, alpha: real, r: nat)
    requires s.Shaped() && r < |s.tObs|
  {
    VarianceFrom(s, r) || exists k: nat :: k < r && StepP(s, k) > alpha && VarianceFrom(s, k)
  }

  /** The loop gets to rank `m`: every step before it passes. */
  ghost predicate Reaches(s: Stats, alpha: real, m: nat)
    requires s.Shaped() && m <= |s.tObs|
  {
    forall k | 0 <= k < m :: StepP(s, k) <= alpha
  }

  lemma RunsReach(s: Stats, alpha: real, m: nat)
    requires s.Shaped() && m <= |s.tObs| && forall j | 0 <= j < m :: RunP(s, j) <= alpha
    ensures Reaches(s, alpha, m)
  {
    forall k | 0 <= k < m ensures StepP(s, k) <= alpha {
      var _ := RunPIsMax(s, k);
      assert Steps(s)[k] <= RunP(s, k);
    }
  }

  lemma FirstFails(s: Stats, alpha: real, m: nat)
    requires s.Shaped() && m < |s.tObs| && Reaches(s, alpha, m) && RunP(s, m) > alpha
    ensures StepP(s, m) > alpha
  {
    var x := RunPIsMax(s, m);
  }

  lemma SupportedIsWithin(s: Stats, r: nat, m: nat, k: nat)
    requires s.Shaped() && m <= k <= r < |s.tObs| && VarianceFrom(s, k)
    ensures RunP(s, m) <= SingleP(s, Descending(s)[r])
  {
    var x := RunPIsMax(s, m);
    var q: nat :| k <= q < |s.tObs| && s.valid[Descending(s)[q]];
    StepAtMostSingle(s, x, r, q);
  }

  lemma UnsupportedIsOne(s: Stats, m: nat)
    requires s.Shaped() && m < |s.tObs| && !VarianceFrom(s, m)
    ensures RunP(s, m) >= 1.0
  {
    BareTail(s, m);
    var _ := RunPIsMax(s, m);
    assert Steps(s)[m] <= RunP(s, m);
  }

  /** Where the loop stands when it settles rank `r`, support lies at or after that place. */
  lemma SupportFrom(s: Stats, alpha: real, r: nat, m: nat) returns (k: nat)
    requires s.Shaped() && m <= r < |s.tObs| && Reaches(s, alpha, m) && (m < r ==> StepP(s, m) > alpha)
    ensures Supported(s, alpha, r) ==> m <= k <= r && VarianceFrom(s, k)
    ensures !Supported(s, alpha, r) ==> !VarianceFrom(s, m)
  {
    k := r;
    if Supported(s, alpha, r) && !VarianceFrom(s, r) {
      k :| k < r && StepP(s, k) > alpha && VarianceFrom(s, k);
    }
  }

  /** The rank at which the loop settles `i`: its own, or the one where it stopped. */
  lemma SettledAt(s: Stats, alpha: real, o: Outcome, i: nat, r: nat) returns (m: nat)
    requires s.Shaped() && r < |s.tObs| && Descending(s)[r] == i && StepdownResult(s, alpha, o)
    ensures m <= r && o.adjusted[i] == RunP(s, m) && Reaches(s, alpha, m) && (m < r ==> StepP(s, m) > alpha)
  {
    var x, stop := VerdictOn(s, alpha, o, i);
    DescendingFacts(s);
    m := if r <= stop then r else stop;
    RunsReach(s, alpha, m);
    if m < r {
      FirstFails(s, alpha, m);
    }
  }

  /** When stepping down costs no power, in terms of its inputs alone: an adjusted p-value is at most the
    * single-step one exactly when that is 1, or a strategy with variance stands at or after the strategy's
    * own rank or an earlier rank whose step already fails. */
  lemma AdjustedWithinExactly(s: Stats, alpha: real, o: Outcome, i: nat, r: nat)
    requires s.Shaped() && r < |s.tObs| && Descending(s)[r] == i && StepdownResult(s, alpha, o)
    ensures o.adjusted[i] <= SingleP(s, i) <==> SingleP(s, i) >= 1.0 || Supported(s, alpha, r)
  {
    var m := SettledAt(s, alpha, o, i, r);
    var k := SupportFrom(s, alpha, r, m);
    RunPAtMostOne(s, m);
    if Supported(s, alpha, r) {
      SupportedIsWithin(s, r, m, k);
    } else {
      UnsupportedIsOne(s, m);
    }
  }

  /** In particular for every strategy that has variance or ranks before one that does. */
  lemma AdjustedAtMostSingleStep(s: Stats, alpha: real, o: Outcome, i: nat, v: nat)
    requires s.Shaped() && i < |s.tObs| && StepdownResult(s, alpha, o)
    requires v < |s.tObs| && s.valid[v] && (v == i || Follows(s, i, v))
    ensures o.adjusted[i] <= SingleP(s, i)
  {
    var r, stop := VerdictOn(s, alpha, o, i);
    var q := RankFrom(s, i, r, v);
    assert VarianceFrom(s, r);
    AdjustedWithinExactly(s, alpha, o, i, r);
  }

  /** `v` comes after `i` in the order of the loop. */
  ghost predicate Follows(s: Stats, i: nat, v: nat) {
    exists r, q :: 0 <= r < q < |s.tObs| && Descending(s)[r] == i && Descending(s)[q] == v
  }

  lemma RankFrom(s: Stats, i: nat, r: nat, v: nat) returns (q: nat)
    requires r < |s.tObs| && Descending(s)[r] == i && (v == i || Follows(s, i, v))
    ensures r <= q < |s.tObs| && Descending(s)[q] == v && (v != i ==> r < q)
  {
    DescendingFacts(s);
    q := r;
    if v != i {
      var x, y :| 0 <= x < y < |s.tObs| && Descending(s)[x] == i && Descending(s)[y] == v;
      q := y;
    }
  }

  /** A step at or before a strategy's rank tests fewer rivals against a statistic at least as high. */
  lemma StepAtMostSingle(s: Stats, k: nat, r: nat, q: nat)
    requires s.Shaped() && k <= r < |s.tObs| && k <= q < |s.tObs| && s.valid[Descending(s)[q]]
    ensures StepP(s, k) <= SingleP(s, Descending(s)[r])
  {
    var order := Descending(s);
    DescendingFacts(s);
    TailWithin(order, k, |s.tObs|);
    assert order[k..][q - k] == order[q];
    FamilyPGrows(s, Members(order[k..]), Everyone(s), s.tObs[order[k]], s.tObs[order[r]], order[q]);
  }

  /** One strategy far ahead, whose draws swing evenly about zero, and one without variance. */
  function Swinging(draws: nat): Stats {
    Stats([5.0, 0.0], [true, false], seq(draws, b => [if b % 2 == 0 then 1.0 else -1.0, 0.0]))
  }

  lemma {:induction false} SwingsHalf(draws: nat, rows: nat)
    requires rows <= draws
    ensures CountExceeding(Swinging(draws), {0, 1}, 0.0, rows) == (rows + 1) / 2
    ensures CountExceeding(Swinging(draws), {0, 1}, 5.0, rows) == 0
    ensures CountExceeding(Swinging(draws), {1}, 0.0, rows) == rows
  {
    if rows > 0 {
      SwingsHalf(draws, rows - 1);
      var s := Swinging(draws);
      assert s.tstar[rows - 1] == [if (rows - 1) % 2 == 0 then 1.0 else -1.0, 0.0];
      assert 0 in {0, 1} && s.valid[0];
    }
  }

  lemma SwingingRanks(draws: nat)
    ensures Descending(Swinging(draws)) == [0, 1] && Everyone(Swinging(draws)) == {0, 1}
    ensures StepP(Swinging(draws), 0) == PValue(0, draws) && StepP(Swinging(draws), 1) == PValue(draws, draws)
  {
    var s := Swinging(draws);
    var order := Descending(s);
    DescendingFacts(s);
    var r := RankOf(Negated(s.tObs), order, 0);
    assert s.tObs[order[0]] >= s.tObs[order[r]];
    var q := RankOf(Negated(s.tObs), order, 1);
    assert order == [0, 1];
    assert order[0..] == [0, 1] && order[1..] == [1];
    SwingsHalf(draws, draws);
    AllMembers(s);
    assert Members([0, 1]) == {0, 1} && Members([1]) == {1};
  }

  /** Without such a strategy the bound can fail: the last to be stepped to, alone and without variance,
    * is given 1 although every family's largest statistic reaches its zero in half of the draws. */
  lemma AdjustedAboveSingleStep(alpha: real, o: Outcome)
    requires 0.05 <= alpha < 1.0 && StepdownResult(Swinging(MIN_BOOTSTRAP), alpha, o)
    ensures o.adjusted[1] == 1.0 > SingleP(Swinging(MIN_BOOTSTRAP), 1)
  {
    var s := Swinging(MIN_BOOTSTRAP);
    SwingingRanks(MIN_BOOTSTRAP);
    SwingsHalf(MIN_BOOTSTRAP, MIN_BOOTSTRAP);
    LeastPValue();
    FullPValue(MIN_BOOTSTRAP);
    var steps := Steps(s);
    assert MaxTo(steps, 0) == steps[0] && MaxTo(steps, 1) == Max(steps[0], steps[1]);
    var r, stop := VerdictOn(s, alpha, o, 1);
    assert stop == 1 && r == 1;
  }

  // ---------------------------------------------------------------------------------------------
  // Strategies without variance
  // ---------------------------------------------------------------------------------------------

  lemma {:induction false} NoVarianceAlwaysExceeds(s: Stats, i: nat, rows: nat)
    requires s.Shaped() && i < |s.tObs| && !s.valid[i] && rows <= |s.tstar|
    ensures CountExceeding(s, {i}, 0.0, rows) == rows
  {
    if rows > 0 {
      NoVarianceAlwaysExceeds(s, i, rows - 1);
    }
  }

  /** Closed testing never rejects a strategy without variance. */
  lemma ClosedTestKeepsNoVariance(s: Stats, i: nat, alpha: real)
    requires s.Shaped() && i < |s.tObs| && !s.valid[i] && alpha < 1.0
    ensures !ClosedTestRejects(s, i, alpha)
  {
    NoVarianceAlwaysExceeds(s, i, |s.tstar|);
    FullPValue(|s.tstar|);
    assert FamilyP(s, {i}, 0.0) == 1.0;
    assert !FamilyRejected(s, {i}, alpha);
  }

  /** A later strategy with variance with which every family holding `i` is rejected. */
  ghost predicate Shielded(s: Stats, i: nat, alpha: real)
    requires s.Shaped()
  {
    exists v: nat :: v < |s.tObs| && s.valid[v] && Follows(s, i, v) && Shields(s, i, v, alpha)
  }

  ghost predicate Shields(s: Stats, i: nat, v: nat, alpha: real)
    requires s.Shaped()
  {
    forall family: set<nat> | i in family && v in family && Within(family, |s.tObs|) :: FamilyRejected(s, family, alpha)
  }

  /** A tail without variance exceeds zero in every draw. */
  lemma {:induction false} AllExceed(s: Stats, family: set<nat>, rows: nat)
    requires s.Shaped() && Within(family, |s.tObs|) && (forall k | k in family :: !s.valid[k]) && rows <= |s.tstar|
    ensures CountExceeding(s, family, 0.0, rows) == rows
  {
    if rows > 0 {
      AllExceed(s, family, rows - 1);
    }
  }

  /** A step over strategies without variance alone has p-value 1. */
  lemma NoVarianceStep(s: Stats, r: nat)
    requires s.Shaped() && r < |s.tObs| && s.tObs[Descending(s)[r]] == 0.0
    requires Within(Members(Descending(s)[r..]), |s.tObs|) && forall k | k in Members(Descending(s)[r..]) :: !s.valid[k]
    ensures StepP(s, r) == 1.0
  {
    AllExceed(s, Members(Descending(s)[r..]), |s.tstar|);
    FullPValue(|s.tstar|);
  }

  /** A strategy without variance passes its step only beside a later one that has it. */
  lemma LaterWithVariance(s: Stats, i: nat, r: nat, alpha: real) returns (v: nat, q: nat)
    requires s.Shaped() && r < |s.tObs| && Descending(s)[r] == i && !s.valid[i] && StepP(s, r) <= alpha < 1.0
    ensures r < q < |s.tObs| && Descending(s)[q] == v && v < |s.tObs| && s.valid[v]
  {
    var tail := Members(Descending(s)[r..]);
    TailWithin(Descending(s), r, |s.tObs|);
    if forall k | k in tail :: !s.valid[k] {
      NoVarianceStep(s, r);
    }
    v :| v in tail && s.valid[v];
    var j :| 0 <= j < |Descending(s)[r..]| && Descending(s)[r..][j] == v;
    q := r + j;
  }

  lemma RejectedBeside(s: Stats, alpha: real, i: nat, r: nat, v: nat, family: set<nat>)
    requires s.Shaped() && r < |s.tObs| && RunP(s, r) <= alpha && Descending(s)[r] == i
    requires v < |s.tObs| && s.valid[v] && i in family && v in family && Within(family, |s.tObs|)
    ensures FamilyRejected(s, family, alpha)
  {
    var k := StrongestOf(s, family, i, r);
    var top := s.tObs[Descending(s)[k]];
    TailWithin(Descending(s), k, |s.tObs|);
    FamilyPGrows(s, family, Members(Descending(s)[k..]), top, top, v);
    var _ := RunPIsMax(s, r);
    assert Steps(s)[k] <= RunP(s, r);
  }

  lemma RejectedIsShielded(s: Stats, alpha: real, i: nat, r: nat)
    requires s.Shaped() && r < |s.tObs| && RunP(s, r) <= alpha < 1.0 && Descending(s)[r] == i && !s.valid[i]
    ensures Shielded(s, i, alpha)
  {
    var _ := RunPIsMax(s, r);
    assert Steps(s)[r] <= RunP(s, r);
    var v, q := LaterWithVariance(s, i, r, alpha);
    forall family: set<nat> | i in family && v in family && Within(family, |s.tObs|) ensures FamilyRejected(s, family, alpha) {
      RejectedBeside(s, alpha, i, r, v, family);
    }
  }

  /** The tail whose step p-value exceeds alpha holds `i` and everything after it, and is not rejected. */
  lemma TailDoesNotShield(s: Stats, alpha: real, i: nat, k: nat, r: nat, v: nat)
    requires s.Shaped() && k <= r < |s.tObs| && StepP(s, k) > alpha && Descending(s)[r] == i
    requires v < |s.tObs| && Follows(s, i, v)
    ensures !Shields(s, i, v, alpha)
  {
    TailNotRejected(s, alpha, k);
    DescendingFacts(s);
    StopShape(Descending(s), k);
    var q := RankFrom(s, i, r, v);
    assert Descending(s)[r] in Members(Descending(s)[k..]) && Descending(s)[q] in Members(Descending(s)[k..]);
  }

  lemma SurvivorIsNotShielded(s: Stats, alpha: real, i: nat, r: nat, stop: nat)
    requires s.Shaped() && stop <= r < |s.tObs| && RunP(s, stop) > alpha && Descending(s)[r] == i
    ensures !Shielded(s, i, alpha)
  {
    var k := RunPIsMax(s, stop);
    forall v: nat | v < |s.tObs| && s.valid[v] && Follows(s, i, v) ensures !Shields(s, i, v, alpha) {
      TailDoesNotShield(s, alpha, i, k, r, v);
    }
  }

  /** When the stepdown rejects a strategy without variance, in terms of its inputs alone. */
  lemma RejectsNoVariance(s: Stats, alpha: real, o: Outcome, i: nat)
    requires s.Shaped() && i < |s.tObs| && !s.valid[i] && alpha < 1.0 && StepdownResult(s, alpha, o)
    ensures o.reject[i] <==> Shielded(s, i, alpha)
  {
    var r, stop := VerdictOn(s, alpha, o, i);
    if r < stop {
      RejectedIsShielded(s, alpha, i, r);
    } else {
      SurvivorIsNotShielded(s, alpha, i, r, stop);
    }
  }

  /** The stepdown agrees with the closed test on a strategy exactly when it has variance or no later
    * one shields it. */
  lemma AgreesUnlessShielded(s: Stats, alpha: real, o: Outcome, i: nat)
    requires s.Shaped() && i < |s.tObs| && alpha < 1.0 && StepdownResult(s, alpha, o)
    ensures (o.reject[i] <==> ClosedTestRejects(s, i, alpha)) <==> s.valid[i] || !Shielded(s, i, alpha)
  {
    if s.valid[i] {
      StepdownIsClosedTesting(s, alpha, o, i);
    } else {
      ClosedTestKeepsNoVariance(s, i, alpha);
      RejectsNoVariance(s, alpha, o, i);
    }
  }

  /** Agreement is total when every strategy with variance has a positive statistic, as those without
    * have zero. */
  lemma AgreesWhenAllAhead(s: Stats, alpha: real, o: Outcome, i: nat)
    requires s.Shaped() && i < |s.tObs| && alpha < 1.0 && StepdownResult(s, alpha, o)
    requires forall v | 0 <= v < |s.tObs| && s.valid[v] :: s.tObs[v] > 0.0
    ensures o.reject[i] <==> ClosedTestRejects(s, i, alpha)
  {
    AgreesUnlessShielded(s, alpha, o, i);
    if !s.valid[i] {
      forall v: nat | v < |s.tObs| && s.valid[v] ensures !Follows(s, i, v) {
        AheadDoesNotFollow(s, i, v);
      }
    }
  }

  lemma AheadDoesNotFollow(s: Stats, i: nat, v: nat)
    requires i < |s.tObs| && v < |s.tObs| && s.tObs[i] < s.tObs[v]
    ensures !Follows(s, i, v)
  {
    DescendingFacts(s);
  }

  function Lopsided(draws: nat): Stats {
    Stats([0.0, -5.0], [false, true], seq(draws, _ => [0.0, -1.0]))
  }

  lemma {:induction false} LopsidedNeverExceeds(draws: nat, rows: nat)
    requires rows <= draws
    ensures CountExceeding(Lopsided(draws), {0, 1}, 0.0, rows) == 0
  {
    if rows > 0 {
      LopsidedNeverExceeds(draws, rows - 1);
      assert Lopsided(draws).tstar[rows - 1] == [0.0, -1.0];
    }
  }

  lemma LopsidedStep(draws: nat)
    ensures Descending(Lopsided(draws))[0] == 0
    ensures StepP(Lopsided(draws), 0) == PValue(0, draws)
  {
    var s := Lopsided(draws);
    var order := Descending(s);
    DescendingFacts(s);
    var r := RankOf(Negated(s.tObs), order, 0);
    assert s.tObs[order[0]] >= s.tObs[order[r]];
    AllMembers(s);
    assert Everyone(s) == {0, 1};
    LopsidedNeverExceeds(draws, draws);
  }

  /** A strategy without variance is rejected when the others trail it in observation and in every draw. */
  lemma NoVarianceRejected(alpha: real, o: Outcome)
    requires 0.05 <= alpha < 1.0 && StepdownResult(Lopsided(MIN_BOOTSTRAP), alpha, o)
    ensures o.reject[0] && !Lopsided(MIN_BOOTSTRAP).valid[0]
  {
    var s := Lopsided(MIN_BOOTSTRAP);
    LopsidedStep(MIN_BOOTSTRAP);
    var r, stop := VerdictOn(s, alpha, o, 0);
    DescendingFacts(s);
    assert r == 0;
    LeastPValue();
  }

  lemma LeastPValue()
    ensures PValue(0, MIN_BOOTSTRAP) <= 0.05
  {
  }
}
