/** Leverage-survival bootstrap: futur3/execution/survival.py.
  *
  * Decimal and float values are exact reals. A seeded random generator is a fixed state machine, so
  * the index paths it yields depend on the seed and never on the leverage under test.
  */
module Survival {
  import opened Wrappers

  datatype Error =
    | NegativeLeverage
    | BadHorizon
    | BadPathCount
    | BadKillSwitch
    | TooFewReturns

  const MIN_RETURNS := 2

  // ---------------------------------------------------------------------------------------------
  // Equity along one path
  // ---------------------------------------------------------------------------------------------

  function Product(xs: seq<real>): real {
    if |xs| == 0 then 1.0 else Product(xs[..|xs| - 1]) * xs[|xs| - 1]
  }

  function Factor(r: real, leverage: real): real {
    1.0 + r * leverage
  }

  function Factors(rs: seq<real>, path: seq<nat>, leverage: real): (xs: seq<real>)
    requires InRange(path, |rs|)
    ensures |xs| == |path| && forall k | 0 <= k < |path| :: xs[k] == Factor(rs[path[k]], leverage)
  {
    seq(|path|, k requires 0 <= k < |path| => Factor(rs[path[k]], leverage))
  }

  predicate InRange(path: seq<nat>, n: nat) {
    forall k | 0 <= k < |path| :: path[k] < n
  }

  /** Equity after walking the whole of `path`, starting from 1. */
  function Equity(rs: seq<real>, path: seq<nat>, leverage: real): real
    requires InRange(path, |rs|)
  {
    Product(Factors(rs, path, leverage))
  }

  /** A path survives iff equity stays strictly above the kill floor after every period. */
  predicate Survives(rs: seq<real>, path: seq<nat>, leverage: real, floor: real)
    requires InRange(path, |rs|)
  {
    forall k | 1 <= k <= |path| :: Equity(rs, path[..k], leverage) > floor
  }

  // ---------------------------------------------------------------------------------------------
  // Survival is monotone in leverage
  // ---------------------------------------------------------------------------------------------

  /** Each factor pulled towards 1: the factors of the same path at `t` times the leverage. */
  function Blend(xs: seq<real>, t: real): (ys: seq<real>)
    ensures |ys| == |xs| && forall k | 0 <= k < |xs| :: ys[k] == Pull(xs[k], t)
  {
    seq(|xs|, k requires 0 <= k < |xs| => Pull(xs[k], t))
  }

  lemma {:induction false} ProductPositive(xs: seq<real>)
    requires AllPositive(xs)
    ensures Product(xs) > 0.0
  {
    if |xs| > 0 {
      ProductPositive(xs[..|xs| - 1]);
    }
  }

  lemma {:induction false} ProductConcat(xs: seq<real>, ys: seq<real>)
    ensures Product(xs + ys) == Product(xs) * Product(ys)
  {
    if |ys| == 0 {
      assert xs + ys == xs;
    } else {
      var y := ys[..|ys| - 1];
      assert (xs + ys)[..|xs + ys| - 1] == xs + y;
      ProductConcat(xs, y);
    }
  }

  lemma {:induction false} ProductAtLeastOne(xs: seq<real>)
    requires forall k | 0 <= k < |xs| :: xs[k] >= 1.0
    ensures Product(xs) >= 1.0
  {
    if |xs| > 0 {
      ProductAtLeastOne(xs[..|xs| - 1]);
    }
  }

  lemma {:induction false} ProductMonotone(xs: seq<real>, ys: seq<real>)
    requires |xs| == |ys| && forall k | 0 <= k < |xs| :: 0.0 < xs[k] <= ys[k]
    ensures Product(xs) <= Product(ys)
  {
    if |xs| > 0 {
      var n := |xs| - 1;
      ProductMonotone(xs[..n], ys[..n]);
      ProductPositive(xs[..n]);
      ScaleBoth(Product(xs[..n]), Product(ys[..n]), xs[n], ys[n]);
    }
  }

  lemma ScaleBoth(a: real, b: real, x: real, y: real)
    requires 0.0 < a <= b && 0.0 < x <= y
    ensures a * x <= b * y
  {
    assert a * x <= b * x;
    assert b * x <= b * y;
  }

  lemma NonNegProduct(a: real, b: real)
    requires (a >= 0.0 && b >= 0.0) || (a <= 0.0 && b <= 0.0)
    ensures a * b >= 0.0
  {
  }

  lemma ScaleOrder(p: real, a: real, b: real)
    requires p >= 0.0 && a <= b
    ensures p * a <= p * b
  {
    NonNegProduct(p, b - a);
  }

  predicate Opposite(x: real, y: real) {
    (x <= 1.0 && 1.0 <= y) || (y <= 1.0 && 1.0 <= x)
  }

  function Pull(x: real, t: real): real {
    1.0 - t + t * x
  }

  /** Merging a factor below 1 with one above 1 never raises the blended product. */
  lemma MergeOpposite(x: real, y: real, t: real)
    requires 0.0 <= t <= 1.0 && Opposite(x, y)
    ensures Pull(x, t) * Pull(y, t) >= Pull(x * y, t)
  {
    NonNegProduct(t, 1.0 - t);
    NonNegProduct(x - 1.0, 1.0 - y);
    NonNegProduct(t * (1.0 - t), (x - 1.0) * (1.0 - y));
    MergeIdentity(x, y, t);
  }

  lemma MergeIdentity(x: real, y: real, t: real)
    ensures Pull(x, t) * Pull(y, t) - Pull(x * y, t) == t * (1.0 - t) * ((x - 1.0) * (1.0 - y))
  {
  }

  lemma PullPositive(x: real, t: real)
    requires 0.0 <= t <= 1.0 && x > 0.0
    ensures Pull(x, t) > 0.0
    ensures x <= 1.0 ==> x <= Pull(x, t)
    ensures x >= 1.0 ==> 1.0 <= Pull(x, t)
  {
    if t < 1.0 {
      NonNegProduct(t, x);
    }
    if x <= 1.0 {
      NonNegProduct(1.0 - t, 1.0 - x);
    } else {
      NonNegProduct(t, x - 1.0);
    }
  }

  /** The product of blended factors is at least the smaller of 1 and the unblended product. */
  lemma {:induction false} BlendBound(xs: seq<real>, t: real)
    requires 0.0 <= t <= 1.0 && AllPositive(xs)
    ensures Product(Blend(xs, t)) >= Min(1.0, Product(xs))
    decreases |xs|
  {
    if exists i :: 0 <= i < |xs| - 1 && Opposite(xs[i], xs[i + 1]) {
      var i :| 0 <= i < |xs| - 1 && Opposite(xs[i], xs[i + 1]);
      var a, x, y, c := xs[..i], xs[i], xs[i + 1], xs[i + 2..];
      assert xs == a + [x, y] + c;
      MergedPositive(a, x, y, c);
      BlendBound(a + [x * y] + c, t);
      MergedBound(a, x, y, c, t);
    } else {
      OneSided(xs);
      OneSidedBound(xs, t);
    }
  }

  lemma MergedPositive(a: seq<real>, x: real, y: real, c: seq<real>)
    requires AllPositive(a + [x, y] + c)
    ensures AllPositive(a) && AllPositive(c) && AllPositive(a + [x * y] + c)
  {
    var xs := a + [x, y] + c;
    assert x == xs[|a|] && y == xs[|a| + 1];
    assert forall k | 0 <= k < |a| :: a[k] == xs[k];
    assert forall k | 0 <= k < |c| :: c[k] == xs[|a| + 2 + k];
    assert x * y > 0.0;
  }

  /** The bound for the merged factors carries over to the factors themselves. */
  lemma MergedBound(a: seq<real>, x: real, y: real, c: seq<real>, t: real)
    requires 0.0 <= t <= 1.0 && Opposite(x, y) && AllPositive(a) && AllPositive(c)
    requires Product(Blend(a + [x * y] + c, t)) >= Min(1.0, Product(a + [x * y] + c))
    ensures Product(Blend(a + [x, y] + c, t)) >= Min(1.0, Product(a + [x, y] + c))
  {
    PairInside(a, x, y, c);
    MergeLowersBlend(a, x, y, c, t);
  }

  lemma OneSidedBound(xs: seq<real>, t: real)
    requires 0.0 <= t <= 1.0 && AllPositive(xs)
    requires forall k | 0 <= k < |xs| :: if xs[0] > 1.0 then xs[k] > 1.0 else xs[k] <= 1.0
    ensures Product(Blend(xs, t)) >= Min(1.0, Product(xs))
  {
    forall k | 0 <= k < |xs|
      ensures 0.0 < Pull(xs[k], t) && (xs[k] <= 1.0 ==> xs[k] <= Pull(xs[k], t)) && (xs[k] >= 1.0 ==> 1.0 <= Pull(xs[k], t))
    {
      PullPositive(xs[k], t);
    }
    if |xs| > 0 && xs[0] > 1.0 {
      ProductAtLeastOne(Blend(xs, t));
    } else {
      ProductMonotone(xs, Blend(xs, t));
    }
  }

  predicate AllPositive(xs: seq<real>) {
    forall k | 0 <= k < |xs| :: xs[k] > 0.0
  }

  /** With no two neighbours on opposite sides of 1, all members lie on the side of the first. */
  lemma {:induction false} OneSided(xs: seq<real>)
    requires forall i | 0 <= i < |xs| - 1 :: !Opposite(xs[i], xs[i + 1])
    ensures forall k | 0 <= k < |xs| :: if xs[0] > 1.0 then xs[k] > 1.0 else xs[k] <= 1.0
  {
    if |xs| > 1 {
      var n := |xs| - 1;
      OneSided(xs[..n]);
      assert !Opposite(xs[n - 1], xs[n]);
      forall k | 0 <= k < |xs| ensures if xs[0] > 1.0 then xs[k] > 1.0 else xs[k] <= 1.0 {
        if k < n {
          assert xs[k] == xs[..n][k];
        } else {
          assert xs[n - 1] == xs[..n][n - 1];
        }
      }
    }
  }

  lemma BlendConcat(a: seq<real>, b: seq<real>, c: seq<real>, t: real)
    ensures Blend(a + b + c, t) == Blend(a, t) + Blend(b, t) + Blend(c, t)
  {
  }

  lemma MergeLowersBlend(a: seq<real>, x: real, y: real, c: seq<real>, t: real)
    requires 0.0 <= t <= 1.0 && Opposite(x, y) && AllPositive(a) && AllPositive(c)
    ensures Product(Blend(a + [x * y] + c, t)) <= Product(Blend(a + [x, y] + c, t))
  {
    BlendConcat(a, [x * y], c, t);
    BlendConcat(a, [x, y], c, t);
    assert Blend([x * y], t) == [Pull(x * y, t)];
    assert Blend([x, y], t) == [Pull(x, t), Pull(y, t)];
    BlendPositive(a, t);
    BlendPositive(c, t);
    MergeInside(Blend(a, t), x, y, Blend(c, t), t);
  }

  lemma MergeInside(a: seq<real>, x: real, y: real, c: seq<real>, t: real)
    requires 0.0 <= t <= 1.0 && Opposite(x, y) && Product(a) > 0.0 && Product(c) > 0.0
    ensures Product(a + [Pull(x * y, t)] + c) <= Product(a + [Pull(x, t), Pull(y, t)] + c)
  {
    var u, v := Pull(x * y, t), Pull(x, t) * Pull(y, t);
    PairInside(a, Pull(x, t), Pull(y, t), c);
    SplitThree(a, [u], c);
    SplitThree(a, [v], c);
    SingleProduct(u);
    SingleProduct(v);
    MergeOpposite(x, y, t);
    Sandwich(Product(a), u, v, Product(c));
  }

  lemma PairInside(a: seq<real>, x: real, y: real, c: seq<real>)
    ensures Product(a + [x, y] + c) == Product(a + [x * y] + c)
  {
    SplitThree(a, [x, y], c);
    SplitThree(a, [x * y], c);
    PairProduct(x, y);
  }

  lemma Sandwich(p: real, u: real, v: real, q: real)
    requires p > 0.0 && q > 0.0 && u <= v
    ensures p * u * q <= p * v * q
  {
    ScaleOrder(p, u, v);
    ScaleOrder(q, p * u, p * v);
  }

  lemma SingleProduct(x: real)
    ensures Product([x]) == x
  {
    assert [x][..0] == [];
  }

  lemma PairProduct(x: real, y: real)
    ensures Product([x, y]) == x * y && Product([x * y]) == x * y
  {
    assert [x, y][..1] == [x];
    SingleProduct(x);
    SingleProduct(x * y);
  }

  lemma SplitThree(a: seq<real>, b: seq<real>, c: seq<real>)
    ensures Product(a + b + c) == Product(a) * Product(b) * Product(c)
  {
    ProductConcat(a + b, c);
    ProductConcat(a, b);
  }

  lemma BlendPositive(xs: seq<real>, t: real)
    requires 0.0 <= t <= 1.0 && AllPositive(xs)
    ensures Product(Blend(xs, t)) > 0.0
  {
    forall k | 0 <= k < |xs| ensures Pull(xs[k], t) > 0.0 {
      PullPositive(xs[k], t);
    }
    ProductPositive(Blend(xs, t));
  }

  lemma EquityStep(rs: seq<real>, path: seq<nat>, leverage: real, k: nat)
    requires InRange(path, |rs|) && k < |path|
    ensures Equity(rs, path[..k + 1], leverage) == Equity(rs, path[..k], leverage) * Factor(rs[path[k]], leverage)
  {
    assert Factors(rs, path[..k + 1], leverage)[..k] == Factors(rs, path[..k], leverage);
  }

  /** On a surviving path every single-period factor is positive. */
  lemma SurvivorFactorsPositive(rs: seq<real>, path: seq<nat>, leverage: real, floor: real)
    requires InRange(path, |rs|) && 0.0 <= floor < 1.0
    requires Survives(rs, path, leverage, floor)
    ensures AllPositive(Factors(rs, path, leverage))
  {
    forall k | 0 <= k < |path| ensures Factor(rs[path[k]], leverage) > 0.0 {
      EquityStep(rs, path, leverage, k);
      var before, f := Equity(rs, path[..k], leverage), Factor(rs[path[k]], leverage);
      assert before > 0.0 by {
        if k == 0 {
          assert path[..0] == [];
        }
      }
      var after := Equity(rs, path[..k + 1], leverage);
      assert after > floor;
      if f <= 0.0 {
        NonNegProduct(before, -f);
      }
    }
  }

  /** A path that survives at some leverage survives at every smaller one. */
  lemma SurvivalMonotone(rs: seq<real>, path: seq<nat>, lo: real, hi: real, floor: real)
    requires InRange(path, |rs|) && 0.0 < floor < 1.0 && 0.0 <= lo <= hi
    requires Survives(rs, path, hi, floor)
    ensures Survives(rs, path, lo, floor)
  {
    SurvivorFactorsPositive(rs, path, hi, floor);
    var t := Share(lo, hi);
    forall k | 1 <= k <= |path| ensures Equity(rs, path[..k], lo) > floor {
      assert Equity(rs, path[..k], hi) > floor;
      EquityBound(rs, path[..k], t, hi);
    }
  }

  /** Scaling leverage by `t` leaves equity at least the smaller of 1 and the unscaled equity. */
  lemma EquityBound(rs: seq<real>, path: seq<nat>, t: real, hi: real)
    requires InRange(path, |rs|) && 0.0 <= t <= 1.0
    requires forall k | 0 <= k < |path| :: Factor(rs[path[k]], hi) > 0.0
    ensures Equity(rs, path, t * hi) >= Min(1.0, Equity(rs, path, hi))
  {
    var xs := Factors(rs, path, hi);
    BlendBound(xs, t);
    forall j | 0 <= j < |path| ensures Factor(rs[path[j]], t * hi) == Pull(xs[j], t) {
      ScaleFactor(rs[path[j]], t, hi);
    }
    assert Factors(rs, path, t * hi) == Blend(xs, t);
  }

  lemma Share(lo: real, hi: real) returns (t: real)
    requires 0.0 <= lo <= hi
    ensures 0.0 <= t <= 1.0 && lo == t * hi
  {
    if hi == 0.0 {
      t := 0.0;
    } else {
      t := lo / hi;
    }
  }

  lemma ScaleFactor(r: real, t: real, hi: real)
    ensures Factor(r, t * hi) == Pull(Factor(r, hi), t)
  {
    assert r * (t * hi) == t * (r * hi);
  }

  // ---------------------------------------------------------------------------------------------
  // Stationary bootstrap
  // ---------------------------------------------------------------------------------------------

  /** A seeded generator: a state and the two draws the bootstrap makes from it. */
  datatype Generator = Generator(unit: int -> (real, int), below: (int, nat) -> (nat, int))

  ghost predicate Fair(g: Generator) {
    forall s: int, n: nat | n > 0 :: g.below(s, n).0 < n
  }

  /** Everything but the returns and the leverage. `autoBlock` is the Politis-White selection. */
  datatype Bootstrap = Bootstrap(
    horizon: int,
    nPaths: int,
    killSwitchDd: real,
    blockLength: Option<int>,
    autoBlock: int,
    gen: Generator,
    seed: int)

  /** The mean block length in force: the one given, or else the automatic one, from 1 to the number of returns. */
  function BlockLength(b: Bootstrap, n: nat): (len: int)
    requires n > 0
    ensures 1 <= len <= n
    ensures var asked := if b.blockLength.Some? then b.blockLength.value else b.autoBlock;
            (asked <= 1 ==> len == 1) && (1 <= asked <= n ==> len == asked) && (asked >= n ==> len == n)
  {
    MaxInt(1, MinInt(if b.blockLength.Some? then b.blockLength.value else b.autoBlock, n))
  }

  function BlockStart(b: Bootstrap, n: nat): (p: real)
    requires n > 0
    ensures 0.0 < p <= 1.0
  {
    1.0 / BlockLength(b, n) as real
  }

  function StationaryPath(g: Generator, s: int, len: nat, n: nat, p: real): (r: (seq<nat>, int))
    requires n > 0
    ensures |r.0| == if len == 0 then 1 else len
    decreases len
  {
    if len <= 1 then
      var (first, s1) := g.below(s, n);
      ([first], s1)
    else
      var (idx, s1) := StationaryPath(g, s, len - 1, n, p);
      ExtendPath(g, s1, idx, n, p)
  }

  function ExtendPath(g: Generator, s: int, idx: seq<nat>, n: nat, p: real): (seq<nat>, int)
    requires n > 0 && |idx| > 0
  {
    var (u, s1) := g.unit(s);
    if u < p then
      var (fresh_, s2) := g.below(s1, n);
      (idx + [fresh_], s2)
    else
      (idx + [(idx[|idx| - 1] + 1) % n], s1)
  }

  lemma {:induction false} StationaryPathInRange(g: Generator, s: int, len: nat, n: nat, p: real)
    requires n > 0 && Fair(g)
    ensures InRange(StationaryPath(g, s, len, n, p).0, n)
    decreases len
  {
    if len > 1 {
      StationaryPathInRange(g, s, len - 1, n, p);
    }
  }

  /** All `count` paths drawn in sequence, with the generator state they leave behind. */
  function Paths(g: Generator, s: int, count: nat, len: nat, n: nat, p: real): (r: (seq<seq<nat>>, int))
    requires n > 0
    ensures |r.0| == count
  {
    if count == 0 then ([], s)
    else
      var (paths, s1) := Paths(g, s, count - 1, len, n, p);
      var (path, s2) := StationaryPath(g, s1, len, n, p);
      (paths + [path], s2)
  }

  ghost predicate AllInRange(paths: seq<seq<nat>>, n: nat) {
    forall j | 0 <= j < |paths| :: InRange(paths[j], n)
  }

  lemma {:induction false} PathsInRange(g: Generator, s: int, count: nat, len: nat, n: nat, p: real)
    requires n > 0 && Fair(g)
    ensures AllInRange(Paths(g, s, count, len, n, p).0, n)
  {
    if count > 0 {
      PathsInRange(g, s, count - 1, len, n, p);
      StationaryPathInRange(g, Paths(g, s, count - 1, len, n, p).1, len, n, p);
    }
  }

  ghost function SurvivorCount(rs: seq<real>, paths: seq<seq<nat>>, leverage: real, floor: real): nat
    requires AllInRange(paths, |rs|)
  {
    if |paths| == 0 then 0
    else
      SurvivorCount(rs, paths[..|paths| - 1], leverage, floor)
      + if Survives(rs, paths[|paths| - 1], leverage, floor) then 1 else 0
  }

  ghost function PathsOf(b: Bootstrap, n: nat): seq<seq<nat>>
    requires n > 0 && b.horizon >= 1 && b.nPaths >= 1
  {
    Paths(b.gen, b.seed, b.nPaths, b.horizon, n, BlockStart(b, n)).0
  }

  function CheckInputs(rs: seq<real>, leverage: real, b: Bootstrap): Option<Error> {
    if leverage < 0.0 then Some(NegativeLeverage)
    else if b.horizon < 1 then Some(BadHorizon)
    else if b.nPaths < 1 then Some(BadPathCount)
    else if !(0.0 < b.killSwitchDd < 1.0) then Some(BadKillSwitch)
    else if |rs| < MIN_RETURNS then Some(TooFewReturns)
    else None
  }

  /** The share of bootstrap paths that survive. */
  ghost function Probability(rs: seq<real>, leverage: real, b: Bootstrap): Result<real, Error>
    requires Fair(b.gen)
  {
    if CheckInputs(rs, leverage, b).Some? then Failure(CheckInputs(rs, leverage, b).value)
    else
      PathsInRange(b.gen, b.seed, b.nPaths, b.horizon, |rs|, BlockStart(b, |rs|));
      Success(SurvivorCount(rs, PathsOf(b, |rs|), leverage, 1.0 - b.killSwitchDd) as real / b.nPaths as real)
  }

  lemma {:induction false} SurvivorCountBounds(rs: seq<real>, paths: seq<seq<nat>>, leverage: real, floor: real)
    requires AllInRange(paths, |rs|)
    ensures SurvivorCount(rs, paths, leverage, floor) <= |paths|
  {
    if |paths| > 0 {
      SurvivorCountBounds(rs, paths[..|paths| - 1], leverage, floor);
    }
  }

  lemma {:induction false} SurvivorCountMonotone(rs: seq<real>, paths: seq<seq<nat>>, lo: real, hi: real, floor: real)
    requires AllInRange(paths, |rs|) && 0.0 < floor < 1.0 && 0.0 <= lo <= hi
    ensures SurvivorCount(rs, paths, hi, floor) <= SurvivorCount(rs, paths, lo, floor)
  {
    if |paths| > 0 {
      var n := |paths| - 1;
      SurvivorCountMonotone(rs, paths[..n], lo, hi, floor);
      if Survives(rs, paths[n], hi, floor) {
        SurvivalMonotone(rs, paths[n], lo, hi, floor);
      }
    }
  }

  /** Under one seed the survival probability never rises with leverage. */
  lemma ProbabilityMonotone(rs: seq<real>, lo: real, hi: real, b: Bootstrap)
    requires Fair(b.gen) && 0.0 <= lo <= hi
    requires Probability(rs, hi, b).Success?
    ensures Probability(rs, lo, b).Success?
    ensures Probability(rs, hi, b).value <= Probability(rs, lo, b).value
  {
    PathsInRange(b.gen, b.seed, b.nPaths, b.horizon, |rs|, BlockStart(b, |rs|));
    var paths, floor := PathsOf(b, |rs|), 1.0 - b.killSwitchDd;
    SurvivorCountMonotone(rs, paths, lo, hi, floor);
    DivideOrder(SurvivorCount(rs, paths, hi, floor), SurvivorCount(rs, paths, lo, floor), b.nPaths);
  }

  lemma DivideOrder(a: nat, c: nat, n: nat)
    requires a <= c && n > 0
    ensures a as real / n as real <= c as real / n as real
  {
  }

  lemma FractionRange(a: nat, n: nat)
    requires a <= n && n > 0
    ensures 0.0 <= a as real / n as real <= 1.0
    ensures a == n ==> a as real / n as real == 1.0
  {
  }

  /** A flat account always survives, and the probability is a share of the paths. */
  lemma ProbabilityRange(rs: seq<real>, leverage: real, b: Bootstrap)
    requires Fair(b.gen) && Probability(rs, leverage, b).Success?
    ensures 0.0 <= Probability(rs, leverage, b).value <= 1.0
    ensures leverage == 0.0 ==> Probability(rs, leverage, b).value == 1.0
  {
    PathsInRange(b.gen, b.seed, b.nPaths, b.horizon, |rs|, BlockStart(b, |rs|));
    var paths, floor := PathsOf(b, |rs|), 1.0 - b.killSwitchDd;
    SurvivorCountBounds(rs, paths, leverage, floor);
    FractionRange(SurvivorCount(rs, paths, leverage, floor), b.nPaths);
    if leverage == 0.0 {
      FlatCount(rs, paths, floor);
    }
  }

  lemma {:induction false} FlatCount(rs: seq<real>, paths: seq<seq<nat>>, floor: real)
    requires AllInRange(paths, |rs|) && floor < 1.0
    ensures SurvivorCount(rs, paths, 0.0, floor) == |paths|
  {
    if |paths| > 0 {
      var n := |paths| - 1;
      FlatCount(rs, paths[..n], floor);
      forall k | 1 <= k <= |paths[n]| ensures Equity(rs, paths[n][..k], 0.0) > floor {
        ProductAtLeastOne(Factors(rs, paths[n][..k], 0.0));
      }
    }
  }

  // ---------------------------------------------------------------------------------------------
  // What the share counts
  // ---------------------------------------------------------------------------------------------

  /** After every period the account has lost less than `loss` of what it started with. */
  predicate StaysWithin(rs: seq<real>, path: seq<nat>, leverage: real, loss: real)
    requires InRange(path, |rs|)
  {
    forall k | 1 <= k <= |path| :: 1.0 - Equity(rs, path[..k], leverage) < loss
  }

  ghost function CountWithin(rs: seq<real>, paths: seq<seq<nat>>, leverage: real, loss: real): nat
    requires AllInRange(paths, |rs|)
  {
    if |paths| == 0 then 0
    else
      CountWithin(rs, paths[..|paths| - 1], leverage, loss)
      + if StaysWithin(rs, paths[|paths| - 1], leverage, loss) then 1 else 0
  }

  lemma {:induction false} SurvivorsStayWithin(rs: seq<real>, paths: seq<seq<nat>>, leverage: real, loss: real)
    requires AllInRange(paths, |rs|)
    ensures SurvivorCount(rs, paths, leverage, 1.0 - loss) == CountWithin(rs, paths, leverage, loss)
  {
    if |paths| > 0 {
      var n := |paths| - 1;
      SurvivorsStayWithin(rs, paths[..n], leverage, loss);
      FloorIsLoss(rs, paths[n], leverage, loss);
    }
  }

  lemma FloorIsLoss(rs: seq<real>, path: seq<nat>, leverage: real, loss: real)
    requires InRange(path, |rs|)
    ensures Survives(rs, path, leverage, 1.0 - loss) <==> StaysWithin(rs, path, leverage, loss)
  {
    forall k | 1 <= k <= |path| ensures Equity(rs, path[..k], leverage) > 1.0 - loss <==> 1.0 - Equity(rs, path[..k], leverage) < loss {
    }
  }

  lemma ShareTimes(share: real, count: nat, n: nat)
    requires n > 0 && share == count as real / n as real
    ensures share * n as real == count as real
  {
  }

  /** Every path has as many periods as the horizon. */
  ghost predicate AllOfLength(paths: seq<seq<nat>>, len: int) {
    forall j | 0 <= j < |paths| :: |paths[j]| == len
  }

  lemma {:induction false} PathsOfLength(g: Generator, s: int, count: nat, len: nat, n: nat, p: real)
    requires n > 0 && len > 0
    ensures AllOfLength(Paths(g, s, count, len, n, p).0, len)
  {
    if count > 0 {
      PathsOfLength(g, s, count - 1, len, n, p);
    }
  }

  lemma PathsAreSound(b: Bootstrap, n: nat)
    requires Fair(b.gen) && n > 0 && b.horizon >= 1 && b.nPaths >= 1
    ensures AllInRange(PathsOf(b, n), n) && AllOfLength(PathsOf(b, n), b.horizon) && |PathsOf(b, n)| == b.nPaths
  {
    PathsInRange(b.gen, b.seed, b.nPaths, b.horizon, n, BlockStart(b, n));
    PathsOfLength(b.gen, b.seed, b.nPaths, b.horizon, n, BlockStart(b, n));
  }

  ghost function SurvivingShare(rs: seq<real>, paths: seq<seq<nat>>, leverage: real, loss: real, n: int): real
    requires AllInRange(paths, |rs|) && n > 0
  {
    SurvivorCount(rs, paths, leverage, 1.0 - loss) as real / n as real
  }

  lemma ProbabilityIs(rs: seq<real>, leverage: real, b: Bootstrap)
    requires Fair(b.gen) && Probability(rs, leverage, b).Success?
    ensures |rs| >= 2 && b.horizon >= 1 && b.nPaths >= 1 && AllInRange(PathsOf(b, |rs|), |rs|)
    ensures Probability(rs, leverage, b).value == SurvivingShare(rs, PathsOf(b, |rs|), leverage, b.killSwitchDd, b.nPaths)
  {
    PathsInRange(b.gen, b.seed, b.nPaths, b.horizon, |rs|, BlockStart(b, |rs|));
  }

  /** `share` of the `n` paths, each of `horizon` periods, stay within the loss. */
  ghost predicate IsShare(rs: seq<real>, paths: seq<seq<nat>>, leverage: real, loss: real, n: int, horizon: int, share: real) {
    && |paths| == n >= 1 && AllInRange(paths, |rs|) && AllOfLength(paths, horizon)
    && share * n as real == CountWithin(rs, paths, leverage, loss) as real
  }

  /** The probability is the share of the paths, each as long as the horizon, on which the loss stays below the
    * kill switch after every period. */
  lemma ProbabilityIsShare(rs: seq<real>, leverage: real, b: Bootstrap)
    requires Fair(b.gen) && Probability(rs, leverage, b).Success?
    ensures |rs| >= 2 && b.horizon >= 1 && b.nPaths >= 1
    ensures IsShare(rs, PathsOf(b, |rs|), leverage, b.killSwitchDd, b.nPaths, b.horizon, Probability(rs, leverage, b).value)
  {
    ProbabilityIs(rs, leverage, b);
    PathsAreSound(b, |rs|);
    var share := Probability(rs, leverage, b).value;
    ShareOfPaths(rs, PathsOf(b, |rs|), leverage, b.killSwitchDd, b.nPaths, b.horizon, share);
  }

  lemma ShareOfPaths(rs: seq<real>, paths: seq<seq<nat>>, leverage: real, loss: real, n: int, horizon: int, share: real)
    requires AllInRange(paths, |rs|) && AllOfLength(paths, horizon) && |paths| == n >= 1
    requires share == SurvivingShare(rs, paths, leverage, loss, n)
    ensures IsShare(rs, paths, leverage, loss, n, horizon, share)
  {
    ShareWithin(rs, paths, leverage, loss, share, n);
  }

  lemma ShareWithin(rs: seq<real>, paths: seq<seq<nat>>, leverage: real, loss: real, share: real, n: nat)
    requires AllInRange(paths, |rs|) && n > 0 && share == SurvivorCount(rs, paths, leverage, 1.0 - loss) as real / n as real
    ensures share * n as real == CountWithin(rs, paths, leverage, loss) as real
  {
    SurvivorsStayWithin(rs, paths, leverage, loss);
    ShareTimes(share, CountWithin(rs, paths, leverage, loss), n);
  }

  lemma {:induction false} CountAll(rs: seq<real>, paths: seq<seq<nat>>, leverage: real, loss: real, stay: bool)
    requires AllInRange(paths, |rs|) && forall j | 0 <= j < |paths| :: StaysWithin(rs, paths[j], leverage, loss) == stay
    ensures CountWithin(rs, paths, leverage, loss) == if stay then |paths| else 0
  {
    if |paths| > 0 {
      CountAll(rs, paths[..|paths| - 1], leverage, loss, stay);
    }
  }

  /** When every path fares alike the probability is 1 or 0. */
  lemma AllAlike(rs: seq<real>, leverage: real, b: Bootstrap, stay: bool)
    requires Fair(b.gen) && Probability(rs, leverage, b).Success? && b.horizon >= 1
    requires forall path: seq<nat> | InRange(path, |rs|) && |path| == b.horizon :: StaysWithin(rs, path, leverage, b.killSwitchDd) == stay
    ensures Probability(rs, leverage, b).value == if stay then 1.0 else 0.0
  {
    ProbabilityIsShare(rs, leverage, b);
    AllAlikeShare(rs, PathsOf(b, |rs|), b.nPaths, b.horizon, leverage, b.killSwitchDd, Probability(rs, leverage, b).value, stay);
  }

  lemma AllAlikeShare(rs: seq<real>, paths: seq<seq<nat>>, n: int, horizon: int, leverage: real, loss: real, share: real, stay: bool)
    requires IsShare(rs, paths, leverage, loss, n, horizon, share)
    requires forall path: seq<nat> | InRange(path, |rs|) && |path| == horizon :: StaysWithin(rs, path, leverage, loss) == stay
    ensures share == if stay then 1.0 else 0.0
  {
    CountAll(rs, paths, leverage, loss, stay);
    OnlyShare(share, n, if stay then n else 0);
  }

  lemma OnlyShare(x: real, n: nat, count: nat)
    requires n > 0 && x * n as real == count as real && (count == n || count == 0)
    ensures x == if count == 0 then 0.0 else 1.0
  {
    var share := if count == 0 then 0.0 else 1.0;
    assert (x - share) * n as real == 0.0;
  }

  lemma FirstPeriod(rs: seq<real>, path: seq<nat>, leverage: real)
    requires InRange(path, |rs|) && |path| >= 1
    ensures Equity(rs, path[..1], leverage) == 1.0 + rs[path[0]] * leverage
  {
    EquityStep(rs, path, leverage, 0);
    assert Equity(rs, path[..0], leverage) == 1.0;
  }

  /** When every return at that leverage loses the kill switch or more, no path survives. */
  lemma AllRuinous(rs: seq<real>, leverage: real, b: Bootstrap)
    requires Fair(b.gen) && Probability(rs, leverage, b).Success?
    requires forall j | 0 <= j < |rs| :: rs[j] * leverage <= -b.killSwitchDd
    ensures Probability(rs, leverage, b).value == 0.0
  {
    forall path: seq<nat> | InRange(path, |rs|) && |path| == b.horizon ensures !StaysWithin(rs, path, leverage, b.killSwitchDd) {
      FirstPeriod(rs, path, leverage);
    }
    AllAlike(rs, leverage, b, false);
  }

  /** Over one period a return is survived exactly when it loses less than the kill switch. */
  lemma OnePeriod(rs: seq<real>, path: seq<nat>, leverage: real, loss: real)
    requires InRange(path, |rs|) && |path| == 1
    ensures StaysWithin(rs, path, leverage, loss) <==> rs[path[0]] * leverage > -loss
  {
    FirstPeriod(rs, path, leverage);
  }

  /** Over one period, when every return at that leverage loses less than the kill switch, all paths survive. */
  lemma NoneRuinous(rs: seq<real>, leverage: real, b: Bootstrap)
    requires Fair(b.gen) && Probability(rs, leverage, b).Success? && b.horizon == 1
    requires forall j | 0 <= j < |rs| :: rs[j] * leverage > -b.killSwitchDd
    ensures Probability(rs, leverage, b).value == 1.0
  {
    forall path: seq<nat> | InRange(path, |rs|) && |path| == b.horizon ensures StaysWithin(rs, path, leverage, b.killSwitchDd) {
      OnePeriod(rs, path, leverage, b.killSwitchDd);
    }
    AllAlike(rs, leverage, b, true);
  }

  function Power(g: real, k: nat): real {
    if k == 0 then 1.0 else Power(g, k - 1) * g
  }

  /** Growing by `g` a period, the account has lost less than `loss` after each of `n` periods. */
  predicate LosesLess(g: real, n: int, loss: real) {
    forall k: nat | 1 <= k <= n :: 1.0 - Power(g, k) < loss
  }

  lemma {:induction false} ConstantEquity(rs: seq<real>, path: seq<nat>, leverage: real, r: real, k: nat)
    requires InRange(path, |rs|) && k <= |path| && forall j | 0 <= j < |rs| :: rs[j] == r
    ensures Equity(rs, path[..k], leverage) == Power(1.0 + r * leverage, k)
  {
    if k > 0 {
      ConstantEquity(rs, path, leverage, r, k - 1);
      EquityStep(rs, path, leverage, k - 1);
    } else {
      assert Equity(rs, path[..0], leverage) == 1.0;
    }
  }

  /** Returns compound: when all are equal, survival is certain or impossible, as the growth over each number of
    * periods up to the horizon loses less than the kill switch or not. */
  lemma ConstantReturns(rs: seq<real>, leverage: real, b: Bootstrap, r: real)
    requires Fair(b.gen) && Probability(rs, leverage, b).Success? && forall j | 0 <= j < |rs| :: rs[j] == r
    ensures Probability(rs, leverage, b).value
            == if LosesLess(1.0 + r * leverage, b.horizon, b.killSwitchDd) then 1.0 else 0.0
  {
    var g := 1.0 + r * leverage;
    var stay := LosesLess(g, b.horizon, b.killSwitchDd);
    forall path: seq<nat> | InRange(path, |rs|) && |path| == b.horizon ensures StaysWithin(rs, path, leverage, b.killSwitchDd) == stay {
      forall k: nat | 1 <= k <= |path| ensures Equity(rs, path[..k], leverage) == Power(g, k) {
        ConstantEquity(rs, path, leverage, r, k);
      }
      StaysAsPowers(rs, path, leverage, b.killSwitchDd, g);
    }
    AllAlike(rs, leverage, b, stay);
  }

  lemma StaysAsPowers(rs: seq<real>, path: seq<nat>, leverage: real, loss: real, g: real)
    requires InRange(path, |rs|) && forall k: nat | 1 <= k <= |path| :: Equity(rs, path[..k], leverage) == Power(g, k)
    ensures StaysWithin(rs, path, leverage, loss) <==> LosesLess(g, |path|, loss)
  {
    if !StaysWithin(rs, path, leverage, loss) {
      var k: nat :| 1 <= k <= |path| && 1.0 - Equity(rs, path[..k], leverage) >= loss;
      assert 1.0 - Power(g, k) >= loss;
    }
  }

  // ---------------------------------------------------------------------------------------------
  // What a path is
  // ---------------------------------------------------------------------------------------------

  /** One index more: drawn afresh, or the one after the last, wrapping round. */
  lemma PathStep(g: Generator, s: int, len: nat, n: nat, p: real) returns (t: int)
    requires n > 0 && len > 1
    ensures var path, before := StationaryPath(g, s, len, n, p).0, StationaryPath(g, s, len - 1, n, p).0;
            path == before + [if g.unit(t).0 < p then g.below(g.unit(t).1, n).0 else (before[|before| - 1] + 1) % n]
  {
    var before := StationaryPath(g, s, len - 1, n, p);
    t := before.1;
    assert StationaryPath(g, s, len, n, p) == ExtendPath(g, t, before.0, n, p);
  }

  /** Paths are drawn from one generator that goes on from each to the next: the first from the seed, the rest as if
    * seeded with what the first leaves. */
  lemma {:induction false} PathsChain(g: Generator, s: int, count: nat, len: nat, n: nat, p: real)
    requires n > 0 && count > 0
    ensures var (first, after) := StationaryPath(g, s, len, n, p);
            var (rest, end) := Paths(g, after, count - 1, len, n, p);
            Paths(g, s, count, len, n, p) == ([first] + rest, end)
  {
    var (first, after) := StationaryPath(g, s, len, n, p);
    if count > 1 {
      PathsChain(g, s, count - 1, len, n, p);
      var (rest, end) := Paths(g, after, count - 2, len, n, p);
      var (last, done) := StationaryPath(g, end, len, n, p);
      assert [first] + rest + [last] == [first] + (rest + [last]);
    } else {
      assert Paths(g, s, 0, len, n, p) == ([], s) && Paths(g, after, 0, len, n, p) == ([], after);
      assert [] + [first] == [first] + [];
    }
  }

  /** Every index but the first follows the one before it, wrapping round. */
  ghost predicate InSequence(path: seq<nat>, n: nat)
    requires n > 0
  {
    forall i | 0 < i < |path| :: path[i] == (path[i - 1] + 1) % n
  }

  ghost predicate Drawn(g: Generator, path: seq<nat>, n: nat) {
    forall i | 0 <= i < |path| :: exists t: int :: path[i] == g.below(t, n).0
  }

  lemma DrawnNext(g: Generator, path: seq<nat>, t: int, n: nat)
    requires Drawn(g, path, n)
    ensures Drawn(g, path + [g.below(t, n).0], n)
  {
    var longer := path + [g.below(t, n).0];
    forall i | 0 <= i < |longer| ensures exists t: int :: longer[i] == g.below(t, n).0 {
      if i < |path| {
        assert longer[i] == path[i];
      }
    }
  }

  lemma {:induction false} GoesOn(g: Generator, s: int, len: nat, n: nat, p: real)
    requires n > 0 && forall t: int :: g.unit(t).0 >= p
    ensures InSequence(StationaryPath(g, s, len, n, p).0, n)
    decreases len
  {
    if len > 1 {
      GoesOn(g, s, len - 1, n, p);
      var t := PathStep(g, s, len, n, p);
    }
  }

  lemma {:induction false} StartsAfresh(g: Generator, s: int, len: nat, n: nat, p: real)
    requires n > 0 && forall t: int :: g.unit(t).0 < p
    ensures Drawn(g, StationaryPath(g, s, len, n, p).0, n)
    decreases len
  {
    if len > 1 {
      StartsAfresh(g, s, len - 1, n, p);
      var t := PathStep(g, s, len, n, p);
      DrawnNext(g, StationaryPath(g, s, len - 1, n, p).0, g.unit(t).1, n);
    } else {
      assert StationaryPath(g, s, len, n, p).0 == [g.below(s, n).0];
    }
  }

  /** A new block starts at a draw below one over the block length. While none is, a path takes the returns in
    * order; while all are, every index is drawn afresh. */
  lemma BlocksStart(b: Bootstrap, s: int, len: nat, n: nat)
    requires n > 0
    ensures (forall t: int :: b.gen.unit(t).0 >= 1.0 / BlockLength(b, n) as real)
            ==> InSequence(StationaryPath(b.gen, s, len, n, BlockStart(b, n)).0, n)
    ensures (forall t: int :: b.gen.unit(t).0 < 1.0 / BlockLength(b, n) as real)
            ==> Drawn(b.gen, StationaryPath(b.gen, s, len, n, BlockStart(b, n)).0, n)
  {
    if forall t: int :: b.gen.unit(t).0 >= 1.0 / BlockLength(b, n) as real {
      GoesOn(b.gen, s, len, n, BlockStart(b, n));
    }
    if forall t: int :: b.gen.unit(t).0 < 1.0 / BlockLength(b, n) as real {
      StartsAfresh(b.gen, s, len, n, BlockStart(b, n));
    }
  }

  // ---------------------------------------------------------------------------------------------
  // The loops
  // ---------------------------------------------------------------------------------------------

  method DrawPath(g: Generator, s: int, len: nat, n: nat, p: real) returns (idx: seq<nat>, state: int)
    requires n > 0 && len >= 1
    ensures (idx, state) == StationaryPath(g, s, len, n, p)
  {
    var (first, s1) := g.below(s, n);
    idx, state := [first], s1;
    for i := 1 to len
      invariant |idx| == i && (idx, state) == StationaryPath(g, s, i, n, p)
    {
      var (u, s2) := g.unit(state);
      state := s2;
      if u < p {
        var (v, s3) := g.below(state, n);
        idx, state := idx + [v], s3;
      } else {
        idx := idx + [(idx[|idx| - 1] + 1) % n];
      }
    }
  }

  /** Walks one path, stopping at the first breach of the floor or of zero. */
  method WalkPath(rs: seq<real>, path: seq<nat>, leverage: real, floor: real) returns (alive: bool)
    requires InRange(path, |rs|) && 0.0 < floor
    ensures alive == Survives(rs, path, leverage, floor)
  {
    var equity := 1.0;
    alive := true;
    for i := 0 to |path|
      invariant alive && equity == Equity(rs, path[..i], leverage)
      invariant forall k | 1 <= k <= i :: Equity(rs, path[..k], leverage) > floor
    {
      EquityStep(rs, path, leverage, i);
      equity := equity * (1.0 + rs[path[i]] * leverage);
      if equity <= floor || equity <= 0.0 {
        return false;
      }
    }
  }

  method SurvivalProbability(rs: seq<real>, leverage: real, b: Bootstrap) returns (r: Result<real, Error>)
    requires Fair(b.gen)
    ensures r == Probability(rs, leverage, b)
    ensures leverage < 0.0 ==> r == Failure(NegativeLeverage)
    ensures leverage >= 0.0 && b.horizon < 1 ==> r == Failure(BadHorizon)
    ensures leverage >= 0.0 && b.horizon >= 1 && b.nPaths < 1 ==> r == Failure(BadPathCount)
    ensures leverage >= 0.0 && b.horizon >= 1 && b.nPaths >= 1 && !(0.0 < b.killSwitchDd < 1.0) ==> r == Failure(BadKillSwitch)
    ensures leverage >= 0.0 && b.horizon >= 1 && b.nPaths >= 1 && 0.0 < b.killSwitchDd < 1.0 && |rs| < 2 ==> r == Failure(TooFewReturns)
    ensures leverage >= 0.0 && b.horizon >= 1 && b.nPaths >= 1 && 0.0 < b.killSwitchDd < 1.0 && |rs| >= 2 ==> r.Success?
  {
    var bad := CheckInputs(rs, leverage, b);
    if bad.Some? {
      return Failure(bad.value);
    }
    var n := |rs|;
    var p := BlockStart(b, n);
    var floor := 1.0 - b.killSwitchDd;
    var survived := CountSurvivors(rs, leverage, b, p, floor);
    r := Success(survived as real / b.nPaths as real);
  }

  lemma SurvivorOneMore(rs: seq<real>, paths: seq<seq<nat>>, path: seq<nat>, leverage: real, floor: real)
    requires AllInRange(paths, |rs|) && InRange(path, |rs|)
    ensures AllInRange(paths + [path], |rs|)
    ensures SurvivorCount(rs, paths + [path], leverage, floor)
            == SurvivorCount(rs, paths, leverage, floor) + if Survives(rs, path, leverage, floor) then 1 else 0
  {
    assert (paths + [path])[..|paths|] == paths;
  }

  /** Draws the paths one after the other and counts those that survive. */
  method CountSurvivors(rs: seq<real>, leverage: real, b: Bootstrap, p: real, floor: real) returns (survived: nat)
    requires Fair(b.gen) && |rs| > 0 && b.horizon >= 1 && b.nPaths >= 1 && 0.0 < floor
    ensures var paths := Paths(b.gen, b.seed, b.nPaths, b.horizon, |rs|, p).0;
            AllInRange(paths, |rs|) && survived == SurvivorCount(rs, paths, leverage, floor)
  {
    var n := |rs|;
    var state := b.seed;
    survived := 0;
    ghost var paths := [];
    for j := 0 to b.nPaths
      invariant (paths, state) == Paths(b.gen, b.seed, j, b.horizon, n, p)
      invariant AllInRange(paths, n) && survived == SurvivorCount(rs, paths, leverage, floor)
    {
      StationaryPathInRange(b.gen, state, b.horizon, n, p);
      var path, next := DrawPath(b.gen, state, b.horizon, n, p);
      var alive := WalkPath(rs, path, leverage, floor);
      if alive {
        survived := survived + 1;
      }
      SurvivorOneMore(rs, paths, path, leverage, floor);
      state := next;
      paths := paths + [path];
    }
  }
}
