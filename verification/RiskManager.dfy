/** Tighten-only position sizing: futur3/execution/risk_manager.py. */
module RiskManager {
  import opened Wrappers
  import opened Contracts
  import Survival

  datatype Error =
    | NonPositiveEquity
    | NonPositivePrice
    | SymbolTooShort
    | NoMargin
    | NoMultiplier
    | ZeroMargin
    | NegativeContracts

  datatype Params = Params(
    kellyMultiplier: real,
    marginBudgetPct: real,
    leverageCap: real,
    survivalFloor: real,
    killSwitchDd: real,
    survivalHorizon: int,
    survivalPaths: int)
  {
    predicate Valid() {
      && 0.0 < kellyMultiplier <= 1.0
      && 0.0 < marginBudgetPct <= 1.0
      && leverageCap > 0.0
      && 0.0 < survivalFloor < 1.0
      && 0.0 < killSwitchDd < 1.0
      && survivalHorizon >= 1
      && survivalPaths >= 1
    }
  }

  /** A risk manager with its margin source, and the two seams of the survival simulation. */
  datatype Manager = Manager(
    params: Params,
    margins: string -> Option<real>,
    gen: Survival.Generator,
    autoBlock: seq<real> -> int)
  {
    ghost predicate Valid() {
      params.Valid() && Survival.Fair(gen)
    }
  }

  /** Trailing returns and the bootstrap seed; present exactly when the survival gate is on. */
  datatype History = History(trailing: seq<real>, seed: int)

  datatype Binding = Kelly | Margin | Leverage | SurvivalGate | NoEdge

  datatype Decision = Decision(
    contracts: int,
    binding: Binding,
    kellyContracts: int,
    marginContracts: int,
    leverageContracts: int,
    notional: real,
    margin: real,
    survivalContracts: Option<int>)

  /** Rounds towards zero, as ROUND_DOWN does. */
  function Truncate(x: real): (n: int)
    ensures x >= 0.0 ==> 0 <= n && n as real <= x < n as real + 1.0
    ensures x < 0.0 ==> n <= 0 && n as real - 1.0 < x <= n as real
  {
    if x >= 0.0 then x.Floor else -((-x).Floor)
  }

  // ---------------------------------------------------------------------------------------------
  // The survival cap
  // ---------------------------------------------------------------------------------------------

  function BootstrapOf(m: Manager, h: History): Survival.Bootstrap {
    Survival.Bootstrap(m.params.survivalHorizon, m.params.survivalPaths, m.params.killSwitchDd, None,
                       m.autoBlock(h.trailing), m.gen, h.seed)
  }

  /** `n` contracts keep the survival probability at or above the floor. */
  ghost predicate Passes(m: Manager, h: History, n: int, notional: real, equity: real)
    requires m.Valid() && equity > 0.0
  {
    n <= 0 ||
    match Survival.Probability(h.trailing, n as real * notional / equity, BootstrapOf(m, h))
    case Success(p) => p >= m.params.survivalFloor
    case Failure(_) => false
  }

  lemma ImpliedLeverageOrder(n: int, k: int, notional: real, equity: real)
    requires 0 < n <= k && notional > 0.0 && equity > 0.0
    ensures 0.0 <= n as real * notional / equity <= k as real * notional / equity
  {
    assert n as real * notional <= k as real * notional;
    QuotientOrder(0.0, n as real * notional, equity);
    QuotientOrder(n as real * notional, k as real * notional, equity);
  }

  lemma QuotientOrder(a: real, b: real, d: real)
    requires a <= b && d > 0.0
    ensures a / d <= b / d
  {
  }

  /** The gate in full: at the leverage `n` contracts would have, the share of the configured number of paths, each
    * of the configured horizon and drawn from the history's seed, that lose less than the kill switch is at least
    * the floor. */
  lemma GateExactly(m: Manager, h: History, n: int, notional: real, equity: real) returns (paths: seq<seq<nat>>, share: real)
    requires m.Valid() && equity > 0.0 && notional > 0.0 && n > 0 && |h.trailing| >= 2
    ensures paths == Survival.Paths(m.gen, h.seed, m.params.survivalPaths, m.params.survivalHorizon, |h.trailing|,
                                    Survival.BlockStart(BootstrapOf(m, h), |h.trailing|)).0
    ensures Survival.IsShare(h.trailing, paths, n as real * notional / equity, m.params.killSwitchDd, m.params.survivalPaths,
                             m.params.survivalHorizon, share)
    ensures Passes(m, h, n, notional, equity) <==> share >= m.params.survivalFloor
  {
    var b := BootstrapOf(m, h);
    ImpliedLeverageOrder(n, n, notional, equity);
    Survival.ProbabilityIsShare(h.trailing, n as real * notional / equity, b);
    paths, share := Survival.PathsOf(b, |h.trailing|), Survival.Probability(h.trailing, n as real * notional / equity, b).value;
  }

  /** Survival is monotone in the contract count: the passing counts form an initial segment. */
  lemma PassesMonotone(m: Manager, h: History, n: int, k: int, notional: real, equity: real)
    requires m.Valid() && equity > 0.0 && notional > 0.0 && n <= k
    requires Passes(m, h, k, notional, equity)
    ensures Passes(m, h, n, notional, equity)
  {
    if n > 0 {
      ImpliedLeverageOrder(n, k, notional, equity);
      Survival.ProbabilityMonotone(h.trailing, n as real * notional / equity, k as real * notional / equity, BootstrapOf(m, h));
    }
  }

  /** The greatest passing count up to `base`, by exhaustive search. */
  ghost function GreatestPassing(m: Manager, h: History, base: nat, notional: real, equity: real): (cap: nat)
    requires m.Valid() && equity > 0.0
    ensures cap <= base && Passes(m, h, cap, notional, equity)
    ensures forall n | cap < n <= base :: !Passes(m, h, n, notional, equity)
  {
    if Passes(m, h, base, notional, equity) then base else GreatestPassing(m, h, base - 1, notional, equity)
  }

  method CheckSurvives(m: Manager, h: History, n: int, notional: real, equity: real) returns (ok: bool)
    requires m.Valid() && equity > 0.0 && notional > 0.0 && |h.trailing| >= Survival.MIN_RETURNS
    ensures ok == Passes(m, h, n, notional, equity)
  {
    if n <= 0 {
      return true;
    }
    var leverage := n as real * notional / equity;
    ImpliedLeverageOrder(n, n, notional, equity);
    var p := Survival.SurvivalProbability(h.trailing, leverage, BootstrapOf(m, h));
    ok := p.Success? && p.value >= m.params.survivalFloor;
  }

  /** The boundary of the passing segment; with too little history there is no cap. */
  ghost predicate SearchResult(m: Manager, h: History, base: nat, notional: real, equity: real, cap: nat)
    requires m.Valid() && equity > 0.0
  {
    if |h.trailing| < Survival.MIN_RETURNS then cap == base
    else forall n: nat | n <= base :: Passes(m, h, n, notional, equity) <==> n <= cap
  }

  /** Binary search for the boundary of the passing segment. */
  method SurvivalCap(m: Manager, h: History, base: nat, notional: real, equity: real) returns (cap: nat)
    requires m.Valid() && equity > 0.0 && notional > 0.0 && base > 0
    ensures cap <= base
    ensures SearchResult(m, h, base, notional, equity, cap)
    ensures |h.trailing| >= Survival.MIN_RETURNS ==> cap == GreatestPassing(m, h, base, notional, equity)
  {
    if |h.trailing| < Survival.MIN_RETURNS {
      return base;
    }
    var ok := CheckSurvives(m, h, base, notional, equity);
    var lo, hi := 0, base;
    if ok {
      lo := base;
    } else {
      while hi - lo > 1
        invariant 0 <= lo < hi <= base
        invariant Passes(m, h, lo, notional, equity) && !Passes(m, h, hi, notional, equity)
      {
        var mid := (lo + hi) / 2;
        var alive := CheckSurvives(m, h, mid, notional, equity);
        if alive {
          lo := mid;
        } else {
          hi := mid;
        }
      }
    }
    cap := lo;
    forall n: nat | n <= base ensures Passes(m, h, n, notional, equity) <==> n <= cap {
      if n <= cap {
        PassesMonotone(m, h, n, cap, notional, equity);
      } else if Passes(m, h, n, notional, equity) {
        PassesMonotone(m, h, cap + 1, n, notional, equity);
      }
    }
  }

  // ---------------------------------------------------------------------------------------------
  // The binding constraint
  // ---------------------------------------------------------------------------------------------

  function Caps(kelly: int, margin: int, leverage: int, survival: Option<int>): (caps: seq<(Binding, int)>)
    ensures |caps| >= 3
  {
    [(Kelly, kelly), (Margin, margin), (Leverage, leverage)]
    + if survival.Some? then [(SurvivalGate, survival.value)] else []
  }

  /** `b` names the first cap in list order that attains the smallest value. */
  ghost predicate FirstTightest(caps: seq<(Binding, int)>, b: Binding) {
    exists i :: 0 <= i < |caps| && caps[i].0 == b
      && (forall j | 0 <= j < i :: caps[j].1 > caps[i].1)
      && (forall j | i <= j < |caps| :: caps[j].1 >= caps[i].1)
  }

  method BindingOf(kelly: int, margin: int, leverage: int, survival: Option<int>) returns (b: Binding)
    ensures FirstTightest(Caps(kelly, margin, leverage, survival), b)
  {
    var caps := Caps(kelly, margin, leverage, survival);
    var smallest := caps[0].1;
    for i := 1 to |caps|
      invariant forall j | 0 <= j < i :: smallest <= caps[j].1
      invariant exists j :: 0 <= j < i && caps[j].1 == smallest
    {
      smallest := MinInt(smallest, caps[i].1);
    }
    for i := 0 to |caps|
      invariant forall j | 0 <= j < i :: caps[j].1 != smallest
    {
      if caps[i].1 == smallest {
        return caps[i].0;
      }
    }
    assert false;
    b := Kelly;
  }

  /** The survival gate is named only when it is strictly tighter than every other cap. */
  lemma SurvivalBindsStrictly(kelly: int, margin: int, leverage: int, survival: Option<int>, b: Binding)
    requires FirstTightest(Caps(kelly, margin, leverage, survival), b)
    ensures b == SurvivalGate <==>
              survival.Some? && survival.value < kelly && survival.value < margin && survival.value < leverage
  {
    var caps := Caps(kelly, margin, leverage, survival);
    assert caps[0] == (Kelly, kelly) && caps[1] == (Margin, margin) && caps[2] == (Leverage, leverage);
    assert survival.Some? ==> |caps| == 4 && caps[3] == (SurvivalGate, survival.value);
  }

  // ---------------------------------------------------------------------------------------------
  // Sizing
  // ---------------------------------------------------------------------------------------------

  /** The margin of `n` contracts is within its share of equity. */
  predicate WithinMargin(p: Params, n: int, margin: real, equity: real) {
    n as real * margin <= equity * p.marginBudgetPct
  }

  /** Their notional is within the leverage cap. */
  predicate WithinLeverage(p: Params, n: int, notional: real, equity: real) {
    n as real * notional <= equity * p.leverageCap
  }

  /** Their notional is within the scaled Kelly fraction of equity. */
  predicate WithinKelly(p: Params, n: int, kelly: real, notional: real, equity: real) {
    n as real * notional <= kelly * p.kellyMultiplier * equity
  }

  ghost predicate MarginCap(p: Params, cap: int, margin: real, equity: real) {
    forall n: nat :: n <= cap <==> WithinMargin(p, n, margin, equity)
  }

  ghost predicate LeverageCap(p: Params, cap: int, notional: real, equity: real) {
    forall n: nat :: n <= cap <==> WithinLeverage(p, n, notional, equity)
  }

  ghost predicate KellyCap(p: Params, cap: int, kelly: real, notional: real, equity: real) {
    forall n: nat :: n <= cap <==> WithinKelly(p, n, kelly, notional, equity)
  }

  /** What `n` contracts must satisfy: the three budgets and, when on, the survival gate. */
  ghost predicate Affordable(m: Manager, kelly: real, n: int, equity: real, notional: real, margin: real, h: Option<History>)
    requires m.Valid() && equity > 0.0
  {
    && WithinMargin(m.params, n, margin, equity)
    && WithinLeverage(m.params, n, notional, equity)
    && WithinKelly(m.params, n, kelly, notional, equity)
    && (h.Some? && |h.value.trailing| >= Survival.MIN_RETURNS ==> Passes(m, h.value, n, notional, equity))
  }

  lemma TruncatedQuotient(budget: real, unit: real, n: nat)
    requires unit > 0.0 && budget >= 0.0
    ensures n <= Truncate(budget / unit) <==> n as real * unit <= budget
  {
    var q := budget / unit;
    assert q * unit == budget;
    if n as real <= q {
      assert n as real * unit <= q * unit;
    } else {
      assert (n as real - q) * unit > 0.0;
    }
    QuotientOrder(0.0, budget, unit);
  }

  lemma TruncationNonNegative(budget: real, unit: real)
    requires unit > 0.0 && budget >= 0.0
    ensures Truncate(budget / unit) >= 0
  {
    QuotientOrder(0.0, budget, unit);
  }

  /** Why a call is refused, in the order the source checks. */
  function Refusal(m: Manager, c: Contract, equity: real, price: real): Option<Error> {
    if equity <= 0.0 then Some(NonPositiveEquity)
    else if price <= 0.0 then Some(NonPositivePrice)
    else if ContractRoot(c).None? then Some(SymbolTooShort)
    else if m.margins(ContractRoot(c).value).None? then Some(NoMargin)
    else if MultiplierFor(c).None? then Some(NoMultiplier)
    else if m.margins(ContractRoot(c).value).value == 0.0 then Some(ZeroMargin)
    else None
  }

  function MarginFor(m: Manager, c: Contract): real {
    match ContractRoot(c)
    case Some(root) => (match m.margins(root) case Some(v) => v case None => 0.0)
    case None => 0.0
  }

  function NotionalFor(c: Contract, price: real): real {
    match MultiplierFor(c) case Some(v) => price * v case None => 0.0
  }

  /** The smallest of the three budget caps. */
  function BaseCap(d: Decision): int {
    MinInt(d.kellyContracts, MinInt(d.marginContracts, d.leverageContracts))
  }

  /** Each reported cap is the greatest number its own budget covers. */
  ghost predicate CapsExact(m: Manager, kelly: real, equity: real, notional: real, margin: real, d: Decision) {
    && LeverageCap(m.params, d.leverageContracts, notional, equity)
    && (margin > 0.0 ==> MarginCap(m.params, d.marginContracts, margin, equity))
    && (kelly > 0.0 ==> KellyCap(m.params, d.kellyContracts, kelly, notional, equity))
  }

  /** The size granted is the greatest affordable count, and zero without an edge.
    * A negative margin makes the margin cap negative, which the decision record refuses. */
  ghost predicate Sized(m: Manager, kelly: real, equity: real, notional: real, margin: real, h: Option<History>, d: Decision)
    requires m.Valid() && equity > 0.0
  {
    && d.contracts >= 0 && d.notional == notional && d.margin == margin && CapsExact(m, kelly, equity, notional, margin, d)
    && (kelly <= 0.0 ==> d.contracts == 0 && d.binding == NoEdge && d.survivalContracts.None?)
    && (kelly > 0.0 ==>
          && FirstTightest(Caps(d.kellyContracts, d.marginContracts, d.leverageContracts, d.survivalContracts), d.binding)
          && (d.survivalContracts.Some? <==> h.Some? && BaseCap(d) > 0)
          && d.contracts == (if d.survivalContracts.None? then BaseCap(d) else MinInt(BaseCap(d), d.survivalContracts.value)))
    && (kelly > 0.0 && margin > 0.0 ==> forall n: nat :: n <= d.contracts <==> Affordable(m, kelly, n, equity, notional, margin, h))
  }

  lemma PositiveProduct(a: real, b: real)
    requires a > 0.0 && b > 0.0
    ensures a * b > 0.0
  {
  }

  /** Capping the base by the survival search yields exactly the affordable counts. */
  lemma CappedIsAffordable(m: Manager, kelly: real, n: nat, d: Decision, base: int, cap: Option<nat>, equity: real, h: Option<History>)
    requires m.Valid() && equity > 0.0 && kelly > 0.0 && d.margin > 0.0 && d.notional > 0.0
    requires CapsExact(m, kelly, equity, d.notional, d.margin, d) && base == BaseCap(d) >= 0
    requires cap.Some? <==> h.Some? && base > 0
    requires cap.Some? ==> cap.value <= base && SearchResult(m, h.value, base, d.notional, equity, cap.value)
    ensures n <= (if cap.None? then base else MinInt(base, cap.value)) <==> Affordable(m, kelly, n, equity, d.notional, d.margin, h)
  {
    assert n <= d.leverageContracts <==> WithinLeverage(m.params, n, d.notional, equity);
    assert n <= d.marginContracts <==> WithinMargin(m.params, n, d.margin, equity);
    assert n <= d.kellyContracts <==> WithinKelly(m.params, n, kelly, d.notional, equity);
  }

  method FindMarginCap(p: Params, margin: real, equity: real) returns (cap: int)
    requires p.Valid() && equity > 0.0 && margin != 0.0
    ensures margin > 0.0 ==> MarginCap(p, cap, margin, equity) && cap >= 0
  {
    cap := Truncate(equity * p.marginBudgetPct / margin);
    if margin > 0.0 {
      PositiveProduct(equity, p.marginBudgetPct);
      TruncationNonNegative(equity * p.marginBudgetPct, margin);
      forall n: nat ensures n <= cap <==> WithinMargin(p, n, margin, equity) {
        TruncatedQuotient(equity * p.marginBudgetPct, margin, n);
      }
    }
  }

  method FindLeverageCap(p: Params, notional: real, equity: real) returns (cap: int)
    requires p.Valid() && equity > 0.0 && notional > 0.0
    ensures LeverageCap(p, cap, notional, equity) && cap >= 0
  {
    cap := Truncate(equity * p.leverageCap / notional);
    PositiveProduct(equity, p.leverageCap);
    TruncationNonNegative(equity * p.leverageCap, notional);
    forall n: nat ensures n <= cap <==> WithinLeverage(p, n, notional, equity) {
      TruncatedQuotient(equity * p.leverageCap, notional, n);
    }
  }

  method FindKellyCap(p: Params, kelly: real, notional: real, equity: real) returns (cap: int)
    requires p.Valid() && equity > 0.0 && notional > 0.0 && kelly > 0.0
    ensures KellyCap(p, cap, kelly, notional, equity) && cap >= 0
  {
    var kellyCapital := kelly * p.kellyMultiplier * equity;
    cap := Truncate(kellyCapital / notional);
    PositiveProduct(kelly, p.kellyMultiplier);
    PositiveProduct(kelly * p.kellyMultiplier, equity);
    TruncationNonNegative(kellyCapital, notional);
    forall n: nat ensures n <= cap <==> WithinKelly(p, n, kelly, notional, equity) {
      TruncatedQuotient(kellyCapital, notional, n);
    }
  }

  method SizeLookedUp(m: Manager, kelly: real, equity: real, notional: real, margin: real, h: Option<History>)
    returns (r: Result<Decision, Error>)
    requires m.Valid() && equity > 0.0 && notional > 0.0 && margin != 0.0
    ensures margin > 0.0 ==> r.Success?
    ensures r.Failure? ==> r.error == NegativeContracts
    ensures r.Success? ==> Sized(m, kelly, equity, notional, margin, h, r.value)
  {
    var marginContracts := FindMarginCap(m.params, margin, equity);
    var leverageContracts := FindLeverageCap(m.params, notional, equity);
    if kelly <= 0.0 {
      return Success(Decision(0, NoEdge, 0, marginContracts, leverageContracts, notional, margin, None));
    }
    var kellyContracts := FindKellyCap(m.params, kelly, notional, equity);
    var base := MinInt(kellyContracts, MinInt(marginContracts, leverageContracts));
    var survival: Option<nat> := None;
    if h.Some? && base > 0 {
      var cap := SurvivalCap(m, h.value, base, notional, equity);
      survival := Some(cap);
    }
    var contracts := if survival.None? then base else MinInt(base, survival.value);
    var binding := BindingOf(kellyContracts, marginContracts, leverageContracts, survival);
    var d := Decision(contracts, binding, kellyContracts, marginContracts, leverageContracts, notional, margin, survival);
    if margin > 0.0 {
      forall n: nat ensures n <= contracts <==> Affordable(m, kelly, n, equity, notional, margin, h) {
        CappedIsAffordable(m, kelly, n, d, base, survival, equity, h);
      }
    }
    if contracts < 0 {
      return Failure(NegativeContracts);
    }
    r := Success(d);
  }

  method SizePosition(m: Manager, c: Contract, kelly: real, equity: real, price: real, h: Option<History>)
    returns (r: Result<Decision, Error>)
    requires m.Valid()
    ensures equity <= 0.0 ==> r == Failure(NonPositiveEquity)
    ensures equity > 0.0 && price <= 0.0 ==> r == Failure(NonPositivePrice)
    ensures equity > 0.0 && price > 0.0 && ContractRoot(c).None? ==> r == Failure(SymbolTooShort)
    ensures equity > 0.0 && price > 0.0 && ContractRoot(c).Some? && m.margins(ContractRoot(c).value).None? ==> r == Failure(NoMargin)
    ensures Refusal(m, c, equity, price).Some? ==> r == Failure(Refusal(m, c, equity, price).value)
    ensures Refusal(m, c, equity, price).None? && MarginFor(m, c) > 0.0 ==> r.Success?
    ensures Refusal(m, c, equity, price).None? && r.Failure? ==> r.error == NegativeContracts
    ensures r.Success? ==> equity > 0.0 && Sized(m, kelly, equity, NotionalFor(c, price), MarginFor(m, c), h, r.value)
    ensures r.Success? ==> MultiplierFor(c).Some? && r.value.notional == price * MultiplierFor(c).value
    ensures r.Success? ==> ContractRoot(c).Some? && m.margins(ContractRoot(c).value) == Some(r.value.margin)
    ensures r.Success? && kelly <= 0.0 ==> r.value.contracts == 0
  {
    var refusal := Refusal(m, c, equity, price);
    if refusal.Some? {
      return Failure(refusal.value);
    }
    var margin, notional := MarginFor(m, c), NotionalFor(c, price);
    MultiplierPositive(c);
    PositiveProduct(price, MultiplierFor(c).value);
    r := SizeLookedUp(m, kelly, equity, notional, margin, h);
  }

  /** The documented defaults: quarter Kelly, half of equity as margin, three times leverage. */
  predicate DefaultBudgets(p: Params) {
    p.kellyMultiplier == 0.25 && p.marginBudgetPct == 0.5 && p.leverageCap == 3.0
  }

  lemma KellyIs(p: Params, cap: int, n: nat, kelly: real, notional: real, equity: real)
    requires KellyCap(p, cap, kelly, notional, equity)
    requires WithinKelly(p, n, kelly, notional, equity) && !WithinKelly(p, n + 1, kelly, notional, equity)
    ensures cap == n
  {
    var next: nat := n + 1;
    assert n <= cap && !(next <= cap);
  }

  lemma MarginIs(p: Params, cap: int, n: nat, margin: real, equity: real)
    requires MarginCap(p, cap, margin, equity)
    requires WithinMargin(p, n, margin, equity) && !WithinMargin(p, n + 1, margin, equity)
    ensures cap == n
  {
    var next: nat := n + 1;
    assert n <= cap && !(next <= cap);
  }

  lemma LeverageIs(p: Params, cap: int, n: nat, notional: real, equity: real)
    requires LeverageCap(p, cap, notional, equity)
    requires WithinLeverage(p, n, notional, equity) && !WithinLeverage(p, n + 1, notional, equity)
    ensures cap == n
  {
    var next: nat := n + 1;
    assert n <= cap && !(next <= cap);
  }

  lemma KellyBinds(kelly: int, margin: int, leverage: int, b: Binding)
    requires kelly < margin && kelly < leverage && FirstTightest(Caps(kelly, margin, leverage, None), b)
    ensures b == Kelly
  {
    var caps := Caps(kelly, margin, leverage, None);
    assert caps[0] == (Kelly, kelly) && caps[1] == (Margin, margin) && caps[2] == (Leverage, leverage);
  }

  /** With 100000 in equity, a full Kelly fraction of 4, a notional of 25000 and a margin of 1540, Kelly grants 4
    * contracts, margin would allow 32 and leverage 12. */
  lemma DefaultExample(m: Manager, d: Decision)
    requires m.Valid() && DefaultBudgets(m.params) && Sized(m, 4.0, 100000.0, 25000.0, 1540.0, None, d)
    ensures d.kellyContracts == 4 && d.marginContracts == 32 && d.leverageContracts == 12
    ensures d.contracts == 4 && d.binding == Kelly
  {
    KellyIs(m.params, d.kellyContracts, 4, 4.0, 25000.0, 100000.0);
    MarginIs(m.params, d.marginContracts, 32, 1540.0, 100000.0);
    LeverageIs(m.params, d.leverageContracts, 12, 25000.0, 100000.0);
    KellyBinds(4, 32, 12, d.binding);
  }

  /** Tighten-only: turning the survival gate on never raises the size. */
  lemma GateOnlyTightens(m: Manager, kelly: real, equity: real, notional: real, margin: real, h: History, gated: Decision, free: Decision)
    requires m.Valid() && equity > 0.0 && margin > 0.0
    requires Sized(m, kelly, equity, notional, margin, Some(h), gated)
    requires Sized(m, kelly, equity, notional, margin, None, free)
    ensures gated.contracts <= free.contracts
  {
    if kelly > 0.0 {
      var n: nat := gated.contracts;
      assert Affordable(m, kelly, n, equity, notional, margin, Some(h));
      assert Affordable(m, kelly, n, equity, notional, margin, None);
    }
  }
}
