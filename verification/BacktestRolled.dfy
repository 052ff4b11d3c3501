/** Target-position mode on a rolled stream: what is held, and when it is still the last target. */
module BacktestRolled {
  import opened Wrappers
  import opened Contracts
  import opened Ledger
  import opened Broker
  import opened Backtest
  import opened BacktestCausality
  import opened BacktestTarget
  import opened RollTelescoping
  import T = LedgerTheorems

  predicate Changes(bars: seq<Bar>, j: nat) {
    0 < j < |bars| && bars[j].contract != bars[j - 1].contract
  }

  /** Netting is on, signals are for the streamed contract, contracts never come back, and each change of
    * contract has its roll. */
  ghost predicate RolledStream(cfg: Config, bars: seq<Bar>) {
    && cfg.targetPosition
    && (forall h: seq<Bar> | |h| > 0 && cfg.strategy(h).Some? :: cfg.strategy(h).value.contract == h[|h| - 1].contract)
    && (forall j | 0 < j < |bars| :: Changes(bars, j) ==> NewTo(bars[..j], bars[j].contract))
    && forall j | 0 < j < |bars| :: Carries(cfg.rolls, Day(bars[j].ts), bars[j - 1].contract, bars[j].contract)
  }

  predicate NewTo(bars: seq<Bar>, c: Contract) {
    forall i | 0 <= i < |bars| :: bars[i].contract != c
  }

  lemma RolledPrefix(cfg: Config, bars: seq<Bar>, n: nat)
    requires RolledStream(cfg, bars) && n <= |bars|
    ensures RolledStream(cfg, bars[..n])
  {
    var shorter := bars[..n];
    forall j | 0 < j < |shorter| ensures Changes(shorter, j) ==> NewTo(shorter[..j], shorter[j].contract) {
      assert Changes(bars, j) ==> NewTo(bars[..j], bars[j].contract);
      assert shorter[..j] == bars[..j];
    }
    forall j | 0 < j < |shorter| ensures Carries(cfg.rolls, Day(shorter[j].ts), shorter[j - 1].contract, shorter[j].contract) {
      assert shorter[j] == bars[j] && shorter[j - 1] == bars[j - 1];
    }
  }

  // ---------------------------------------------------------------------------------------------
  // Orders and positions on a rolled stream
  // ---------------------------------------------------------------------------------------------

  ghost predicate OnlyHolds(b: Book, c: Contract, held: int) {
    Quantity(b, c) == held && forall k | k != c :: Quantity(b, k) == 0
  }

  /** The first `n` orders for `c` are filled; orders for contracts gone by may stay open for ever. */
  predicate DoneIn(a: Account, c: Contract, n: nat)
    requires Shaped(a) && n <= |a.orders|
  {
    forall id | 0 <= id < n :: a.orders[id].contract == c ==> a.filled[id] == a.orders[id].quantity
  }

  ghost predicate OrdersSeen(a: Account, bars: seq<Bar>) {
    forall id | 0 <= id < |a.orders| :: !NewTo(bars, a.orders[id].contract)
  }

  ghost predicate Sound(a: Account, bars: seq<Bar>) {
    Accounted(a) && AllMarket(a) && a.cancelled == {} && OrdersSeen(a, bars)
  }

  /** At a decision: nothing is open in the streamed contract and only it is held. */
  ghost predicate Settled(a: Account, bars: seq<Bar>, c: Contract, held: int) {
    Sound(a, bars) && DoneIn(a, c, |a.orders|) && OnlyHolds(a.book, c, held)
  }

  /** After a bar: at most the newest order is open in the streamed contract, and takes it to `next`. */
  ghost predicate Steering(a: Account, bars: seq<Bar>, c: Contract, held: int, next: int) {
    && Sound(a, bars) && OnlyHolds(a.book, c, held)
    && (|a.orders| == 0 || DoneIn(a, c, |a.orders| - 1))
    && var last := |a.orders| - 1;
       if |a.orders| == 0 || a.orders[last].contract != c || a.filled[last] == a.orders[last].quantity then next == held
       else a.filled[last] == 0 && held + Delta(a.orders[last].side, a.orders[last].quantity) == next
  }

  lemma {:induction false} DoneStays(a: Account, n: nat, bar: Bar, slip: Option<Slippage>)
    requires Shaped(a) && n <= |a.orders| && DoneIn(a, bar.contract, n)
    ensures AdvanceFirst(a, n, bar, slip) == Ok(a)
  {
    if n > 0 {
      DoneStays(a, n - 1, bar, slip);
    }
  }

  lemma SeenLater(a: Account, past: seq<Bar>, bars: seq<Bar>)
    requires OrdersSeen(a, past) && past <= bars
    ensures OrdersSeen(a, bars)
  {
    forall id | 0 <= id < |a.orders| ensures !NewTo(bars, a.orders[id].contract) {
      var i :| 0 <= i < |past| && past[i].contract == a.orders[id].contract;
      assert bars[i] == past[i];
    }
  }

  /** The next bar of the same contract fills what was in flight. */
  lemma SameAdvances(a: Account, past: seq<Bar>, bar: Bar, held: int, next: int, slip: Option<Slippage>)
    requires Steering(a, past, bar.contract, held, next) && Advanced(a, bar, slip).Ok?
    ensures Settled(Advanced(a, bar, slip).account, past, bar.contract, next)
  {
    if |a.orders| > 0 {
      var last := |a.orders| - 1;
      DoneStays(a, last, bar, slip);
      if a.orders[last].contract == bar.contract && a.filled[last] != a.orders[last].quantity {
        AdvanceOneFills(a, last, bar, slip);
        LastFills(a, bar.contract, bar, slip);
        LastSettles(a, AdvanceOne(a, last, bar, slip).account, past, bar, held, next, slip);
      } else {
        assert DoneIn(a, bar.contract, |a.orders|);
        DoneStays(a, |a.orders|, bar, slip);
      }
    }
  }

  lemma LastSettles(a: Account, r: Account, past: seq<Bar>, bar: Bar, held: int, next: int, slip: Option<Slippage>)
    requires Steering(a, past, bar.contract, held, next) && |a.orders| > 0
    requires var last := |a.orders| - 1; a.orders[last].contract == bar.contract && a.filled[last] == 0
    requires AdvanceOne(a, |a.orders| - 1, bar, slip) == Ok(r) && Accounted(r)
    requires r.filled == a.filled[|a.orders| - 1 := a.orders[|a.orders| - 1].quantity]
    requires Quantity(r.book, bar.contract) == held + Delta(a.orders[|a.orders| - 1].side, a.orders[|a.orders| - 1].quantity)
    ensures Settled(r, past, bar.contract, next)
  {
    OthersKeep(a, |a.orders| - 1, bar, slip);
  }

  /** A fill moves no other contract. */
  lemma OthersKeep(a: Account, id: nat, bar: Bar, slip: Option<Slippage>)
    requires Accounted(a) && id < |a.orders| && AdvanceOne(a, id, bar, slip).Ok?
    ensures forall k | k != bar.contract :: Quantity(AdvanceOne(a, id, bar, slip).account.book, k) == Quantity(a.book, k)
  {
    var o := a.orders[id];
    if !(id in a.cancelled || o.contract != bar.contract || a.filled[id] >= o.quantity || FillPrice(o, bar).None?) {
      var price := Executed(o, bar, FillPrice(o, bar).value, slip).value;
      FillIdentity(a.book, o.contract, Delta(o.side, o.quantity - a.filled[id]), price, false);
    }
  }

  /** A new contract's first bar fills nothing: every order is for a contract gone by. */
  lemma NewAdvances(a: Account, past: seq<Bar>, bar: Bar, slip: Option<Slippage>)
    requires Sound(a, past) && NewTo(past, bar.contract)
    ensures Advanced(a, bar, slip) == Ok(a) && DoneIn(a, bar.contract, |a.orders|)
  {
    DoneStays(a, |a.orders|, bar, slip);
  }

  // ---------------------------------------------------------------------------------------------
  // Rolls
  // ---------------------------------------------------------------------------------------------

  lemma RollMovesAll(b: Book, from: Contract, to: Contract, frontFill: real, backFill: real, held: int)
    requires from != to && held != 0 && OnlyHolds(b, from, held) && Roll(b, from, to, frontFill, backFill).Done?
    ensures OnlyHolds(Roll(b, from, to, frontFill, backFill).book, to, held)
  {
    var closed, both := T.RollShape(b, from, to, frontFill, backFill);
    FillIdentity(b, from, -held, frontFill, true);
    FillIdentity(closed, to, held, backFill, true);
    LegsMoveAll(b, closed, both, from, to, held, frontFill, backFill);
  }

  lemma LegsMoveAll(b: Book, closed: Book, both: Book, from: Contract, to: Contract, held: int, frontFill: real, backFill: real)
    requires from != to && OnlyHolds(b, from, held)
    requires Balanced(b, closed, from, -held, frontFill) && Balanced(closed, both, to, held, backFill)
    ensures OnlyHolds(Carry(both, from, to), to, held)
  {
    forall k ensures Quantity(Carry(both, from, to), k) == if k == to then held else 0 {
      if k != from {
        T.OtherContract(b, closed, from, k);
      }
      if k != to {
        T.OtherContract(closed, both, to, k);
      }
    }
  }

  /** The roll of a day leaves the whole position in the streamed contract. */
  lemma RollSettles(rolls: map<int, RollEvent>, a: Account, day: int, from: Contract, to: Contract, held: int)
    requires OnlyHolds(a.book, from, held) && Carries(rolls, day, from, to) && ExecuteRoll(rolls, a, day).Success?
    ensures OnlyHolds(ExecuteRoll(rolls, a, day).value.account.book, to, held)
  {
    if from != to && held != 0 {
      var e := rolls[day];
      ExecutedRoll(rolls, a, day);
      RollMovesAll(a.book, from, to, e.frontSettle, e.backSettle, held);
    }
  }

  /** Nothing is held, so no roll of the first bar's day does anything. */
  lemma FlatRolls(rolls: map<int, RollEvent>, a: Account, day: int, c: Contract)
    requires OnlyHolds(a.book, c, 0) && ExecuteRoll(rolls, a, day).Success?
    ensures ExecuteRoll(rolls, a, day).value.account == a
  {
  }

  // ---------------------------------------------------------------------------------------------
  // One bar
  // ---------------------------------------------------------------------------------------------

  lemma RolledSettled(rolls: map<int, RollEvent>, a: Account, day: int, past: seq<Bar>, from: Contract, to: Contract, held: int)
    requires Sound(a, past) && DoneIn(a, to, |a.orders|) && OnlyHolds(a.book, from, held)
    requires Carries(rolls, day, from, to) && ExecuteRoll(rolls, a, day).Success?
    ensures Settled(ExecuteRoll(rolls, a, day).value.account, past, to, held)
  {
    RollKeepsOrders(rolls, a, day);
    RollSettles(rolls, a, day, from, to, held);
  }

  /** What trading on the last of `bars` leaves: the target in flight, or, where the contract changes, what
    * was held before it. */
  lemma TradeSettles(cfg: Config, s: EngineState, bars: seq<Bar>, held: int, next: int)
    requires |bars| > 1 && RolledStream(cfg, bars) && Shaped(s.account) && Trade(cfg, s, bars[|bars| - 1]).Success?
    requires Steering(s.account, bars[..|bars| - 1], bars[|bars| - 2].contract, held, next)
    ensures Settled(Trade(cfg, s, bars[|bars| - 1]).value.account, bars, bars[|bars| - 1].contract,
                    if Changes(bars, |bars| - 1) then held else next)
  {
    var n := |bars| - 1;
    var past, bar, from := bars[..n], bars[n], bars[n - 1].contract;
    var a := Advanced(s.account, bar, cfg.slip).account;
    if Changes(bars, n) {
      NewAdvances(s.account, past, bar, cfg.slip);
      RolledSettled(cfg.rolls, a, Day(bar.ts), past, from, bar.contract, held);
    } else {
      SameAdvances(s.account, past, bar, held, next, cfg.slip);
      RolledSettled(cfg.rolls, a, Day(bar.ts), past, from, bar.contract, next);
    }
    SeenLater(Trade(cfg, s, bar).value.account, past, bars);
  }

  lemma FirstSettles(cfg: Config, s: EngineState, bar: Bar)
    requires Shaped(s.account) && s.account == NEW_ACCOUNT && Trade(cfg, s, bar).Success?
    ensures Settled(Trade(cfg, s, bar).value.account, [bar], bar.contract, 0)
  {
    FlatRolls(cfg.rolls, NEW_ACCOUNT, Day(bar.ts), bar.contract);
  }

  lemma PlacedSteers(a: Account, bars: seq<Bar>, c: Contract, held: int, wanted: int)
    requires Settled(a, bars, c, held) && wanted != held && !NewTo(bars, c)
    ensures Steering(Placed(a, OrderFor(false, c, wanted - held).value), bars, c, held, wanted)
  {
    PlaceAccounted(a, OrderFor(false, c, wanted - held).value);
  }

  /** Placing an order for the distance to what is wanted steers there. */
  lemma OrderSteers(a: Account, bars: seq<Bar>, c: Contract, held: int, wanted: Option<int>, order: Option<Order>)
    requires Settled(a, bars, c, held) && !NewTo(bars, c)
    requires order == if wanted.None? then None else OrderFor(false, c, wanted.value - held)
    ensures Steering(if order.Some? then Placed(a, order.value) else a, bars, c, held, if wanted.None? then held else wanted.value)
  {
    if wanted.Some? && wanted.value != held {
      PlacedSteers(a, bars, c, held, wanted.value);
    }
  }

  lemma ActSteers(cfg: Config, m: EngineState, bars: seq<Bar>, equity: real, held: int)
    requires |bars| > 0 && cfg.targetPosition && m.history == bars && Decide(cfg, m, bars[|bars| - 1], equity).Success?
    requires cfg.strategy(bars).Some? ==> cfg.strategy(bars).value.contract == bars[|bars| - 1].contract
    requires Settled(m.account, bars, bars[|bars| - 1].contract, held)
    ensures var bar := bars[|bars| - 1];
            var wanted := Wanted(cfg, m, bar, equity);
            Steering(Act(m, Decide(cfg, m, bar, equity).value).account, bars, bar.contract, held, if wanted.None? then held else wanted.value)
  {
    var bar := bars[|bars| - 1];
    DecideReaches(cfg, m, bar, equity, bar.contract);
    OrderSteers(m.account, bars, bar.contract, held, Wanted(cfg, m, bar, equity), Decide(cfg, m, bar, equity).value.order);
  }

  // ---------------------------------------------------------------------------------------------
  // Whole runs
  // ---------------------------------------------------------------------------------------------

  /** The position the run holds when the last bar decides. */
  ghost function HeldNow(cfg: Config, bars: seq<Bar>): int {
    if |bars| <= 1 then 0
    else if Changes(bars, |bars| - 1) then HeldNow(cfg, bars[..|bars| - 1])
    else match WantedAt(cfg, bars[..|bars| - 1]) case Some(t) => t case None => HeldNow(cfg, bars[..|bars| - 1])
  }

  /** The position in force after the last bar, as long as its contract stays. */
  ghost function NextHeld(cfg: Config, bars: seq<Bar>): int
    requires |bars| > 0
  {
    match WantedAt(cfg, bars) case Some(t) => t case None => HeldNow(cfg, bars)
  }

  /** A step is the decision taken on its marked state. */
  lemma StepIs(cfg: Config, s: EngineState, n: EngineState, bar: Bar) returns (m: EngineState)
    requires Shaped(s.account) && BarStep(cfg, s, bar) == Success(n)
    ensures Mark(cfg, s, bar) == Success(m) && |m.curve| > 0 && m.history == s.history + [bar]
    ensures Decide(cfg, m, bar, m.curve[|m.curve| - 1]).Success? && n == Act(m, Decide(cfg, m, bar, m.curve[|m.curve| - 1]).value)
  {
    m := Mark(cfg, s, bar).value;
  }

  /** What the last bar of a run asks for, decided on its marked state. */
  lemma AskIs(cfg: Config, s: EngineState, m: EngineState, bars: seq<Bar>)
    requires |bars| > 0 && RunBars(cfg, NEW_ACCOUNT, bars[..|bars| - 1]) == Success(s) && Mark(cfg, s, bars[|bars| - 1]) == Success(m)
    requires |m.curve| > 0
    ensures WantedAt(cfg, bars) == Wanted(cfg, m, bars[|bars| - 1], m.curve[|m.curve| - 1])
  {
  }

  lemma StepSteers(cfg: Config, s: EngineState, n: EngineState, bars: seq<Bar>)
    requires |bars| > 0 && RolledStream(cfg, bars) && s.history == bars[..|bars| - 1] && Shaped(s.account)
    requires RunBars(cfg, NEW_ACCOUNT, bars[..|bars| - 1]) == Success(s) && BarStep(cfg, s, bars[|bars| - 1]) == Success(n)
    requires Mark(cfg, s, bars[|bars| - 1]).Success?
    requires Settled(Mark(cfg, s, bars[|bars| - 1]).value.account, bars, bars[|bars| - 1].contract, HeldNow(cfg, bars))
    ensures Steering(n.account, bars, bars[|bars| - 1].contract, HeldNow(cfg, bars), NextHeld(cfg, bars))
  {
    var bar := bars[|bars| - 1];
    var m := StepIs(cfg, s, n, bar);
    assert s.history + [bar] == bars;
    AskIs(cfg, s, m, bars);
    ActSteers(cfg, m, bars, m.curve[|m.curve| - 1], HeldNow(cfg, bars));
  }

  lemma MarkSettles(cfg: Config, s: EngineState, bars: seq<Bar>)
    requires |bars| > 0 && RolledStream(cfg, bars) && RunBars(cfg, NEW_ACCOUNT, bars[..|bars| - 1]) == Success(s)
    requires Shaped(s.account) && Mark(cfg, s, bars[|bars| - 1]).Success?
    requires |bars| > 1 ==> Steering(s.account, bars[..|bars| - 1], bars[|bars| - 2].contract,
                                     HeldNow(cfg, bars[..|bars| - 1]), NextHeld(cfg, bars[..|bars| - 1]))
    ensures Settled(Mark(cfg, s, bars[|bars| - 1]).value.account, bars, bars[|bars| - 1].contract, HeldNow(cfg, bars))
  {
    if |bars| == 1 {
      assert bars == [bars[0]];
      FirstSettles(cfg, s, bars[0]);
    } else {
      TradeSettles(cfg, s, bars, HeldNow(cfg, bars[..|bars| - 1]), NextHeld(cfg, bars[..|bars| - 1]));
    }
  }

  lemma {:induction false} RunSteers(cfg: Config, bars: seq<Bar>)
    requires |bars| > 0 && RolledStream(cfg, bars) && RunBars(cfg, NEW_ACCOUNT, bars).Success?
    ensures Steering(RunBars(cfg, NEW_ACCOUNT, bars).value.account, bars, bars[|bars| - 1].contract, HeldNow(cfg, bars), NextHeld(cfg, bars))
  {
    var past := bars[..|bars| - 1];
    var s, n := RunLast(cfg, NEW_ACCOUNT, bars);
    RolledPrefix(cfg, bars, |bars| - 1);
    if |bars| > 1 {
      RunSteers(cfg, past);
    }
    RunKeeps(cfg, NEW_ACCOUNT, past);
    MarkSettles(cfg, s, bars);
    StepSteers(cfg, s, n, bars);
  }

  /** When a bar of a rolled stream decides, nothing is open in its contract, it is the only one held, and
    * its position is `HeldNow`: the last target asked for, but for those asked on a contract's last bar. */
  lemma RolledPosition(cfg: Config, bars: seq<Bar>)
    requires |bars| > 0 && RolledStream(cfg, bars) && RunBars(cfg, NEW_ACCOUNT, bars[..|bars| - 1]).Success?
    requires Mark(cfg, RunBars(cfg, NEW_ACCOUNT, bars[..|bars| - 1]).value, bars[|bars| - 1]).Success?
    ensures var m := Mark(cfg, RunBars(cfg, NEW_ACCOUNT, bars[..|bars| - 1]).value, bars[|bars| - 1]).value;
            Settled(m.account, bars, bars[|bars| - 1].contract, HeldNow(cfg, bars))
  {
    RolledPrefix(cfg, bars, |bars| - 1);
    if |bars| > 1 {
      RunSteers(cfg, bars[..|bars| - 1]);
    }
    MarkSettles(cfg, RunBars(cfg, NEW_ACCOUNT, bars[..|bars| - 1]).value, bars);
  }

  // ---------------------------------------------------------------------------------------------
  // When it is still the last target
  // ---------------------------------------------------------------------------------------------

  /** What bar `i` asks for. */
  ghost function AskOf(cfg: Config, bars: seq<Bar>, i: nat): Option<int>
    requires i < |bars|
  {
    WantedAt(cfg, bars[..i + 1])
  }

  ghost function Asks(cfg: Config, bars: seq<Bar>): (asks: seq<Option<int>>)
    ensures |asks| == |bars| && forall i | 0 <= i < |bars| :: asks[i] == AskOf(cfg, bars, i)
  {
    seq(|bars|, i requires 0 <= i < |bars| => AskOf(cfg, bars, i))
  }

  function ChangesOf(bars: seq<Bar>): (changes: seq<bool>)
    ensures |changes| == |bars| && forall i | 0 <= i < |bars| :: changes[i] == Changes(bars, i)
  {
    seq(|bars|, i requires 0 <= i < |bars| => Changes(bars, i))
  }

  /** The last of the first `k` asks; flat before any. */
  function TargetOf(asks: seq<Option<int>>, k: nat): int
    requires k <= |asks|
  {
    if k == 0 then 0 else if asks[k - 1].Some? then asks[k - 1].value else TargetOf(asks, k - 1)
  }

  /** What is held when bar `k - 1` decides: asks on a contract's last bar are lost. */
  function HeldOf(asks: seq<Option<int>>, changes: seq<bool>, k: nat): int
    requires k <= |asks| == |changes|
  {
    if k <= 1 then 0
    else if !changes[k - 1] && asks[k - 2].Some? then asks[k - 2].value
    else HeldOf(asks, changes, k - 1)
  }

  lemma HeldStep(cfg: Config, bars: seq<Bar>, k: nat)
    requires 1 < k <= |bars|
    ensures HeldNow(cfg, bars[..k])
            == if !Changes(bars, k - 1) && AskOf(cfg, bars, k - 2).Some? then AskOf(cfg, bars, k - 2).value else HeldNow(cfg, bars[..k - 1])
  {
    assert bars[..k][..k - 1] == bars[..k - 1];
  }

  lemma TargetStep(cfg: Config, bars: seq<Bar>, k: nat)
    requires 0 < k <= |bars|
    ensures LastTarget(cfg, bars[..k]) == if AskOf(cfg, bars, k - 1).Some? then AskOf(cfg, bars, k - 1).value else LastTarget(cfg, bars[..k - 1])
  {
    assert bars[..k][..k - 1] == bars[..k - 1];
  }

  lemma {:induction false} HeldIs(cfg: Config, bars: seq<Bar>, k: nat)
    requires k <= |bars|
    ensures HeldNow(cfg, bars[..k]) == HeldOf(Asks(cfg, bars), ChangesOf(bars), k)
  {
    if k > 1 {
      HeldIs(cfg, bars, k - 1);
      HeldStep(cfg, bars, k);
    }
  }

  lemma {:induction false} TargetIs(cfg: Config, bars: seq<Bar>, k: nat)
    requires k <= |bars|
    ensures LastTarget(cfg, bars[..k]) == TargetOf(Asks(cfg, bars), k)
  {
    if k > 0 {
      TargetIs(cfg, bars, k - 1);
      TargetStep(cfg, bars, k);
    }
  }

  /** Of the first `n` asks, the one of bar `j` is the last. */
  predicate LastAsk(asks: seq<Option<int>>, n: nat, j: nat)
    requires n <= |asks|
  {
    j < n && asks[j].Some? && forall i | j < i < n :: asks[i].None?
  }

  lemma {:induction false} TargetSince(asks: seq<Option<int>>, n: nat, j: nat, k: nat)
    requires n <= |asks| && LastAsk(asks, n, j) && j < k <= n
    ensures asks[j] == Some(TargetOf(asks, k))
    decreases k
  {
    if k > j + 1 {
      TargetSince(asks, n, j, k - 1);
    }
  }

  /** Once the last ask has had its next bar the position no longer moves. */
  lemma {:induction false} HeldSinceAsk(asks: seq<Option<int>>, changes: seq<bool>, n: nat, j: nat, k: nat)
    requires n < |asks| == |changes| && LastAsk(asks, n, j) && j + 1 < k <= n + 1
    ensures HeldOf(asks, changes, k) == if changes[j + 1] then HeldOf(asks, changes, j + 1) else asks[j].value
    decreases k
  {
    if k > j + 2 {
      HeldSinceAsk(asks, changes, n, j, k - 1);
    }
  }

  /** The position at the last bar's decision is still the last target asked for before it exactly when the
    * bar after that ask kept the contract, or the ask was for what was already held. */
  lemma StillLastTarget(cfg: Config, bars: seq<Bar>, j: nat)
    requires |bars| > 0 && LastAsk(Asks(cfg, bars), |bars| - 1, j)
    ensures AskOf(cfg, bars, j) == Some(LastTarget(cfg, bars[..|bars| - 1]))
    ensures HeldNow(cfg, bars) == LastTarget(cfg, bars[..|bars| - 1])
            <==> !Changes(bars, j + 1) || HeldNow(cfg, bars[..j + 1]) == LastTarget(cfg, bars[..|bars| - 1])
  {
    var n := |bars| - 1;
    assert bars[..n + 1] == bars;
    HeldIs(cfg, bars, n + 1);
    HeldIs(cfg, bars, j + 1);
    TargetIs(cfg, bars, n);
    TargetSince(Asks(cfg, bars), n, j, n);
    HeldSinceAsk(Asks(cfg, bars), ChangesOf(bars), n, j, n + 1);
  }

  // ---------------------------------------------------------------------------------------------
  // When nothing more is placed
  // ---------------------------------------------------------------------------------------------

  /** The last bar asks for nothing, or for what is held already. */
  ghost predicate AsksNoChange(cfg: Config, bars: seq<Bar>)
    requires |bars| > 0
  {
    WantedAt(cfg, bars).None? || WantedAt(cfg, bars).value == HeldNow(cfg, bars)
  }

  /** Bar `i` asks for nothing, or for what is held already. */
  ghost predicate SteadyAt(cfg: Config, bars: seq<Bar>, i: nat)
    requires i < |bars|
  {
    AsksNoChange(cfg, bars[..i + 1])
  }

  ghost predicate SteadyAfter(cfg: Config, bars: seq<Bar>, e: nat) {
    forall i | e < i < |bars| :: SteadyAt(cfg, bars, i)
  }

  lemma MarkKeepsOrders(cfg: Config, s: EngineState, bar: Bar)
    requires Accounted(s.account) && Mark(cfg, s, bar).Success?
    ensures Mark(cfg, s, bar).value.account.orders == s.account.orders
  {
    TradeExtends(cfg, s, bar);
  }

  lemma HeldAtDecision(cfg: Config, bars: seq<Bar>, s: EngineState)
    requires |bars| > 0 && RolledStream(cfg, bars) && RunBars(cfg, NEW_ACCOUNT, bars[..|bars| - 1]) == Success(s)
    requires Shaped(s.account) && Mark(cfg, s, bars[|bars| - 1]).Success?
    ensures Quantity(Mark(cfg, s, bars[|bars| - 1]).value.account.book, bars[|bars| - 1].contract) == HeldNow(cfg, bars)
  {
    RolledPosition(cfg, bars);
  }

  /** The run before the last bar, and its marked state at the last bar's decision. */
  lemma LastDecision(cfg: Config, bars: seq<Bar>) returns (s: EngineState, m: EngineState, n: EngineState)
    requires |bars| > 0 && RolledStream(cfg, bars) && RunBars(cfg, NEW_ACCOUNT, bars).Success?
    ensures RunBars(cfg, NEW_ACCOUNT, bars[..|bars| - 1]) == Success(s) && RunBars(cfg, NEW_ACCOUNT, bars) == Success(n)
    ensures m.account.orders == s.account.orders && m.history == bars && |m.curve| > 0
    ensures Quantity(m.account.book, bars[|bars| - 1].contract) == HeldNow(cfg, bars)
    ensures WantedAt(cfg, bars) == Wanted(cfg, m, bars[|bars| - 1], m.curve[|m.curve| - 1])
    ensures Decide(cfg, m, bars[|bars| - 1], m.curve[|m.curve| - 1]).Success?
    ensures n == Act(m, Decide(cfg, m, bars[|bars| - 1], m.curve[|m.curve| - 1]).value)
  {
    var bar := bars[|bars| - 1];
    s, n := RunLast(cfg, NEW_ACCOUNT, bars);
    RunKeeps(cfg, NEW_ACCOUNT, bars[..|bars| - 1]);
    m := StepIs(cfg, s, n, bar);
    MarkKeepsOrders(cfg, s, bar);
    HeldAtDecision(cfg, bars, s);
    AskIs(cfg, s, m, bars);
  }

  /** A bar places an order exactly when it asks for a change. */
  lemma StepPlaces(cfg: Config, bars: seq<Bar>) returns (s: EngineState, n: EngineState)
    requires |bars| > 0 && RolledStream(cfg, bars) && RunBars(cfg, NEW_ACCOUNT, bars).Success?
    ensures RunBars(cfg, NEW_ACCOUNT, bars[..|bars| - 1]) == Success(s) && RunBars(cfg, NEW_ACCOUNT, bars) == Success(n)
    ensures n.account.orders == s.account.orders <==> AsksNoChange(cfg, bars)
  {
    var m;
    s, m, n := LastDecision(cfg, bars);
    DecideReaches(cfg, m, bars[|bars| - 1], m.curve[|m.curve| - 1], bars[|bars| - 1].contract);
  }

  /** On a rolled stream no order is placed after bar `e` if and only if every later bar asks for nothing or
    * for what it holds. */
  lemma {:induction false} PlacesNoneExactly(cfg: Config, bars: seq<Bar>, e: nat)
    requires e < |bars| && RolledStream(cfg, bars) && RunBars(cfg, NEW_ACCOUNT, bars).Success?
    ensures NonePlaced(cfg, NEW_ACCOUNT, bars, e) <==> SteadyAfter(cfg, bars, e)
    decreases |bars|
  {
    if |bars| == e + 1 {
      assert bars[..e + 1] == bars;
    } else {
      var n := |bars| - 1;
      var shorter := bars[..n];
      RolledPrefix(cfg, bars, n);
      var before, after := StepPlaces(cfg, bars);
      PlacesNoneExactly(cfg, shorter, e);
      PlacesNoneNext(cfg, bars, e, before, after);
      AsksPrefix(cfg, bars, e);
    }
  }

  lemma AsksPrefix(cfg: Config, bars: seq<Bar>, e: nat)
    requires e + 1 < |bars|
    ensures SteadyAfter(cfg, bars, e) <==> AsksNoChange(cfg, bars) && SteadyAfter(cfg, bars[..|bars| - 1], e)
  {
    var shorter := bars[..|bars| - 1];
    assert bars[..|bars|] == bars;
    assert SteadyAt(cfg, bars, |bars| - 1) == AsksNoChange(cfg, bars);
    forall i | e < i < |bars| - 1 ensures SteadyAt(cfg, bars, i) == SteadyAt(cfg, shorter, i) {
      SteadyShorter(cfg, bars, i);
    }
  }

  lemma SteadyShorter(cfg: Config, bars: seq<Bar>, i: nat)
    requires i < |bars| - 1
    ensures SteadyAt(cfg, bars, i) == SteadyAt(cfg, bars[..|bars| - 1], i)
  {
    assert bars[..|bars| - 1][..i + 1] == bars[..i + 1];
  }

  lemma PlacesNoneNext(cfg: Config, bars: seq<Bar>, e: nat, s: EngineState, n: EngineState)
    requires e + 1 < |bars| && RunBars(cfg, NEW_ACCOUNT, bars[..|bars| - 1]) == Success(s) && RunBars(cfg, NEW_ACCOUNT, bars) == Success(n)
    ensures NonePlaced(cfg, NEW_ACCOUNT, bars, e)
            <==> NonePlaced(cfg, NEW_ACCOUNT, bars[..|bars| - 1], e) && n.account.orders == s.account.orders
  {
    if NonePlaced(cfg, NEW_ACCOUNT, bars, e) {
      NonePlacedBefore(cfg, NEW_ACCOUNT, bars, e, |bars| - 1);
    } else if NonePlaced(cfg, NEW_ACCOUNT, bars[..|bars| - 1], e) && n.account.orders == s.account.orders {
      NonePlacedNext(cfg, NEW_ACCOUNT, bars, e, s, n);
    }
  }
}
