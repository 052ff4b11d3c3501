# Verification of the futur3 decision and accounting core

A Dafny model of the part of futur3 that decides trades, keeps the books and judges the results, with
machine-checked proofs of what its documentation promises over whole runs:

- **Survival and sizing.** The survival probability is the share of bootstrap paths that never lose the kill
  switch. A path that survives at some leverage survives at every smaller one, so the probability never rises with
  leverage and the binary search of the sizing gate returns the greatest size that passes.
- **Ledger, broker and backtest loop.** Cash identity, trade-ledger conservation, mark-to-market neutrality of
  fills and rolls at the mark, causality of runs, the held position as the last affordable target or as the sum of
  all granted clips, the attribution of every equity point to marks and prices, and the telescoping of equity through
  any number of rolls of a built continuous series. The ledger's laws are stated over every history of calls,
  raised ones included.
- **Multiple testing.** Holm is closed testing with Bonferroni, Benjamini-Hochberg is the step-up rule, the
  Romano-Wolf stepdown is the closed max test over every family.
- **Calendar and rolls.** Easter as the Sunday after the full moon, observed holidays, trading-day shifts that compose and invert, roll windows
  that are always well ordered and roll targets that always advance along a cycle.
- **Cross-validation, rate limiter, prop-account guard.** Purged combinatorial folds without label leakage,
  symmetric splits, closed-window request limits, latched halts.
- **Portfolio loop.** Causality by date and conservation of the ledger for any set of streams.

Each operation that changes state step by step is a method, or a method of a class, proved equal to a
function of its inputs or of the old state; the theorems are lemmas about those functions.

Run `dafny verify dfyconfig.toml` (Dafny 4.11) to check everything.

## Layout

| file | models |
|---|---|
| Survival.dfy, RiskManager.dfy, Contracts.dfy | bootstrap survival, sizing gate, contract multipliers |
| Ledger.dfy, MockBroker.dfy | position ledger, broker object (module `Broker`) |
| LedgerTheorems.dfy, LedgerRaises.dfy | conservation over completed calls, and over raised ones |
| BetTape.dfy, Valuation.dfy | trade ledger against a tape of bets, mark-to-market |
| Backtest.dfy, BacktestCausality.dfy, BacktestLedger.dfy, BacktestAttribution.dfy | single-stream engine; causality, conservation and attribution of its runs |
| BacktestClips.dfy | the position of default-mode runs: the sum of the clips |
| BacktestTarget.dfy, BacktestBudgets.dfy, BacktestRolled.dfy, TargetLost.dfy | the position of target-mode runs: last target, budgets, rolled streams |
| Portfolio.dfy, PortfolioCausality.dfy, PortfolioLedger.dfy, PortfolioHistory.dfy | date-axis engine; causality, conservation, what it has seen |
| PortfolioTargets.dfy | where a leg heads, and a target that is overshot |
| RollCounts.dfy | the roll count and cost of both engines |
| Continuous.dfy, RatioView.dfy | continuous series, ratio view |
| RollSettles.dfy | the prices of roll events |
| RollSchedule.dfy, RollTelescoping.dfy, RollRuns.dfy, RollGap.dfy | built series in the engine, with and without a bar on a roll date |
| MultipleTesting.dfy, RomanoWolf.dfy, Ranking.dfy | corrections and stepdown, orders and counts |
| Dates.dfy, TradingCalendar.dfy (module `TradingDays`), CmeCalendar.dfy | dates, shifts, holidays |
| RollSymbols.dfy, RollCalendar.dfy, RollBuilder.dfy | contract symbols, roll windows, roll entries |
| Combinations.dfy, Cpcv.dfy, Cscv.dfy | choices, purged folds, overfitting probability |
| RollingLog.dfy, BackoffQueue.dfy (module `Backoff`) | one rolling log, the request gate |
| PropGuard.dfy | prop-account limits |
| Sorting.dfy, Sums.dfy, Wrappers.dfy | shared vocabulary |

## What the code does that its documentation does not say

- **Rate limiter.** At the exact instant the oldest entry of a full log is one window old, the prune keeps it
  (strict comparison) while the wait is zero, so a request goes through and the closed window then holds more
  than the limit; while the clock stands there any number follow (`RollingLog.TieBurst`). The limit holds in
  every closed window exactly when no grant is recorded at such an instant (`RollingLog.RunGood`,
  `RollingLog.SpacedIsWindowed`).
- **Romano-Wolf.** A strategy without bootstrap variance has statistic zero and adds nothing to the maximum of a
  draw. Over arbitrary matrices of statistics, the stepdown rejects it exactly when some strategy with variance
  ranks after it and every family holding both is rejected (`RomanoWolf.RejectsNoVariance`), while the closed
  test, which also tests it alone, never does. `RomanoWolf.NoVarianceRejected` is a matrix of that kind: every
  statistic of the other strategy, observed and resampled, is negative. For strategies with variance the two
  agree, and they agree on all when every statistic with variance is positive
  (`RomanoWolf.AgreesUnlessShielded`, `RomanoWolf.AgreesWhenAllAhead`). An adjusted value can also exceed the
  single-step one. It does not exactly when the single-step value is 1, or a strategy with variance stands at or
  after the strategy's own rank or an earlier rank whose step already exceeds alpha
  (`RomanoWolf.AdjustedWithinExactly`); `RomanoWolf.AdjustedAboveSingleStep` is an input on which it does.
- **Rolls into an opposite position.** The ledger comments that a roll never flips a position. It does, and then
  books a trade, exactly when the back contract is held the opposite way with a smaller quantity
  (`BetTape.RollFlipsExactly`, `BetTape.RollCanFlip`). It leaves an open tally on a flat contract exactly when it
  cancels the back position (`BetTape.RollTidyExactly`). Booked trades stay whole bets exactly when neither
  happens (`BetTape.RollTracksExactly`).
- **Raised calls.** Fills at prices that are not positive are refused up front; a roll does not check its two
  prices. When its back leg would flip the back position at such a price, the position refuses the entry only
  after profit was accrued and the bet booked, and from then on the account total is not the sum over contracts
  (`LedgerRaises.RefusedRollTears`). That is the one call that does not conserve
  (`LedgerRaises.RollConservesExactly`, `LedgerRaises.LegConservesExactly`), and over any history the books differ
  by exactly what such calls left (`LedgerRaises.EveryHistoryAccounts`). A roll documented as atomic that raises in
  its back leg leaves the front closed (`LedgerRaises.RaisedRollExactly`).
- **Two-digit years.** Past the last contract of 2049 the next symbol names a contract of 1950
  (`RollSymbols.NextWraps`).
- **Continuous series.** A position is carried through the rolls of a built series exactly when every change of
  contract has its bar on the roll date; without one the engine skips the roll and the position stays in the old
  contract (`RollRuns.HeldExactly`, `RollRuns.LastLeftBehind`, and `RollGap.GapLeavesBehind` on a series built
  without such a bar).
- **Targets across a roll.** A target asked for on a contract's last bar is ordered in that contract, whose bars
  have ended, and never fills. The position is still the last target exactly when the bar after the ask kept the
  contract, or the ask was for what was already held (`BacktestRolled.StillLastTarget`;
  `TargetLost.LastTargetLost` is a stream on which it is not).
- **Portfolio targets.** Legs net against positions, not against working orders. A leg heads for its target exactly
  when nothing is working in its contract on balance (`PortfolioTargets.LegReachesExactly`); asked again on a date
  without a bar of that contract, it is ordered twice and the position passes the target, which the portfolio
  documentation says caps the leg (`PortfolioTargets.TargetOvershot`).
- **Prop guard.** The cap counts positions, not working orders. Orders allowed together stay within it in
  whatever order they fill exactly when the position with all the buys, and with all the sells, does
  (`PropGuard.CapForWorkingOrders`; `PropGuard.UnfilledOrdersPassTheCap` holds twice the cap). A halted account may
  still cross to the other side, with exactly the quantities between its position and twice its position, since
  shrinking is judged by size alone (`PropGuard.HaltedReversal`, `PropGuard.HaltedReversalReached`).

## Model

| member | source | states |
|---|---|---|
| Survival.SurvivalMonotone | futur3/execution/survival.py:100-118 | a path that survives at a leverage survives at every leverage from zero up to it |
| Survival.BlendBound | futur3/execution/survival.py:100-118 | pulling every growth factor towards 1 by the same share keeps the path product at least the smaller of 1 and the original product |
| Survival.ProbabilityMonotone | futur3/execution/survival.py:59-118 | for fixed draws the survival probability never rises with leverage |
| Survival.ProbabilityRange | futur3/execution/survival.py:59-118 | the probability lies in [0, 1], and is 1 at zero leverage |
| Survival.DrawPath | futur3/execution/survival.py:41-56 | the path loop draws the stationary-bootstrap path: geometric block restarts, otherwise the next index, wrapping round |
| Survival.WalkPath | futur3/execution/survival.py:109-115 | the early-exit walk decides whether every prefix product stays above the floor |
| Survival.SurvivalProbability | futur3/execution/survival.py:59-118 | the loops return the surviving share of the seed's paths, or the first input error in the source's order |
| Survival.ProbabilityIsShare | futur3/execution/survival.py:100-118 | the probability is the share of the paths, as many and as long as asked, on which the loss from the start stays below the kill switch after every period |
| Survival.AllRuinous | futur3/execution/survival.py:100-118 | when every return at the leverage loses the kill switch or more, the probability is 0 |
| Survival.NoneRuinous | futur3/execution/survival.py:100-118 | over one period, when every return at the leverage loses less, it is 1 |
| Survival.ConstantReturns | futur3/execution/survival.py:109-115 | equal returns compound: the probability is 1 when the growth over each number of periods up to the horizon loses less than the kill switch, and 0 otherwise |
| Survival.BlocksStart | futur3/execution/survival.py:41-56 | while every draw is at least one over the block length a path takes the returns in order, and while every draw is below it each index is drawn afresh |
| Survival.PathsChain | futur3/execution/survival.py:104-110 | the paths are drawn from one generator that goes on from each to the next |
| RiskManager.PassesMonotone | futur3/execution/risk_manager.py:299-331 | a size that passes the survival floor leaves every smaller size passing |
| RiskManager.SurvivalCap | futur3/execution/risk_manager.py:291-331 | the binary search returns the greatest size up to the base that passes: it passes and every larger one fails |
| RiskManager.BindingOf | futur3/execution/risk_manager.py:334-346 | the binding constraint is the first of the tightest caps, and no edge when nothing binds |
| RiskManager.SurvivalBindsStrictly | futur3/execution/risk_manager.py:334-346 | the survival gate is reported as binding only when it is strictly below the other caps |
| RiskManager.SizePosition | futur3/execution/risk_manager.py:218-289 | the size is the greatest whose margin is within its share of equity, whose notional is within the leverage cap and the scaled Kelly fraction, and which passes the survival floor; each reported cap is the greatest of its own; the error cases in order |
| RiskManager.DefaultExample | futur3/execution/risk_manager.py:253-289 | with the default budgets, 100000 of equity, full Kelly 4, notional 25000 and margin 1540: caps 4, 32 and 12, so 4 contracts bound by Kelly |
| RiskManager.GateExactly | futur3/execution/risk_manager.py:299-331 | the gate passes a size exactly when the share of the configured number of paths, of the configured horizon and seed, that lose less than the kill switch at its leverage is at least the floor |
| RiskManager.GateOnlyTightens | futur3/execution/risk_manager.py:253-277 | turning the survival gate on never enlarges a position |
| Ledger.FillIdentity | futur3/execution/adapters/mock_broker.py:539-650 | every completed fill, in each of the open, add, partial, close and flip cases, moves the basis by what was paid plus what was realized and touches no other contract |
| LedgerTheorems.CashIdentity | futur3/execution/adapters/mock_broker.py:555-650 | after any fills and rolls that complete: per contract realized is cash received plus basis held, the account total is the sum, and booked plus open trade profit equals it |
| LedgerRaises.EveryHistoryAccounts | futur3/execution/adapters/mock_broker.py:555-650 | after any calls, completed or raised: per contract realized is the cash of the legs that moved it plus basis held, booked plus open trade profit is the account total, and that total is the sum over contracts plus what refused flips realized |
| LedgerRaises.HistoryConservesExactly | futur3/execution/adapters/mock_broker.py:555-650 | after any calls the account total is the sum over contracts exactly when what refused flips realized cancels |
| LedgerRaises.LegConservesExactly | futur3/execution/adapters/mock_broker.py:606-650 | completed or raised, one change of position conserves exactly when it is not a flip at a price that is not positive |
| LedgerRaises.RollConservesExactly | futur3/execution/adapters/mock_broker.py:381-413 | completed or raised, a roll conserves exactly when it does not flip the back position at a back price that is not positive |
| LedgerRaises.RaisedRollExactly | futur3/execution/adapters/mock_broker.py:381-413 | a roll that raises leaves the front closed and every other position as it was, unless the front's root is unknown, when it changes nothing |
| LedgerRaises.RefusedRollTears | futur3/execution/adapters/mock_broker.py:381-413 | two fills and a roll with a negative back price that raises and leaves the account total above the sum over contracts |
| LedgerTheorems.RollConserves | futur3/execution/adapters/mock_broker.py:381-413 | a roll, as its two legs and the carried tally, conserves all three |
| BetTape.BookedTradesAreWholeBets | futur3/execution/adapters/mock_broker.py:606-650 | unless a roll cancels or flips an opposite position, each booked trade is the net cash of one whole flat-to-flat bet, rolls included, and a flat contract carries no open tally |
| BetTape.RollTracksExactly | futur3/execution/adapters/mock_broker.py:397-411 | a roll keeps the booked trades whole bets exactly when the back is flat, held the same way, or held the opposite way with a larger quantity |
| BetTape.RollTidyExactly | futur3/execution/adapters/mock_broker.py:397-411 | a roll leaves a tally on a flat contract exactly when it cancels the back position |
| BetTape.RollStrandsTally | futur3/execution/adapters/mock_broker.py:397-411 | two fills and a roll that reach such a state |
| BetTape.RollFlipsExactly | futur3/execution/adapters/mock_broker.py:397-411 | a roll flips the back position and books its bet exactly when the back is held the opposite way with a smaller quantity |
| BetTape.RollCanFlip | futur3/execution/adapters/mock_broker.py:397-411 | two fills and a roll that flips |
| Valuation.FillMovesEquity | futur3/engine/backtest.py:87-105 | a fill moves marked equity by exactly the gap between the mark and the fill price |
| Valuation.RollMovesEquity | futur3/execution/adapters/mock_broker.py:397-411 | a roll moves marked equity by exactly the gaps of its two legs |
| Valuation.RollAtMarks | futur3/execution/adapters/mock_broker.py:397-411 | a roll struck at the marks leaves equity unchanged |
| Broker.MockBroker.PlaceOrder | futur3/execution/adapters/mock_broker.py:173-197 | a new order is stored, unfilled, under the next id |
| Broker.MockBroker.CancelOrder | futur3/execution/adapters/mock_broker.py:199-217 | cancels once; unknown and repeated cancels are refused |
| Broker.MockBroker.FillOrder | futur3/execution/adapters/mock_broker.py:415-481 | the refusals in order, the filled count and the ledger change of a fill |
| Broker.MockBroker.ApplyFillToPosition | futur3/execution/adapters/mock_broker.py:539-650 | the new positions, realized profit, booked and open trade profit of a fill |
| Broker.MockBroker.Advance | futur3/execution/adapters/mock_broker.py:312-357 | outstanding orders of the bar's contract fill in submission order where the bar reaches them, stopping at a raise |
| Broker.MockBroker.RollPosition | futur3/execution/adapters/mock_broker.py:381-413 | both legs and the carried tally, or the state a raise leaves |
| Broker.AdvanceAccounted | futur3/execution/adapters/mock_broker.py:341-357 | every order's filled count is the sum of its fill events and never exceeds the order |
| Broker.AdvanceOneFills | futur3/execution/adapters/mock_broker.py:341-379 | a bar leaves an order alone or fills all that remained of it |
| Broker.FillsWhenReached | futur3/execution/adapters/mock_broker.py:359-379 | a limit order trades, at its limit, exactly when the bar traded at a price as good, a stop, at its stop, exactly when it traded at one as bad, a market order always at the open |
| Broker.AdvancedExactly | futur3/execution/adapters/mock_broker.py:341-357 | a bar fills in full exactly the open orders of its contract that it reaches; a cancelled order never fills |
| Broker.NoneReached | futur3/execution/adapters/mock_broker.py:341-357 | a bar that reaches no open order changes nothing and cannot fail |
| Broker.FillPays | futur3/execution/adapters/mock_broker.py:350-357 | a limit fill pays its limit whatever the slippage, a market or stop fill the slipped open or stop |
| Backtest.MarkToMarket | futur3/engine/backtest.py:87-105 | the loop returns realized equity plus the open profit of every marked position, and raises exactly for an unknown root |
| Backtest.BacktestEngine.Run | futur3/engine/backtest.py:163-276 | the loop over the bars carries out fill, roll, mark, decide and place for each bar, stopping at the first raise, and reports the run |
| Backtest.BacktestEngine.Roll | futur3/engine/backtest.py:278-302 | the roll dated on the bar's day, its count and diagnostic cost |
| BacktestCausality.PrefixCausality | futur3/engine/backtest.py:175-258 | the run on the first k bars has exactly the first k equity points, placements and fills of the full run |
| BacktestCausality.NoSameBarFill | futur3/engine/backtest.py:175-258 | no order fills on the bar that placed it |
| BacktestCausality.FillsSeeOnlyTheOpen | futur3/execution/adapters/mock_broker.py:341-379 | the high, low and close of a bar cannot change that bar's fills, positions or rolls |
| BacktestCausality.CountersAgree | futur3/engine/backtest.py:175-276 | the counters of a run agree with the orders and fills of its account, with at most one order a bar |
| BacktestCausality.RuinedPlacesNothing | futur3/engine/backtest.py:215-258 | a bar at which equity is not positive, or trading is blocked, places nothing |
| BacktestLedger.RunReplays | futur3/engine/backtest.py:175-258 | replaying a run's own fills and rolls on an empty book gives the run's book |
| BacktestLedger.RunConserves | futur3/engine/backtest.py:175-258 | after every engine run the cash identity holds for exactly the run's fills and rolls, and booked plus open trade profit is the realized total |
| BacktestLedger.RunTradesAreWholeBets | futur3/engine/backtest.py:175-258 | an engine run whose rolls cancel or flip no opposite position books whole flat-to-flat bets at their net cash |
| BacktestAttribution.RunAttributed | futur3/engine/backtest.py:175-258 | every equity point is the starting equity plus, over the bars so far, held quantity times multiplier times the move of the mark and, for each fill and roll leg, the gap between mark and price |
| BacktestAttribution.GainsMoveEquity | futur3/engine/backtest.py:87-105 | at fixed marks any fills and rolls move equity by the sum of their gaps, and by what they realize in a contract without a mark |
| BacktestAttribution.MarksAreLatest | futur3/engine/backtest.py:175-200 | every contract is marked at the close of its latest bar |
| RollCounts.RunRollsCounted | futur3/engine/backtest.py:278-302 | a run's roll count and diagnostic cost are those of the rolls among its own ledger operations: the settle gap times the quantity moved times the multiplier |
| BacktestClips.PositionIsClips | futur3/engine/backtest.py:325-393 | without netting, on one contract, nothing is open at a decision and the position is the sum of the granted sizes since the last stop, each with the sign of its signal |
| BacktestClips.StopIsOpenLoss | futur3/engine/backtest.py:366-393 | the stop is hit exactly when the open loss reaches its share of the entry value |
| BacktestTarget.PositionIsLastTarget | futur3/engine/backtest.py:175-258 | in target mode on one contract nothing is open at a decision and the position is the last target asked for |
| BacktestTarget.ExposureBounded | futur3/engine/backtest.py:325-393 | the position never exceeds the largest gate-capped size so far |
| BacktestBudgets.PositionWasAffordable | futur3/execution/risk_manager.py:253-289 | at every decision of a run the position is flat or the target of an earlier bar whose margin, leverage and Kelly budgets, at that bar's equity and close, covered it, and whose survival gate, when on, passed it |
| BacktestBudgets.SurvivalInputsAre | futur3/engine/backtest.py:325-393 | the gate is given the return from each close to the next and a seed that moves on with the bar, from three closes on |
| BacktestRolled.RolledPosition | futur3/engine/backtest.py:175-258 | on a rolled stream only the current contract is held at a decision, at the last target asked for but on a contract's last bar |
| BacktestRolled.StillLastTarget | futur3/engine/backtest.py:175-258 | that is the last target exactly when the bar after the last ask kept the contract or the ask was for the size held |
| TargetLost.LastTargetLost | futur3/engine/backtest.py:175-258 | a two-bar rolled stream that asks for one contract on the front's last bar and ends flat with the order working |
| BacktestRolled.PlacesNoneExactly | futur3/engine/backtest.py:325-393 | on a rolled stream no order is placed after a bar exactly when every later bar asks for nothing or for the size held |
| Portfolio.PortfolioEngine.Run | futur3/engine/portfolio_backtest.py:93-149 | the date-axis loop carries out one fill, roll, mark and decide step per date in date order and reports the run |
| Portfolio.PortfolioEngine.ExecuteRolls | futur3/engine/portfolio_backtest.py:151-172 | all rolls of a date in turn, counting those that moved a position |
| Portfolio.PortfolioEngine.PlaceSignals | futur3/engine/portfolio_backtest.py:187-278 | legs are sized on the blended equity and net against one snapshot |
| PortfolioCausality.DateCausality | futur3/engine/portfolio_backtest.py:98-132 | running on data up to a date gives exactly the equity points, one for each day with a bar, and the placements and fills the full run had by then |
| PortfolioCausality.NoSameDateFill | futur3/engine/portfolio_backtest.py:111-132 | each date adds one equity point and fills only orders of earlier dates |
| PortfolioLedger.DatesReplay | futur3/engine/portfolio_backtest.py:111-132 | replaying a portfolio run's own fills and rolls on an empty book gives the run's book |
| PortfolioLedger.DatesConserve | futur3/engine/portfolio_backtest.py:111-132 | after every portfolio run the cash identity holds for exactly its fills and rolls, and booked plus open trade profit is the realized total |
| PortfolioLedger.DatesTradesAreWholeBets | futur3/engine/portfolio_backtest.py:111-132 | a portfolio run whose rolls cancel or flip no opposite position books whole flat-to-flat bets at their net cash |
| PortfolioHistory.DatesSeen | futur3/engine/portfolio_backtest.py:111-132 | a run has shown its strategy exactly each stream's bars, marks every contract at its latest close and ends on the account's value at those marks |
| PortfolioHistory.DatesCounted | futur3/engine/portfolio_backtest.py:93-149 | the order and fill counters are the orders placed and the fills made since the run began |
| RollCounts.DatesRollsCounted | futur3/engine/portfolio_backtest.py:151-172 | the same of a portfolio run |
| PortfolioTargets.LegHeads | futur3/engine/portfolio_backtest.py:187-278 | a leg's order takes its contract, on top of what is working there, to its signed size, flat, or its size more than is held, and moves no other |
| PortfolioTargets.LegReachesExactly | futur3/engine/portfolio_backtest.py:187-278 | in target mode the position with all working orders filled is the target exactly when nothing was working in the contract on balance |
| PortfolioTargets.TargetOvershot | futur3/engine/portfolio_backtest.py:111-132 | a run that always asks to be long one and ends long two |
| Continuous.Build | futur3/data/continuous.py:144-206 | the splice loop returns exactly the specified series or its first error |
| Continuous.BuiltSeries | futur3/data/continuous.py:144-206 | the series is strictly increasing, holds exactly the bars from the previous target up to the contract's own, and has one event per flagged change of contract |
| Continuous.BuildSucceeds | futur3/data/continuous.py:78-95 | on clean data the series checks and settle lookups cannot fail: a build fails only for its refusals or an empty splice |
| RollSettles.BuiltEventsSettle | futur3/data/continuous.py:208-245 | every event of a built series is struck on the front's roll date at the close of the front's last day with a bar by then and of the back's first day with a bar from then |
| RollSettles.EventNeedsBars | futur3/data/continuous.py:208-245 | a pair has an event exactly when the front has a bar on or before its roll date and the back one on or after it |
| RatioView.RatioAdjustedCloses | futur3/data/continuous.py:118-134 | every close is scaled by its segment's product of later settle ratios |
| RatioView.ContinuousAcrossRoll | futur3/data/continuous.py:118-134 | front settle times a segment's factor equals back settle times the next one's |
| RatioView.KeepsReturns | futur3/data/continuous.py:118-134 | return ratios within a segment are unchanged |
| RollTelescoping.Telescopes | futur3/engine/backtest.py:278-302 | while no order is placed, equity of a held position moves by quantity times multiplier times the move of the close, less roll costs, through any number of rolls |
| RollTelescoping.TelescopesFromEntry | futur3/engine/backtest.py:278-302 | from one entry: equity is start plus quantity times multiplier times (close less entry), less all roll costs |
| RollTelescoping.SilentPlacesNone | futur3/engine/backtest.py:325-393 | a strategy that has fallen silent, without a stop, places no order |
| RollSchedule.BuiltSeriesCovered | futur3/data/continuous.py:186-229 | the roll table of a built series moves a holder at every change of contract after a bar exactly when each change has its bar on the roll date |
| RollRuns.HeldExactly | futur3/engine/backtest.py:278-302 | in a run on a built series with its own events, and while no order is placed, a position held at a bar is held in every later bar's contract exactly when each later change of contract has its bar on the roll date |
| RollRuns.LastLeftBehind | futur3/engine/backtest.py:278-302 | a bar that changes contract on a day without the held contract's roll leaves the position in the old contract |
| RollGap.GapBuilds | futur3/data/continuous.py:144-206 | two contracts without a bar on the roll date build a series |
| RollGap.GapLeavesBehind | futur3/engine/backtest.py:278-302 | the run on that series ends two bars into the back contract still holding the front |
| RollSchedule.BackSettleIsTheClose | futur3/data/continuous.py:208-229 | on daily data the back settle is the close of the bar that starts the new contract |
| RollSchedule.BuiltSeriesTelescopes | futur3/data/continuous.py:186-229 | the engine run on a built series with its own events telescopes while no order is placed |
| MultipleTesting.Bonferroni | futur3/stats/multiple_testing.py:83-91 | every p-value times N, capped at one, rejected at alpha |
| MultipleTesting.Holm | futur3/stats/multiple_testing.py:94-108 | the loop's adjusted value is the largest penalty over the p-values no larger |
| MultipleTesting.BhFdr | futur3/stats/multiple_testing.py:111-124 | the loop's adjusted value is the smallest penalty over the p-values no smaller |
| MultipleTesting.HolmIsClosedTesting | futur3/stats/multiple_testing.py:94-108 | i is rejected exactly when every family containing it has size times least p-value at most alpha |
| MultipleTesting.BhIsStepUp | futur3/stats/multiple_testing.py:111-124 | i is rejected exactly when some p-value no smaller, of rank k, is at most k q over N |
| MultipleTesting.CorrectionsOrdered | futur3/stats/multiple_testing.py:83-124 | BH is at most Holm and Holm at most Bonferroni, pointwise |
| MultipleTesting.AdjustedPermutes | futur3/stats/multiple_testing.py:83-124 | equal p-values get equal adjusted values, and permuting the input permutes the output |
| RomanoWolf.Stepdown | futur3/stats/romano_wolf.py:124-143 | the loop rejects the ranks before the first running p-value above alpha and gives that value to the rest |
| RomanoWolf.MaxOver | futur3/stats/romano_wolf.py:130-134 | the row maximum over the remaining valid strategies, zero by default, reaches a threshold exactly when the definition says |
| RomanoWolf.StepdownIsClosedTesting | futur3/stats/romano_wolf.py:124-143 | a strategy with variance is rejected exactly when every family containing it is rejected by the max test |
| RomanoWolf.RejectIffAdjusted | futur3/stats/romano_wolf.py:135-143 | rejection is exactly an adjusted p-value at most alpha |
| RomanoWolf.AdjustedWithinExactly | futur3/stats/romano_wolf.py:124-143 | an adjusted p-value is at most the single-step one exactly when that is 1, or a strategy with variance ranks at or after it or after an earlier rank whose step exceeds alpha |
| RomanoWolf.AdjustedAtMostSingleStep | futur3/stats/romano_wolf.py:124-143 | so for every strategy that has variance, or ranks before one that has |
| RomanoWolf.AdjustedAboveSingleStep | futur3/stats/romano_wolf.py:124-143 | an input on which the last strategy, without variance, is given 1 against a smaller single-step value |
| RomanoWolf.RejectsNoVariance | futur3/stats/romano_wolf.py:116-143 | a strategy without variance is rejected exactly when a later one has variance and every family holding both is rejected |
| RomanoWolf.AgreesUnlessShielded | futur3/stats/romano_wolf.py:116-143 | stepdown and closed test agree on a strategy exactly when it has variance or no such later strategy exists |
| RomanoWolf.AgreesWhenAllAhead | futur3/stats/romano_wolf.py:116-143 | they agree on every strategy when all statistics with variance are positive |
| RomanoWolf.NoVarianceRejected | futur3/stats/romano_wolf.py:116-143 | an input on which a strategy without variance is rejected |
| Dates.YearOfIs | futur3/contracts/trading_calendar.py:102-108 | a day lies between the January firsts of its year, and of no other |
| TradingDays.AddTradingDays | futur3/contracts/trading_calendar.py:155-178 | when it returns, the result is the n-th trading day after or before the start; it gives up exactly when that lies beyond 7n + 30 days |
| TradingDays.ShiftUnique | futur3/contracts/trading_calendar.py:155-178 | a shift has one result |
| TradingDays.ShiftCounts | futur3/contracts/trading_calendar.py:155-198 | a shift by n lands on a trading day with exactly n trading days between |
| TradingDays.ShiftsCompose | futur3/contracts/trading_calendar.py:155-178 | shifts of one sign compose additively |
| TradingDays.ShiftInverts | futur3/contracts/trading_calendar.py:155-178 | shifting back returns to the start when it is a trading day |
| TradingDays.RoundTrip | futur3/contracts/trading_calendar.py:155-186 | the two calls return the starting trading day |
| TradingDays.TradingDaysBetween | futur3/contracts/trading_calendar.py:188-198 | the loop counts the trading days from start to end, both included, refusing an end before the start |
| TradingDays.AddOnOpenCalendar | futur3/contracts/trading_calendar.py:163-177 | with a trading day in every seven, the step bound is never hit |
| CmeCalendar.EasterIsSunday | futur3/contracts/trading_calendar.py:63-76 | the computed Easter is a Sunday, in every year |
| CmeCalendar.EasterWindow | futur3/contracts/trading_calendar.py:63-76 | it falls from March 22 to April 25 |
| CmeCalendar.EasterFollowsFullMoon | futur3/contracts/trading_calendar.py:63-76 | from 1900 to 2199 Easter is the first Sunday after the tabulated ecclesiastical full moon |
| CmeCalendar.HolidayIsWeekday | futur3/contracts/trading_calendar.py:39-98 | every observed holiday is a weekday within its window of the year |
| CmeCalendar.FloatingWeekdays | futur3/contracts/trading_calendar.py:80-98 | the floating holidays are Mondays, Thanksgiving is a Thursday and Good Friday a Friday |
| CmeCalendar.ChristmasToNewYear | futur3/contracts/trading_calendar.py:39-98 | observed Christmas and the next observed New Year are exactly seven days apart |
| CmeCalendar.DistinctHolidaysApart | futur3/contracts/trading_calendar.py:80-98 | two different observed holidays, of any years, are at least seven days apart |
| CmeCalendar.HolidaysFound | futur3/contracts/trading_calendar.py:102-108 | looking at this and the next year's anchors finds every observed holiday |
| CmeCalendar.OpenExactly | futur3/contracts/trading_calendar.py:135-153 | without an override a day is open exactly when it is a weekday that is no observed holiday of any year |
| CmeCalendar.FourTradingDaysAWeek | futur3/contracts/trading_calendar.py:135-153 | without extra closures any seven days hold at least four trading days |
| CmeCalendar.MakeCalendar | futur3/contracts/trading_calendar.py:120-153 | a date declared both open and closed is refused; otherwise each override wins |
| RollSymbols.FormatParses | futur3/execution/roll_executor.py:108-125 | a formatted symbol parses back to its parts exactly for the years 1950 to 2049 |
| RollSymbols.CycleAscends | futur3/execution/roll_executor.py:57-101 | every root's cycle is a run of strictly later months |
| RollSymbols.NextIsSuccessor | futur3/execution/roll_executor.py:128-148 | the next contract is the next one along the cycle, across years |
| RollSymbols.NextWraps | futur3/execution/roll_executor.py:108-148 | past 2049 the next symbol names 1950 |
| RollCalendar.WindowOrdered | futur3/execution/roll_executor.py:420-443 | target before deadline before last trading day, for every root, month and year on a calendar with four trading days a week |
| RollCalendar.CrudeClampIdle | futur3/execution/roll_executor.py:432-433 | the first-notice clamp on crude never binds |
| RollCalendar.NominalDays | futur3/execution/roll_executor.py:466-556 | the day each product's expiry is reckoned from, by weekday and place in the month |
| RollCalendar.ExpiryInDays | futur3/execution/roll_executor.py:466-556 | the last trading day is open and has exactly the product's number of trading days after it up to that day |
| RollCalendar.NoticeInDays | futur3/execution/roll_executor.py:466-556 | first notice is crude's second trading day after expiry, or the last trading day of the month before for rates and metals |
| RollCalendar.AnchorsAscend | futur3/execution/roll_executor.py:466-556 | later contract months have strictly later anchors |
| RollCalendar.TargetsAscend | futur3/execution/roll_executor.py:420-556 | roll targets strictly increase with the contract month |
| RollBuilder.Derive | futur3/execution/roll_executor.py:466-556 | last trading day and first notice of each product by its rule |
| RollBuilder.Build | futur3/execution/roll_executor.py:420-443 | an entry with its window in order; on an open calendar it fails only for the symbol, and the window check never fires |
| RollBuilder.BuildCycle | futur3/execution/roll_executor.py:445-456 | one entry per cycle month of each year in order, or the stated errors |
| RollBuilder.CycleTargetsAscend | futur3/execution/roll_executor.py:445-456 | roll targets strictly increase along a built cycle |
| RollBuilder.DefaultCalendarBuilds | futur3/execution/roll_executor.py:420-443 | the default calendar is open enough: every entry it builds is strictly ordered |
| Combinations.CombosAscend | futur3/cv/cpcv.py:122-122 | choices are enumerated in strictly increasing lexicographic order |
| Combinations.EachChosenEqually | futur3/cv/cpcv.py:122-122 | each element is in exactly C(n-1, k-1) of the C(n, k) choices |
| Cpcv.MakeBlocks | futur3/cv/cpcv.py:71-81 | blocks meet end to end, cover every sample and differ in size by one at most, the larger first |
| Cpcv.Splits | futur3/cv/cpcv.py:84-155 | one fold per choice in order, its samples classed by what their labels see; the errors in order |
| Cpcv.MakeFold | futur3/cv/cpcv.py:123-154 | the set-based loops class every sample as test, train, purged or embargoed |
| Cpcv.PurgeIsLabelOverlap | futur3/cv/cpcv.py:127-139 | dropping the samples just before each test block drops exactly those whose label window meets one |
| Cpcv.FoldsAreAllChoices | futur3/cv/cpcv.py:120-155 | C(N, k) folds, no test set twice, none missing |
| Cpcv.FoldPartitions | futur3/cv/cpcv.py:132-154 | test, train, purged and embargoed counts add up to the samples |
| Cpcv.TrainingDoesNotLeak | futur3/cv/cpcv.py:127-143 | no training label window holds a test sample and no training sample lies in an embargo |
| Cpcv.DropsAreNeeded | futur3/cv/cpcv.py:127-143 | a sample is dropped only for one of those two reasons |
| Cpcv.TestedEqually | futur3/cv/cpcv.py:120-155 | every sample is tested in exactly C(N-1, k-1) folds |
| Cscv.MetricOver | futur3/cv/cscv.py:90-99 | the metric of a strategy's segments joined in the order of the choice |
| Cscv.Argmax | futur3/cv/cscv.py:102-110 | a largest value, and the first such |
| Cscv.BelowMedian | futur3/cv/cscv.py:113-129 | the logit is negative exactly when more strategies beat the winner out of sample than it beats |
| Cscv.CscvPbo | futur3/cv/cscv.py:142-225 | the loops return the share of finite splits whose winner falls below the median, or the first error |
| Cscv.InSampleHalfTheTime | futur3/cv/cscv.py:197-199 | every segment is in sample in exactly half of the splits |
| Cscv.OtherHalfIsASplit | futur3/cv/cscv.py:197-199 | the out-of-sample half of each split is the in-sample half of another |
| Cscv.OnlyOrderMatters | futur3/cv/cscv.py:197-214 | a strictly increasing change of the metric changes nothing |
| Cscv.IdenticalGiveZero | futur3/cv/cscv.py:26-28 | identical strategies give probability zero |
| Cscv.PboIsAProbability | futur3/cv/cscv.py:214-214 | the result lies in [0, 1] |
| Cscv.PboIsShareLosing | futur3/cv/cscv.py:197-214 | over all choices of half of the segments, it is the share, among the splits that can be ranked, of those whose first best strategy is beaten outside by more strategies than it beats |
| RollingLog.SpacedIsWindowed | futur3/data/sources/backoff_queue.py:5-9 | grants more than a window apart in steps of the limit is the same as no closed window holding more than the limit |
| RollingLog.GrantSpaced | futur3/data/sources/backoff_queue.py:212-272 | a grant breaks the limit exactly when recorded one window after the oldest entry of a full log |
| RollingLog.RunGood | futur3/data/sources/backoff_queue.py:212-296 | over any run of attempts the limit holds exactly when no grant ties |
| RollingLog.TieBurst | futur3/data/sources/backoff_queue.py:240-296 | at a tie any number of further grants go through in one closed window |
| RollingLog.WaitIsNeeded | futur3/data/sources/backoff_queue.py:240-265 | a request is held back only when granting it at once would break the limit |
| RollingLog.WaitMeansFull | futur3/data/sources/backoff_queue.py:240-265 | a log holds a request back only when the limit of grants lies inside the window |
| RollingLog.FullMeansWait | futur3/data/sources/backoff_queue.py:240-265 | and, while the limit holds, whenever it does |
| RollingLog.OneWaitIsEnough | futur3/data/sources/backoff_queue.py:240-265 | after waiting as told the log has room |
| Backoff.DropOld | futur3/data/sources/backoff_queue.py:285-296 | the prune loop drops exactly the leading entries older than the cutoff |
| Backoff.BackoffQueue.Acquire | futur3/data/sources/backoff_queue.py:163-238 | a call that finds room in both windows and a free slot is granted at its first look; one that times out or still waits found a limit full or all slots in flight at its last; a grant adds one entry to the global and the key's history and one in flight, anything else changes neither; a call times out only when its remaining wait ends past the deadline, and waits on only before it |
| Backoff.BackoffQueue.SleepsWhenFull | futur3/data/sources/backoff_queue.py:240-265 | something is to be waited for only when a window or the slots are full, and, without ties, whenever they are |
| Backoff.BackoffQueue.Record | futur3/data/sources/backoff_queue.py:267-272 | the slot is taken in all three counts, and in flight stays within its limit |
| Backoff.BackoffQueue.Release | futur3/data/sources/backoff_queue.py:274-279 | in flight drops by one, never below zero |
| Backoff.LimitsHold | futur3/data/sources/backoff_queue.py:163-296 | in every reachable state the global and each key's limit hold in every closed window exactly when no grant tied |
| PropGuard.PropAwareMockBroker.IsTradeAllowed | futur3/execution/adapters/prop_aware_mock_broker.py:143-167 | the verdict and the new peak and halt of the pre-trade check |
| PropGuard.PropAwareMockBroker.IncreasingBlockReason | futur3/execution/adapters/prop_aware_mock_broker.py:169-197 | the gates of a risk-increasing order in order, with their side effects |
| PropGuard.CapHolds | futur3/execution/adapters/prop_aware_mock_broker.py:138-197 | over any run with orders filled before the next check, no position exceeds the cap and the peak never falls |
| PropGuard.RunLatches | futur3/execution/adapters/prop_aware_mock_broker.py:169-207 | a halt keeps its reason for the rest of the run and the peak never falls |
| PropGuard.PeakIsHighest | futur3/execution/adapters/prop_aware_mock_broker.py:138-207 | the peak is the highest equity a run has looked at, from the initial peak on |
| PropGuard.HaltsExactly | futur3/execution/adapters/prop_aware_mock_broker.py:169-197 | an order that meets the limits halts the account for the daily loss exactly when that much is lost, for the trailing loss exactly when it is not and the account stands that far below an equity it was seen at, and passes otherwise |
| PropGuard.HaltedFillsAreFew | futur3/execution/adapters/prop_aware_mock_broker.py:158-161 | after a halt at most as many orders can fill as contracts are held |
| PropGuard.CapForWorkingOrders | futur3/execution/adapters/prop_aware_mock_broker.py:153-181 | working orders in a contract stay within the cap in every order of filling exactly when the position with all buys, and with all sells, does |
| PropGuard.UnfilledOrdersPassTheCap | futur3/execution/adapters/prop_aware_mock_broker.py:153-181 | two full-cap orders checked together and then filled hold twice the cap |
| PropGuard.HaltedReversal | futur3/execution/adapters/prop_aware_mock_broker.py:158-161 | on a halted account an opposite order passes and lands on the other side exactly when its quantity lies strictly between the position and twice the position |
| PropGuard.HaltedReversalReached | futur3/execution/adapters/prop_aware_mock_broker.py:138-207 | a run from a fresh account that is halted by its daily loss and then crosses from long two to short one |

## Left out

- Rounding: `Decimal` (28 digits) and `float` are exact reals throughout.
- Random generators, Politis-White block lengths, Sharpe ratios, logarithms and normal quantiles: draws, statistics and metrics are arbitrary inputs; of the logit only the sign is kept.
- RomanoWolf.Stepdown: takes the observed and bootstrapped statistics as given; the checks of alpha, draw count and block length and the bootstrap that makes the statistics are not modelled.
- Portfolio.PortfolioEngine.Run: the strategy's legs come in contract order and risk-parity weights are an arbitrary function of history and legs.
- Broker.MockBroker.PlaceOrder: the refusal of order types outside a restricted set is not modelled, as nothing in the engines restricts it.
- Cscv.CscvPbo: the mean and median logit and the correlation between in-sample and out-of-sample metrics need logarithms and square roots.
- Broker.MockBroker.Advance: order types other than market, limit and stop stay open, as in the source.
- Backoff.BackoffQueue.Acquire: the wait loop is cut after a given number of turns, since on a clock that stands still it would not end; on a clock that passes the deadline enough turns always end it. Sleeping is whatever the clock does between readings.
- PropGuard.PropAwareMockBroker.IsTradeAllowed: the class holds the inherited ledger fields and models only the overridden methods; fills enter through the ledger function of the base broker.
- TradingDays.RoundTrip: both calls must return; a calendar with too few trading days makes one of them raise.
- `modify_order`, `restrict_supported_to`, order events other than fills, client order ids, and the unrealized and margin fields that the mock broker keeps at zero.
- Broker state after a raise inside an engine run: the run's outcome is the error.
- Order of `get_positions`: positions are a map, and every use of them sums or looks up.
- `sorted` is a stable insertion sort on the same key.
- Date range limits: years are unbounded in both directions; the crypto session regime flag of roll entries.
- `decide_rolls`, `StaticRollCalendar`, the divergence check, fixed-size sizing, walk-forward splits, point-in-time gates, registries and policies: single-branch or lookup code.
- Vendor sources, broker adapters for live venues, Parquet and DuckDB storage, hashing and provenance.
