# Mercury: a verified model of the research and paper-trading core

Mercury backtests moving-average strategies, searches variants of them in campaigns run by several workers, evolves
them, combines and stresses them, and replays the survivors bar by bar in PAPER sessions. This project models the
parts where state, arithmetic and interleaving meet, and proves what they keep over every input, run or interleaving.

Values are Dafny datatypes. Code that updates objects in place is a `class` or a method with loops; each such method
is proved equal to a function of the old state, and the laws are lemmas about that function over whole runs.
Prices, cash, quantities and scores are exact reals. The literal `1e-9` of the order and position tests is the
parameter `tolerance`; the host's square root and standard deviation are parameters too.

| files | component |
|---|---|
| `PaperExecution`, `PaperPortfolio`, `PaperStrategy`, `PaperReplay`, `PaperSession` | the PAPER session: execution models, portfolio, signal and risk check, the bar as a step, and the objects with their loops |
| `ExecutionPrices`, `PortfolioFlows`, `RiskLimits` | what one fill is charged, what fills do to each field of the portfolio, what a signal asks for and which limit an order breaks |
| `ReplayPrices`, `ReplayDecisions`, `ReplayQueue`, `ReplayLiquidity`, `ReplayAggregate`, `ReplayLedger`, `ReplayOrders`, `ReplayCausality`, `ReplayAccounting`, `ReplayCash`, `ReplayExamples`, `ReplayPartials` | the laws of whole sessions, and short legal sessions that show where laws stop |
| `JobQueue`, `JobQueueRuns`, `JobLeases`, `JobTable` | the leased job queue, its runs, what each call does to a job and how long a lease lasts, and the service's calls on the job table |
| `CampaignWork`, `CampaignRuns`, `CampaignLaws`, `CampaignExamples`, `CampaignTable` | one campaign's experiments, budget and locked test evaluations, what each call leaves, and the service's calls on them |
| `StrategyDsl`, `DslCompiler`, `ConditionMeaning`, `DslMeaning`, `ShadowedClose`, `TwoImplementations`, `StrategyExamples` | the strategy language, its compiler, when its conditions fire, its meaning, where an indicator named `close` breaks it, the PAPER strategy against it, and inputs that show where their laws stop |
| `Backtest`, `BacktestTrades`, `Drawdown`, `WalkForward`, `WindowLaws`, `Rebalance`, `RebalanceLaws`, `PolicyColumns`, `PortfolioPolicy`, `CorrelationStress`, `Evolution`, `EvolutionLaws`, `EvolutionRuns` | the backtest loop and its trades, drawdowns, splits and windows, the portfolio simulation, its schedule and its data policy, the stress bound, the champion loop |

`dafny verify dfyconfig.toml` checks everything.

## What the proofs found

Every session below passes the service's own checks (`Setup.Legal`, `LegalBars`): windows of two and three bars,
consistent bars, a tolerance of `1e-9`.

- Selling while an earlier sale still waits is paid for twice: the portfolio clips the quantity but credits the whole
  gross. With at most one bar of latency and whole fills the books always balance (`PromptAccounting`). In general
  `RunAccounting` gives the exact amount after every bar, and they balance exactly when every sale was of quantity held
  (`BooksBalanceIffCovered`). For every latency from two bars up there is a session at opening prices of one whose cash
  grows from 100 to 150 (`LatencyCreatesCash`); partial fills do the same without latency (`PartialFillsCreateCash`).
- An order that waits is not checked again at the open that fills it. Under IDEAL, cash is never negative exactly when
  such a check would have passed for every waiting purchase (`SolventIffPaid`), which without latency is always
  (`CashNeverNegative`). `RisingOpenOverdraws` is a session with one bar of latency that ends at a hundred below zero.
- `docs/execution_model.md:12` promises that a bar's aggregate fill stays within `volume * max_participation_rate`.
  Without latency a new order is not charged to the bar's budget. `CapIsKeptWhen` says exactly when the promise
  holds, and `CapIsExceeded` is a session that fills twenty where ten are allowed.
- Under MICROSTRUCTURE without latency, an order accepted on a bar without volume is left submitted and unqueued.
  `OrderConservation` counts such orders for every session; the order balance closes without them exactly when none was
  accepted on a bar that could not fill it (`BalanceClosesIff`). `OrderIsDropped` is a session where one is.
- `docs/strategy_dsl.md:9` says indicators are averages of `close`. An indicator named `close` overwrites that column
  for later ones. `AveragesIffCloseIntact` says exactly when the columns are what they are called; positions are right
  whenever no condition reads an overwritten one (`CompilerCorrect`). For crossovers the converse
  holds too: if one of the two is overwritten, some closes give wrong positions (`CrossoverCorrectIff`,
  `ShadowedCloseMisleads`). For other conditions it need not, as one that never holds reads averages to no effect.
- The PAPER strategy and the compiled column differ exactly where the averages tie while the column is long
  (`TwoImplementationsAgree`); `TieSeparates` is a session and its closes where they do.
- Dearer trading never raises a backtest's equity as long as a round trip keeps no more at the raised rates
  (`CostsOnlyHurt`), which rates of at most one guarantee (`RatesUpToOneKeepLess`). Otherwise there is always a backtest
  that ends higher (`CostsCanHelp`); requests bound both rates from below only (`app/schemas/experiment.py:17`).
- Finishing a job does not look at the lease again, and no worker sends heartbeats while it executes, so a job longer
  than the stale limit can be finished twice (`ExpiredWorkerOverwrites`). `TerminalChangesExactly` says which step
  changes a terminal job; the laws over runs assume that no lease is recovered while its worker executes.
- A retrying job that keeps a cancellation request is ineligible for ever (`StrandedStays`). It comes about in two ways
  and no other (`StrandsExactly`): its lease is recovered (`RecoveryCanStrand`), or its execution ends in a transient
  error before its session has seen the request (`UnseenRequestCanStrand`).
- Cancelling a campaign can be undone by the refresh after a job that was still running, exactly when something is then
  open, failed or completed (`RefreshForgetsCancellation`); `CancellationIsForgotten` is such a run.
- A finish can leave the campaign's counters behind: either one exactly when its session had read an old budget, and
  the completions also when its handler fails between completing and counting (`FinishIsExactWhen`). `StaleBudgetLags`
  is a run of two workers, neither of which fails, with both counters one behind; `CountersCanLag` one with a failure.
- Reported portfolio turnover counts rejected rebalances, while costs follow accepted ones
  (`CostsFollowAcceptedTurnover`).
- The recorded policy that weights use only earlier returns (`app/portfolio/engine.py:59`) holds for the rebalances
  (`NoLookahead`), but the initial weights are allocated from every row. `PolicyKeptIff` says exactly when the weights
  of a whole construction keep it: with several unequal strategies only once a dynamic portfolio has rebalanced, and
  under a turnover cap below two never. `InitialWeightsLinger` says how long given initial weights last.
- The drawdown of a stress path leaves the starting wealth out (`StartIsLeftOut`).
- With unequal minimum lengths there may be no walk-forward window although both fit (`LongTrainingCanLeaveNoWindow`).

## Model

| member | source | states |
|---|---|---|
| `Session.PaperPortfolio.constructor` | app/paper_trading/portfolio.py:19-25 | a new portfolio is the opening book with its cash |
| `Session.PaperPortfolio.ApplyFill` | app/paper_trading/portfolio.py:30-51 | the fields after a fill are the book after that fill, and nothing else changes |
| `Session.PaperPortfolio.Equity` | app/paper_trading/portfolio.py:56-60 | the loop over positions, in any order, is cash plus the value of every position |
| `Session.PaperPortfolio.Exposure` | app/paper_trading/portfolio.py:62-66 | the loop over positions, in any order, is the absolute value of every position |
| `Session.RiskEngine.RejectionReason` | app/paper_trading/risk.py:54-88 | the first of the seven rejection reasons that applies, or none |
| `Session.RiskEngine.CheckOrder` | app/paper_trading/risk.py:21-52 | the checked order, and the seen orders grow by exactly the accepted ones |
| `Session.SignalStrategy.OnEvent` | app/paper_trading/strategy.py:15-47 | the signal is the specified function of the closes observed so far, the open and the portfolio; nothing changes |
| `Session.SignalStrategy.Observe` | app/paper_trading/strategy.py:49-51 | the history grows by this bar's close |
| `Session.PaperSession.DrainDueOrders` | app/paper_trading/service.py:119-174 | the loop over due orders leaves the session in the drained state |
| `Session.PaperSession.TradeBar` | app/paper_trading/service.py:175-240 | marking, signal, check and submission leave the session in the traded state |
| `Session.CreateSession` | app/paper_trading/service.py:109-251 | a whole session over any bars ends in the run of the state machine |
| `Execution.BrokerAdvances` | app/paper_trading/execution.py:165-212 | only executable orders execute; at most one fill, never past the quantity; the average price stays the quantity-weighted mean |
| `Execution.PricesAreAdverse` | app/paper_trading/execution.py:75-212 | costs never favour the trader: buys pay at least, sales get at most, the reference price, and that at least, at most, the mid; recorded spread is within recorded slippage; the fee is the commission on the gross |
| `ExecutionPrices.BrokerCharges` | app/paper_trading/execution.py:75-225 | every fill by any model: the price from usable observed quotes, or the synthetic ones around the last price or open, with slippage share and impact; gross, commission and the recorded costs |
| `ReplayPrices.FillsAreCharged` | app/paper_trading/service.py:119-251 | over every session, each fill is charged at the open of the bar it is recorded with, by the session's model and rates |
| `Portfolio.EquitySplits` | app/paper_trading/portfolio.py:56-76 | equity is cash plus the positions' entry cost plus unrealised profit |
| `Portfolio.FillBalances` | app/paper_trading/portfolio.py:30-51 | one fill moves cash plus cost basis by exactly its realised profit, buy fee, oversold credit and dropped remainder |
| `Portfolio.AccountingIdentity` | app/paper_trading/portfolio.py:30-76 | over any fills: cash, cost basis, realised profit and fees balance up to the exact oversold and dropped amounts; costs are all fees; positions stay non-negative |
| `Portfolio.BalancedIffCovered` | app/paper_trading/portfolio.py:41-51 | with no tolerance the books balance exactly when every sale was of quantity held |
| `PortfolioFlows.CashFollowsFills` | app/paper_trading/portfolio.py:30-51 | over any fills, cash is the opening cash plus every sale's gross less every purchase's gross and every fee |
| `PortfolioFlows.ProfitFollowsFills` | app/paper_trading/portfolio.py:41-51 | realised profit is what sales brought after fees less what purchases cost apart from what is held, with the exact deviations |
| `PortfolioFlows.HeldFollowsFills` | app/paper_trading/portfolio.py:27-51 | with covered sales the quantity held is bought less sold, up to the tolerance for each fill |
| `PortfolioFlows.EntryAfterFill` | app/paper_trading/portfolio.py:35-51 | a purchase leaves the weighted mean entry price, a sale keeps it, and other symbols keep their positions |
| `PortfolioFlows.MarkFollowsFills` | app/paper_trading/portfolio.py:30-34 | a symbol's mark is the price of its last fill |
| `PortfolioFlows.MarkedValue` | app/paper_trading/portfolio.py:53-66 | marking a symbol makes its position count at the mark in equity, and at its absolute value in exposure |
| `PortfolioFlows.UnmarkedValue` | app/paper_trading/portfolio.py:56-66 | a position never marked counts at its entry price |
| `RiskLimits.SignalDecides` | app/paper_trading/strategy.py:15-47 | which signal is given and for what quantity, from window sums, the target share of equity and the quantity held |
| `RiskLimits.CheckAnswers` | app/paper_trading/risk.py:21-88 | an order is submitted unchanged exactly when it breaks none of seven limits on the portfolio it would leave, and rejected for the first it breaks |
| `ReplayDecisions.SessionMoney` | app/paper_trading/service.py:119-251 | after every bar of any session, cash and realised profit follow from its fills alone |
| `ReplayDecisions.TradeDecides` | app/paper_trading/service.py:175-240 | a bar adds one signal and at most one order, for what the signal asks, rejected exactly for the first limit it breaks at the open |
| `ReplayDecisions.AcceptedOrdersAreWithin` | app/paper_trading/service.py:175-251 | over every session: orders carry their bar, accepted ones were within quantity and value limits at its open, none is a duplicate; history is the closes, the last one marked |
| `ReplayQueue.QueueIsOnTime` | app/paper_trading/service.py:125-218 | after every bar, what waits is due on the next bar, or untouched and due on exactly its submission bar plus the latency |
| `ReplayAccounting.RunAccounting` | app/paper_trading/service.py:119-251 | the identity holds after every bar of every session, whatever the model and latency, with the exact deviations |
| `ReplayAccounting.PromptAccounting` | app/paper_trading/service.py:119-251 | with a latency of at most one bar and IDEAL or BASIC_SLIPPAGE the identity holds with no deviation after every bar of any session |
| `ReplayAccounting.FillsArePriced` | app/paper_trading/execution.py:75-142 | slippage below 10,000 bps and spread below 20,000 bps give every fill of a whole-fill session a positive price |
| `ReplayAccounting.BooksBalanceIffCovered` | app/paper_trading/portfolio.py:41-51 | over any session with positive prices, whatever model and latency, the books never hold too little, and balance exactly when every sale was of quantity held |
| `ReplayAccounting.IdealCash` | app/paper_trading/risk.py:90-96 | under IDEAL the risk estimate at the open of the filling bar is exactly what a purchase takes from cash, and a sale takes nothing |
| `ReplayAccounting.NeverOverdraws` | app/paper_trading/broker.py:26-38 | so a fill leaves cash non-negative exactly when that estimate was within the cash |
| `ReplayAccounting.CashNeverNegative` | app/paper_trading/broker.py:26-38 | under IDEAL without latency, with rates of at most 10,000 bps, cash is never negative after any bar |
| `ReplayCash.SolventIffPaid` | app/paper_trading/service.py:129-218 | under IDEAL with such rates and any latency, cash is never negative exactly when each waiting purchase, estimated at the open that fills it, is within the cash |
| `ReplayCash.RisingOpenOverdraws` | app/paper_trading/service.py:129-171 | a legal session with one bar of latency whose purchase, checked at an open of one and filled at two, leaves cash at -100 |
| `ReplayLiquidity.FillsOnce` | app/paper_trading/execution.py:142-212 | an executable order that gets liquidity makes one fill of exactly the model's quantity |
| `ReplayLiquidity.TurnIsValid` | app/paper_trading/service.py:131-145 | the configuration built for one due order passes its own check and grants exactly the rest of the budget |
| `ReplayLiquidity.DrainOneGrants` | app/paper_trading/service.py:129-171 | one due order is filled by what it wants or what is left, or waits one bar when nothing is left; it never fails |
| `ReplayLiquidity.DrainShares` | app/paper_trading/service.py:129-171 | after any first part of the queue: what is left, and that together they took the smaller of budget and wants |
| `ReplayLiquidity.EachTakesItsShare` | app/paper_trading/service.py:129-171 | each due order gets the smaller of its wants and what earlier ones left; less than wanted only when the budget is exhausted |
| `ReplayAggregate.BarFills` | app/paper_trading/service.py:119-238 | the exact quantity any MICROSTRUCTURE bar of any run fills |
| `ReplayAggregate.CapIsKeptWhen` | docs/execution_model.md:12-13 | the documented cap on a bar's fills holds with latency, and without it exactly under the stated condition; twice the cap bounds it always |
| `ReplayOrders.BalanceClosesIff` | app/paper_trading/service.py:219-238 | requested = filled + queued, up to the tolerance, exactly when no order was accepted on a bar that could not fill it; always when every bar can |
| `ReplayExamples.CapIsExceeded` | app/paper_trading/service.py:219-236 | a legal five-bar session without latency whose last bar fills twice its liquidity |
| `ReplayExamples.OrderIsDropped` | app/paper_trading/service.py:219-238 | a legal session whose order is accepted on a bar without volume and stays submitted, unfilled and unqueued |
| `ReplayExamples.LatencyCreatesCash` | app/paper_trading/portfolio.py:41-51 | for every latency from two bars up, a legal session that sells one position twice and ends with 150 from 100, nothing held or realised |
| `ReplayPartials.PartialFillsCreateCash` | app/paper_trading/service.py:219-236 | a legal MICROSTRUCTURE session without latency whose waiting rest of a sale is sold again, ending with 104 from 100 |
| `ReplayLedger.QueueSplits` | app/paper_trading/service.py:125-128 | taking the due orders out of the queue loses and copies nothing |
| `ReplayOrders.RunKeepsLedger` | app/paper_trading/service.py:119-251 | over every session, order table, fill table and the queue with the orders set aside agree, and the session does not fail |
| `ReplayOrders.OrderConservation` | app/paper_trading/service.py:213-272 | over every session: requested = filled + queued + left submitted and unqueued, up to the tolerance per filled order; partial fills are the fills that did not fill their order; partial orders are queued once, closed ones never; none overfilled; average price is the weighted mean of an order's fills |
| `ReplayCausality.Causality` | app/paper_trading/service.py:119-251 | bars equal before k and in bar k's open, volume and time give the same orders, fills, queue and cash through bar k |
| `ReplayCausality.TracePrefix` | app/paper_trading/service.py:119-251 | later bars only append to fills, signals and submission bars, and the fills they add carry later bar numbers |
| `ReplayCausality.LatencyRespected` | app/paper_trading/service.py:214-218 | no fill happens before its order's bar plus the latency |
| `StrategyDsl.ValidateCondition` | app/strategy_dsl/validation.py:55-67 | a condition's problems are appended, in order, to the list given |
| `StrategyDsl.ValidateStrategy` | app/strategy_dsl/validation.py:28-43 | the list of problems of a specification, in the order the validator finds them |
| `StrategyDsl.ValidIffMeaningful` | app/strategy_dsl/validation.py:28-93 | no problem is reported exactly when every comparison is between different declared averages, entry and exit differ, the windows are not inverted and the limits hold |
| `StrategyDsl.ProblemsNameTheirCause` | app/strategy_dsl/validation.py:28-93 | each of the six problems is reported exactly when its cause is in the specification |
| `DslCompiler.ConditionExpression` | app/strategy_dsl/compiler.py:84-98 | folding the parts' columns from the left gives the condition's three-valued column |
| `ConditionMeaning.PartsDecide` | app/strategy_dsl/compiler.py:95-98 | an `any` is true exactly when a part is and false exactly when all are; an `all` dually |
| `ConditionMeaning.ConditionDecides` | app/strategy_dsl/compiler.py:84-98 | a condition's column is true exactly where it fires and false exactly where it fails, nulls counted |
| `ConditionMeaning.KnownRowsDecide` | app/strategy_dsl/compiler.py:84-98 | with every average known a condition is decided, and true exactly when it holds |
| `ConditionMeaning.RulesDecide` | app/strategy_dsl/compiler.py:65-75 | a row enters exactly when the entry and every filter fire, and asks to leave exactly when the exit fires |
| `DslCompiler.EvaluatePositions` | app/strategy_dsl/compiler.py:56-81 | the loops compute the specified position column, or the refusal of an invalid specification or a too long input |
| `DslMeaning.PositionsFollowLatch` | app/strategy_dsl/compiler.py:68-81 | fill, shift and null handling amount to an automaton set on entry, cleared on exit, and one bar late |
| `DslMeaning.AveragesIffCloseIntact` | app/strategy_dsl/compiler.py:60-67 | the indicator columns are the moving averages they name exactly when none but the last is called `close` |
| `DslMeaning.CompilerCorrect` | app/strategy_dsl/compiler.py:56-98 | for every valid specification that reads no indicator declared after one named `close`, and every input, the compiled column is the automaton over moving averages |
| `ShadowedClose.CrossoverCorrectIff` | app/strategy_dsl/compiler.py:56-98 | for every valid crossover without filters whose slow window is below the bar limit, compiled positions are right on all closes exactly when neither average is declared after an indicator named `close` |
| `DslMeaning.PositionsArePrefixStable` | docs/strategy_dsl.md:9 | the position at bar k depends on the closes before bar k only |
| `DslMeaning.NullsNeverDecide` | app/strategy_dsl/compiler.py:68-98 | an entry or exit that fires on a row with nulls would fire for every value the missing averages could take |
| `DslMeaning.EvalIsExact` | app/strategy_dsl/compiler.py:84-98 | a decided condition has that value for every filling of the nulls, and a row without nulls decides it |
| `TwoImplementations.SessionFollowsAverages` | app/paper_trading/strategy.py:15-47 | with whole fills the session holds a position after bar k exactly when fast was above slow on the closes before it |
| `TwoImplementations.TwoImplementationsAgree` | app/strategy_dsl/schemas.py:79-93 | session and compiled column hold the same position at bar k exactly unless the averages tie while the column is long |
| `StrategyExamples.TieSeparates` | app/paper_trading/strategy.py:15-47 | a legal session, all orders filled, that has left the market on a tie while the column compiled for its closes is long |
| `StrategyExamples.ShadowedCloseMisleads` | app/strategy_dsl/compiler.py:60-67 | a specification validation accepts, and closes on which the compiled position differs from what its named averages say |
| `Backtest.RunBacktest` | app/backtesting/engine.py:56-137 | the loop over local variables computes the specified account: equity rows, trades, turnover and costs |
| `Backtest.RowsAreStable` | app/backtesting/engine.py:67-137 | later bars never change earlier rows or trades |
| `Backtest.EveryRowIsBooked` | app/backtesting/engine.py:67-137 | at every row all cash or all shares; trades alternate from BUY; equity is capital plus realised plus open profit |
| `Backtest.TotalsMatchTrades` | app/backtesting/engine.py:79-125 | turnover and fees are the sums over the listed trades |
| `BacktestTrades.BarTrades` | app/backtesting/engine.py:72-125 | which bar buys, sells or holds, from the exposure wanted before it; all cash in or all shares out at the charged price, profit over what the shares had cost |
| `BacktestTrades.TotalsAdd` | app/backtesting/engine.py:79-125 | turnover, fees and slippage are the sums over the trades |
| `BacktestTrades.HoldsWhenLong` | app/backtesting/engine.py:67-137 | with rates below one and a long-or-flat column, shares are held exactly on its long bars |
| `Backtest.RunsStayAhead` | app/backtesting/engine.py:67-137 | a cheaper run is always on the same side of the market with at least as much of it |
| `Backtest.CostsOnlyHurt` | app/backtesting/engine.py:67-137 | raising the fee or slippage rate never raises equity on any row when a round trip keeps no more at the raised rates |
| `Backtest.RatesUpToOneKeepLess` | app/backtesting/engine.py:67-137 | raising rates that stay at or below one never lets a round trip keep more |
| `Backtest.RoundTripKeeps` | app/backtesting/engine.py:67-137 | one round trip at an unchanged open ends with exactly the kept share of the capital |
| `StrategyExamples.CostsCanHelp` | app/backtesting/engine.py:38-137 | for all raised rates at which a round trip keeps more, a backtest of compiled positions ends with more equity at the raised rates |
| `StrategyExamples.RatesAboveOne` | app/backtesting/engine.py:79-125 | such rates: nothing is kept at a fee of 100%, a ninth at 200% of both |
| `JobTable.CampaignQueue.ClaimNextJob` | app/campaigns/service.py:226-252 | leases an eligible job with none ahead of it, or nothing when none is eligible |
| `JobTable.CampaignQueue.BeatHeart` | app/campaigns/service.py:254-259 | renews the heartbeat only for the worker that holds the lease |
| `JobLeases.LeaseLasts` | app/campaigns/service.py:254-274 | over any run, a job whose holder is heard of within the limit of every recovery, by claim or heartbeat, stays with it in the same attempt until its execution ends |
| `JobLeases.SilenceEndsLease` | app/campaigns/service.py:261-274 | a recovery changes a job exactly when it runs and was silent for longer than the limit, and then ends the attempt |
| `JobLeases.JobsBecome` | app/campaigns/service.py:214-274 | every call's effect on every job, field by field |
| `JobLeases.ExecutionsBecome` | app/campaigns/service.py:376-412 | who executes what after every call |
| `JobLeases.NextIsTaken` | app/campaigns/service.py:226-242 | the query takes a ready job of highest priority and, among those, earliest creation, whenever one is ready |
| `JobTable.CampaignQueue.RecoverStaleJobs` | app/campaigns/service.py:261-274 | sends every stale running job back or fails it, leaves the rest, and counts them |
| `JobTable.CampaignQueue.RequestCancel` | app/campaigns/service.py:214-224 | cancels a waiting job, requests it of a running one, leaves a terminal one |
| `JobTable.CampaignQueue.CancelCampaignJobs` | app/campaigns/service.py:173-184 | cancels exactly the campaign's waiting jobs |
| `JobTable.CampaignQueue.BeginExecution` | app/campaigns/service.py:376-379 | execution starts only for the worker that holds the lease |
| `JobTable.CampaignQueue.FinishExecution` | app/campaigns/service.py:380-399 | the job ends succeeded, cancelled, retrying or failed, without a second look at the lease |
| `JobQueue.BestIsFirst` | app/campaigns/service.py:227-242 | the claimed job has the highest priority and, within it, the earliest creation; none is claimed only when none is eligible |
| `JobQueue.StepKeepsInv` | app/campaigns/service.py:214-274 | every call by any worker keeps what each status says about attempts, history and lease |
| `JobQueue.InvariantAlways` | app/campaigns/service.py:869-895 | after every lease-respecting interleaving, each status means what it says: attempts, retry history and holder |
| `JobQueueRuns.TerminalChangesExactly` | app/campaigns/service.py:380-399 | in any queue, a step changes a terminal row exactly when that job's own execution finishes and writes something else |
| `JobQueueRuns.TerminalIsForever` | app/campaigns/service.py:376-412 | a succeeded, failed or cancelled job keeps its whole row for ever, over every lease-respecting run |
| `JobQueueRuns.WorkDrops` | app/campaigns/service.py:226-274 | no call but an enqueue adds work; each claim, finish, recovery and immediate cancel removes some |
| `JobQueueRuns.WorkBoundsRun` | scripts/run_worker.py:17-33 | a run over a fixed set of jobs can make only as many such steps as the work it starts with |
| `JobQueueRuns.ClaimsAreBounded` | scripts/run_worker.py:17-33 | however many workers race, a fixed set of jobs is claimed at most as often as its attempts allow |
| `JobQueueRuns.RetriesWait` | app/campaigns/service.py:889-893 | every retry waits two seconds doubled per attempt up to a minute, and is eligible exactly from then unless cancellation was requested |
| `JobQueueRuns.ExpiredWorkerOverwrites` | app/campaigns/service.py:389-397 | with a lease recovered under its worker, a succeeded job is overwritten as failed |
| `JobQueueRuns.StrandsExactly` | app/campaigns/service.py:261-274 | a step strands a job exactly when its lease is recovered, or its execution fails transiently with the request unseen, while it runs with a request and an attempt left |
| `JobQueueRuns.RecoveryCanStrand` | app/campaigns/service.py:261-274 | a run in which a cancelled running job is recovered and stranded |
| `JobQueueRuns.UnseenRequestCanStrand` | app/campaigns/service.py:391-396 | a run without recovery in which a transient error strands a cancelled job |
| `JobQueueRuns.StrandedStays` | app/campaigns/service.py:226-242 | only another cancellation ends such a job |
| `CampaignWork.PlanCampaign` | app/campaigns/service.py:576-609 | plans the first symbol-variant pairs in order, as many as the budget allows |
| `CampaignTable.ResearchCampaign.AddJob` | app/campaigns/service.py:616-651 | adds a queued job exactly when the idempotency key has none |
| `CampaignTable.ResearchCampaign.RunCampaign` | app/campaigns/service.py:126-152 | queues jobs for planned experiments in order, up to the batch; refused once cancelled |
| `CampaignTable.ResearchCampaign.RunCampaignExperiment` | app/campaigns/service.py:653-734 | completes an experiment the session saw unfinished and writes the budget from what the session had read |
| `CampaignTable.ResearchCampaign.RunLockedTestEvaluations` | app/campaigns/service.py:534-562 | evaluates each given experiment that was not evaluated, and adds exactly their number to the counter |
| `CampaignTable.ResearchCampaign.FinalizeCampaign` | app/campaigns/service.py:414-447 | tests the top three of the ranking and completes the campaign when there is one |
| `CampaignTable.ResearchCampaign.RefreshCampaignState` | app/campaigns/service.py:819-828 | active while a job is open, else failed when one failed, else finalized |
| `CampaignTable.ResearchCampaign.RecoverInterrupted` | app/campaigns/service.py:276-329 | restores exactly the missing jobs of a queued or running campaign, then refreshes it |
| `CampaignLaws.ProductAt` | app/campaigns/service.py:576-609 | the plan counts through the variants symbol by symbol |
| `CampaignLaws.JobsAreCreated` | app/campaigns/service.py:616-651 | one queued job for each given experiment without one, in order, and nothing else changes |
| `CampaignLaws.StartQueues` | app/campaigns/service.py:126-152 | starting a campaign queues the first pending experiments up to the batch, and its status says whether any was |
| `CampaignLaws.HandlerWrites` | app/campaigns/service.py:653-734 | which row and counter a handler writes, by how far it got and what its session had read |
| `CampaignLaws.BeginReads` | app/campaigns/service.py:376-379 | what a session has in view when it starts: the budget as it is, and whether its experiment is completed |
| `CampaignLaws.FinishEndsJob` | app/campaigns/service.py:376-412 | how a job ends, by how its handler ended, the cancellation request and the attempts left; other jobs stay |
| `CampaignLaws.QueueCallsTouchJobs` | app/campaigns/service.py:214-274 | claims, heartbeats, cancellations, recovery and the clock leave every job as the queue's laws say, and the rest of the campaign alone |
| `CampaignLaws.FinalizeTests` | app/campaigns/service.py:414-447 | finalizing tests exactly the three best that were not, counts them, and completes a campaign with anything completed |
| `CampaignLaws.RefreshDecides` | app/campaigns/service.py:819-828 | running while a job is open, whatever failed; else failed; else finalized; untouched without jobs |
| `CampaignLaws.InterruptedIsRestored` | app/campaigns/service.py:276-329 | every uncompleted experiment of a queued or running campaign gets a job |
| `CampaignLaws.CancelStops` | app/campaigns/service.py:173-184 | cancelling a campaign cancels its waiting jobs and changes nothing else |
| `CampaignRuns.EvaluateOnce` | app/campaigns/service.py:534-562 | no experiment is evaluated on the test split when it has been, and completion is untouched |
| `CampaignRuns.AtMostOnce` | app/models/campaign.py:170-173 | over any lease-respecting mix of calls: one job per experiment, counted <= completed <= planned <= budget, at most one test evaluation each, test counter never above the tested |
| `CampaignRuns.CountersExact` | app/campaigns/service.py:557-562 | both counters are exact when every finishing session has read the last budget and none fails between completing and counting |
| `CampaignRuns.FinishIsExactWhen` | app/campaigns/service.py:653-734 | from exact counters, a finish leaves each exact iff its session had read the one last written, and for completions iff the handler also counts what it completes |
| `CampaignExamples.CountersCanLag` | app/campaigns/service.py:700-734 | a run whose completed experiment is never counted, as its handler fails in between |
| `CampaignExamples.StaleBudgetLags` | app/campaigns/service.py:557-562 | a lease-respecting run of two workers without any failure that completes and tests two experiments and counts one of each |
| `CampaignRuns.RefreshForgetsCancellation` | app/campaigns/service.py:819-828 | a refresh keeps a cancellation exactly when nothing is open or failed and nothing completed, or there are no jobs |
| `CampaignExamples.CancellationIsForgotten` | app/campaigns/service.py:173-184 | a run from a planned campaign that is cancelled and then completed by its running job |
| `WalkForward.SplitsAscend` | app/campaigns/splits.py:25-58 | a supplied split is accepted exactly when its periods ascend inside the campaign; the default exactly from six days |
| `WalkForward.BuildWindows` | app/campaigns/walk_forward.py:7-33 | the loop returns the specified windows |
| `WindowLaws.DefaultSplit` | app/campaigns/splits.py:35-47 | the default split trains on three fifths of the days and validates on the next fifth, in whole days |
| `WindowLaws.RefusalsExplain` | app/campaigns/splits.py:52-58 | each refusal is given exactly for its cause, the first that applies |
| `WindowLaws.StepIsShare` | app/campaigns/walk_forward.py:17 | the step is the largest whole share of the days among one more than the windows, unless the minimum is longer |
| `WindowLaws.SpanIsLonger` | app/campaigns/walk_forward.py:18 | training takes one step, or its minimum when that is longer |
| `WalkForward.KeptIsInitialRun` | app/campaigns/walk_forward.py:18-32 | the kept windows are an initial run of the candidates, and how many they are |
| `WalkForward.WindowsTile` | app/campaigns/walk_forward.py:7-33 | each window trains strictly before it tests, inside the span; test intervals tile without gap or overlap |
| `WalkForward.WindowExists` | app/campaigns/walk_forward.py:14-24 | there is a window exactly when one is asked for and a training span and one step fit; always with equal minimums |
| `WalkForward.LongTrainingCanLeaveNoWindow` | app/campaigns/walk_forward.py:14-24 | minimums of nine and one in ten days give no window |
| `WalkForward.TestPeriodIsUntouched` | app/campaigns/service.py:781-788 | for every accepted split all windows end before the test period; there is one exactly when two minimum windows fit |
| `Rebalance.Simulate` | app/portfolio/engine.py:186-251 | the loop returns the specified points and rebalance history |
| `Rebalance.ScaledIsSimplex` | app/portfolio/engine.py:124-127 | dividing non-negative weights by their positive sum makes them non-negative with sum one |
| `Rebalance.WeightsFollowTheMethod` | app/portfolio/engine.py:254-265 | risk methods weight in inverse proportion to floored deviation, the performance method in proportion to floored mean return, static keeps the weights |
| `Rebalance.WeightsAreAccepted` | app/portfolio/engine.py:193-236 | between rows current and last accepted weights coincide, non-negative with sum one |
| `Rebalance.CostsFollowAcceptedTurnover` | app/portfolio/engine.py:206-250 | total cost is the rate times accepted turnover; reported turnover adds the rejected; accepted entries chain, respect the cap and turn over at most two; rejected ones exceed it |
| `Rebalance.RowsEarnTheirWeights` | app/portfolio/engine.py:237-250 | each row's return is the sum of its weights times its returns, less its cost |
| `Rebalance.NoLookahead` | docs/portfolio.md:23 | from given initial weights, weights at row k use rows before k only; rows through k depend on rows through k only |
| `RebalanceLaws.HistoryFollowsSchedule` | app/portfolio/engine.py:195-207 | the history has one entry for each row that opens a new month or ISO week after a whole lookback, in order, with its date |
| `RebalanceLaws.DueRowsAre` | app/portfolio/engine.py:400-407 | which rows those are, one by one and in order |
| `RebalanceLaws.WeightsMove` | app/portfolio/engine.py:195-236 | on such a row, and no other, weights become the method's choice unless twice what has to be bought exceeds the cap |
| `RebalanceLaws.CostsFallOnTheirRow` | app/portfolio/engine.py:230-250 | cost and turnover of a rebalance fall on its own row and no other |
| `RebalanceLaws.PointsEarn` | app/portfolio/engine.py:237-250 | contributions are weight times return, strategy by strategy |
| `PortfolioPolicy.InitialWeightsLinger` | app/portfolio/engine.py:186-236 | under any cap, two constructions with the same earlier returns hold the same weights at row k exactly when they started alike, or are dynamic and both accepted at one row by then |
| `PortfolioPolicy.PolicyKeptIff` | app/portfolio/engine.py:59-82 | whatever the cap, the weights at row k of a whole construction use only earlier rows exactly when they start equal, there is one strategy, or a dynamic portfolio under no cap below two has rebalanced by then |
| `CorrelationStress.CauchySchwarz` | app/stress_testing/engine.py:175-176 | the inequality behind the bound, for vectors of any length |
| `CorrelationStress.PortfolioVarianceBound` | app/stress_testing/engine.py:175-176 | portfolio variance is at most the square of the weighted deviations |
| `CorrelationStress.DiversificationBound` | app/stress_testing/engine.py:170-182 | for every matrix and any weights the stressed volatility is at least the baseline; the multiplier is at least one exactly when it reaches the floor |
| `CorrelationStress.CorrelationOneIsReached` | app/stress_testing/engine.py:171 | when every column moves with one series and weights are long, baseline and stressed volatility are equal |
| `Drawdown.DrawdownIsWorstHolding` | app/backtesting/metrics.py:53-59 | the running-maximum drawdown is the worst return of any purchase held to any later row, between -1 and 0 |
| `Drawdown.EquityCharts` | app/research_artifacts/fingerprints.py:71-87 | the charting loop's column is each row's fall from the running maximum, and its minimum is the metric |
| `Drawdown.WealthGrows` | app/stress_testing/engine.py:63-74 | a stress path's wealth compounds return by return from one |
| `Drawdown.StartIsLeftOut` | app/stress_testing/engine.py:63-74 | a stress path never reports a deeper drawdown than the whole path's, and the same one exactly when every later wealth is at least the share kept by some purchase after the start |
| `Evolution.MutationStaysValid` | app/evolution/mutation.py:14-56 | mutating a valid specification fails only for want of a named window; otherwise the result is valid with the same long window and fraction, and the short window moves by at most three, down in even and up in odd generations |
| `Evolution.ScoreRange` | app/evolution/fitness.py:24-51 | scores lie in [0, 100], and in [6, 88] within a run |
| `EvolutionLaws.ScoreIsPoints` | app/evolution/fitness.py:7-60 | a score is the hundred points of its nine components, each graded between its two ends; flags are both lists' |
| `EvolutionLaws.ComplexityAdds` | app/evolution/specification.py:58-75 | what each part of a specification adds to its complexity |
| `EvolutionLaws.PromotedWhen` | app/evolution/fitness.py:63-82 | the first is promoted; after it one without any of four flags that scores two points more, and no other |
| `EvolutionLaws.MutationMoves` | app/evolution/mutation.py:32-45 | the short window moves by minus one, two, minus three, one, minus two, three in turn, within two and the long window |
| `EvolutionLaws.LessonSwitches` | app/evolution/mutation.py:24-31 | a volatility lesson switches target and filter on and changes nothing else |
| `EvolutionLaws.InitialMember` | app/evolution/specification.py:47-57 | which pairs of windows make an initial member, and what it is |
| `EvolutionLaws.DefaultWindows` | app/evolution/specification.py:25-42 | without named windows the long one is twice the lookback, and the lookback may go up to half a year |
| `EvolutionLaws.NamedWindows` | app/evolution/specification.py:10-37 | with named windows, the exact bounds of lookback, windows and fraction |
| `EvolutionLaws.PopulationIsBred` | app/evolution/service.py:132-154 | the next population is the parents as they were, then children of the parents in turn, each naming its parent |
| `EvolutionLaws.ParentsAreBest` | app/evolution/service.py:132 | the parents are the best half of the population size, at least one |
| `EvolutionLaws.RankingIsSteady` | app/evolution/service.py:84-87 | equal scores keep the order of evaluation |
| `Evolution.BetterNeverScoresLess` | app/evolution/fitness.py:14-51 | a candidate no worse in any metric never scores less |
| `Evolution.RankedDescends` | app/evolution/service.py:84-87 | ranking orders by score, and its first element scores at least as much as any |
| `Evolution.Breed` | app/evolution/service.py:132-154 | the loop fills the next population with mutations of the parents in turn |
| `Evolution.CreateRun` | app/evolution/service.py:49-156 | the generation loop computes the specified run, or its error |
| `EvolutionRuns.ChampionIsBestPromoted` | app/evolution/service.py:188-195 | the query returns a promoted candidate of highest score, or none when none is promoted |
| `EvolutionRuns.RunSucceeds` | app/evolution/service.py:49-63 | a run completes exactly when its initial members are valid and there is one |
| `EvolutionRuns.ChampionAgrees` | app/evolution/service.py:69-156 | the loop's champion is the query's, two ahead of all promoted; at most 42 promotions; every specification valid; the number of candidates |
| `EvolutionRuns.NoBestIsMissed` | app/evolution/fitness.py:63-82 | decisions fall on the best of each generation, and no unblocked one of them ends two ahead of the champion |

## Left out

- Rounding to 6, 8 and 12 digits, and floating point as such: exact reals.
- Square roots and standard deviations: parameters, constrained only where a law needs it.
- Sorting of bars and the stream's own checks, upper-casing of symbols, and market events with quotes in a session: the replay feeds bars of one symbol without quotes.
- Python raising on a division by a zero volume or an invalid per-order configuration is the state `failed`, after which the session does nothing.
- Sessions, transactions, row locks and `SKIP LOCKED`: every committed call is one atomic step; a handler's late writes use what its session had read.
- Worker names are unique while they execute, and clocks do not run backwards.
- The worker's command line loop, its sleep and its job limit: its calls are the events of the queue, in any order.
- Jobs that generate reports are executed but never created, so they are not among the events of a campaign.
- `Rebalance.Simulate`: initial weights are given; the static constraint checks are not modelled.
- `PortfolioPolicy.PolicyKeptIff`: risk-parity allocation, an iteration over the covariance, is not modelled; returns are any reals.
- `WalkForward.BuildWindows`: dates are day numbers without the calendar's last day.
- `Drawdown.DrawdownIsWorstHolding`: series that start at or below zero divide by zero or flip signs in the metric and are not covered.
- `CorrelationStress.DiversificationBound`: a matrix of one row has no sample deviation and is not covered.
- `Evolution.CreateRun`: backtests are a function of a candidate's number and specification; memory retrieval is one flag; reports, diversity and mutation labels are not modelled.
- `DslCompiler.EvaluatePositions`: hashing, canonical JSON and the textual explanation are not modelled.
- The campaign's optional evolution runs over the whole campaign period, test split included; only walk-forward windows and locked evaluations are modelled here.
- Sharpe, Sortino, volatility, bootstrap sampling, regressions and embeddings; the native engine; live sessions; decision ledger, reports and the web front end.
