# Nifty-Guardian: a verified model of the trading runtime and its data platform

This project models the parts of Nifty-Guardian whose promises span several classes, and proves those promises for
every input, every run and every reachable state:

* the paper-trading runtime (order, position and portfolio managers on a synchronous event bus, stepped one candle at
  a time by the event processor) together with the signal engine that listens to it;
* the pausable runtime engine that drives a candle source through that processor;
* drawdown episodes, Monte Carlo perturbations and risk statistics;
* the historical data store with its validator and its query cache;
* walk-forward windows, and the live session with its reconnection backoff.

## How the model is built

Prices are exact reals. Money (pnl, cash, equity) is an integer number of ten-thousandths, obtained by the platform's
own rounding to four decimals with ties to even (`Rounding.dfy`); adding amounts is then exact. Timestamps are integer
microseconds on the naive market clock. Ids are fresh when created and nothing is ever removed, so the k-th order,
position or dummy trade has id k.

The runtime appears twice. `TradingStep.dfy` and `SignalStep.dfy` are functions on values: one candle through the event
processor, one event through the signal service. `EventBus.dfy`, `PaperTrading.dfy`, `SignalService.dfy`,
`EventProcessor.dfy` and `Sessions.dfy` are the objects, with the fields the source updates in place; each method is proved to compute exactly
the corresponding function, and the bus is proved to keep every observer in the state that folding the whole event log
gives. The theorems are about the functions, and therefore about the objects:

| file | what is proved there |
|---|---|
| `Ledger.dfy` | conservation of cash and equity, one live position, orders and positions one to one |
| `Bracket.dfy`, `Volatility.dfy` | every trade between its stop and its target, risk budget, conservative exits, flat after the close, best candidate |
| `DailyCaps.dfy` | entries and realized loss per date |
| `Correlation.dfy` | dummy trades mirror positions |
| `Monitors.dfy`, `Equity.dfy` | the monitors' counters and drawdown are those of the run |
| `SignalLimits.dfy`, `Acceptance.dfy`, `Notifications.dfy` | hours, threshold, cooldown, daily limits, in both directions; messages agree with trades |
| `DailyReports.dfy` | daily reports add up; the tracker's books agree with the account's |
| `ExitReasons.dfy` | exit price, reason and R-multiple recovered from a rounded pnl |
| `Exits.dfy`, `NarrowStops.dfy` | where each position of a run left, what the next decision is told of it and what the operator was told; a run that is told wrong |
| `EventLog.dfy` | what each candle announces, and that events carry the state the managers hold |
| `Sessions.dfy` | any schedule of commands refines one uninterrupted run |

Beside each function stand laws that do not mention its body: what the data, the run or the log must look like before and
after. `Draws.dfy` states them for the random choices of a simulation, `DataQuality.dfy` and `Answers.dfy` for what the
data platform refuses, holds and answers.

The indicator, context, condition and strategy packages are one arbitrary function of the candle, the history and the
last exit (`Env.pipeline`); the Average True Range and the risk and decision engines are modelled as they are, so the
daily limits and the size of a stop are consequences of their code, not assumptions. The wall clock is another arbitrary function. Draws of the random
generator, answers of the market feed and answers of a broker are inputs.

Where comments and code differ the code is followed: short positions are traded (the note on long-only signals is out of
date); the session's `start` is the same transition as `resume` and `replay` and works from paused, stopped and ended
sessions; the portfolio's daily figure is never reset by the runtime, so it is the whole run's realized profit
(`Ledger.DailyPnlIsCumulative`); an emergency stop is refused once a session is stopping.

## Model

| member | source | states |
|---|---|---|
| Ledger.RunBalanced | backend/app/runtime/event_processor.py:117-181 | for every candle stream and pipeline: every order is filled and opened exactly one position, only the tracked position is not closed and it is whole, cash is the initial capital plus everything realized, and the open position is valued at the last close |
| Ledger.EquityIsConserved | backend/app/paper_trading/portfolio_manager.py:44-68 | every candle after the warm-up ends in a snapshot whose equity is cash plus what the one open position would gain at the last close, with the run's realized profit as its daily figure and exactly the closed positions listed as closed |
| Ledger.DailyPnlIsCumulative | backend/app/paper_trading/portfolio_manager.py:36-42 | the daily figure equals the realized profit of the whole run, across dates |
| Rounding.MoneyIsNearest | backend/app/paper_trading/position_manager.py:18-22 | money counts ten-thousandths, and an amount is the nearest count, ties to the even one |
| EventLog.EntryAnnounces | backend/app/runtime/event_processor.py:203-237 | a flat candle announces every evaluation in order, then the assessment of exactly those within their risk limits, then the submission, fill and position of the entry if there is one |
| EventLog.RunEventsAreCurrent | backend/app/runtime/event_processor.py:117-146 | at every candle boundary the last event about each position, and the last submission and fill of each order, carry it as the managers hold it, and no event is about any other |
| EventLog.CandleIsFramed | backend/app/runtime/event_processor.py:117-146 | a candle publishes its market data first and, after the warm-up, a snapshot last; every fill and position update in between is stamped with that candle's instant |
| Bracket.RunBracketed | backend/app/runtime/event_processor.py:148-181 | for both directions each realized pnl lies between stop pnl and target pnl, no stop costs more than the risk budget or lies nearer than the exposure allows, and a surviving position has its close strictly inside its bracket |
| Bracket.ExitIsConservative | backend/app/runtime/event_processor.py:152-172 | a candle that reaches stop and target is booked at the one that pays least; one that reaches neither exits exactly from the market close on |
| Bracket.FlatThroughClose | backend/app/runtime/event_processor.py:163-181 | no position opened earlier is still open after a candle at or past the market close |
| Bracket.EntryTakesBest | backend/app/runtime/event_processor.py:238-275 | a flat candle enters exactly when trading is permitted and the first unbeaten qualifying evaluation has a direction; order and position are that evaluation's, with its name ("unknown" when empty), size, stop and target at the close price, assessed with nothing deployed and the loss and entries of the day |
| Bracket.RunEnters | backend/app/runtime/event_processor.py:134-144 | over a run a candle after the warm-up that leaves nothing open once exits are taken opens a position exactly when trading is permitted and its best evaluation has a direction; any other candle opens none |
| Bracket.DecisionIsSound | backend/app/runtime/event_processor.py:210-252 | an actionable decision straddles the entry, risks at most the budget, and was taken below both daily limits |
| RiskEngine.AssessmentIsSound | backend/app/trading/risk/engine.py:44-102 | an assessment without rejection has a tradable size, stop and target on the right sides, a bounded stop loss, and passed the daily gates |
| RiskEngine.StopKeepsDistance | backend/app/trading/risk/engine.py:44-102 | the exposure gate refuses stops near the entry: every accepted stop is farther away than half the risk percentage over the exposure percentage of the price |
| RiskEngine.AssessmentInFull | backend/app/trading/risk/engine.py:44-102 | stop and target at their own multiples of the volatility on the sides of the direction, the largest size whose stop stays within the budget, the rounded ratio, the capital required, and each rejection reason exactly when its limit is reached |
| Volatility.CalculateAtr | backend/app/trading/indicators/volatility.py:31-43 | the loops compute the Average True Range, or refuse too few candles |
| Volatility.AtrWithinRanges | backend/app/trading/indicators/volatility.py:31-43 | the indicator stays between the smallest and the largest true range, up to its rounding |
| Volatility.AtrNonNegative | backend/app/trading/indicators/volatility.py:14-43 | on candles whose low, close and high are ordered it is never negative |
| Volatility.TrueRangeSpans | backend/app/trading/indicators/volatility.py:14-28 | a true range reaches from the lower of the low and the previous close to the higher of the high and the previous close |
| Volatility.SmoothingMoves | backend/app/trading/indicators/volatility.py:37-43 | the mean of the first ranges, then each range moves it by one part in the period of their difference; rounded to four decimals |
| RiskEngine.SelectBest | backend/app/trading/decision/engine.py:78-85 | the first qualifying candidate that no qualifying candidate beats, none exactly when none qualifies |
| RiskEngine.Recommend | backend/app/trading/decision/engine.py:39-75 | a recommendation exists exactly when some candidate is valid and within risk, and nothing qualifying beats it |
| RiskEngine.RecommendsStrength | backend/app/trading/decision/engine.py:78-85 | strong is recommended before moderate and moderate before weak, and among equals none has a better ratio |
| DailyCaps.DailyCapsHold | backend/app/runtime/event_processor.py:117-275 | on every date at most the configured number of entries, and a realized loss at most the daily limit plus one risk budget, positions carried overnight included |
| DailyCaps.CountersAreExact | backend/app/runtime/event_processor.py:120-124 | the processor's counters are the run's own entries and losses of the current date |
| Exits.RunRemembersLastExit | backend/app/runtime/event_processor.py:180-196 | what the next decision is told about the last exit is the timestamp of the last candle over which a position of the run became closed, and nothing exactly as long as none is closed |
| Market.ClockReads | backend/app/runtime/event_processor.py:118-170 | the date and the "HH:MM" clock of an instant given by its date, its minute and the rest |
| Correlation.RunCorrelated | backend/app/signals/signal_service.py:211-313 | at every candle boundary nothing is pending, each dummy trade reports its own position (direction, entry, quantity, stop, target) and is closed exactly when that position is, with its realized pnl and the reason inferred from it, and only the open position is awaited |
| Correlation.AtMostOneOpenTrade | backend/app/signals/signal_service.py:277-294 | at most one dummy trade is open, and only while a position is |
| Monitors.RunCounted | backend/app/paper_trading/performance_monitor.py:64-90 | submissions, fills, orders, wins and losses as counted from events are the run's totals; the health monitor saw every event |
| Monitors.MonitorsAreExact | backend/app/paper_trading/performance_monitor.py:64-90 | the monitored drawdown is the largest fall between two points of the equity curve starting at the initial cash, which has one point per candle after the warm-up |
| Monitors.MonitorsCountEvents | backend/app/paper_trading/performance_monitor.py:64-86 | for any log the counters are the numbers of events of their kinds, wins and losses those of closed positions with a gain and with a loss |
| Monitors.MonitorsReadSnapshots | backend/app/paper_trading/performance_monitor.py:88-90 | for any log the daily figure is that of the last snapshot and the drawdown the largest of any |
| Monitors.JournalIsTheLog | backend/app/paper_trading/execution_journal.py:52-99 | the journal holds every event but market data once, in order, each under its heading |
| Equity.MaxDrawdownIsLargestFall | backend/app/trading/backtest/performance.py:72-83 | the running-peak drawdown bounds every fall from an earlier to a later point and is attained |
| Equity.CalculateMaxDrawdown | backend/app/trading/backtest/performance.py:72-83 | the single pass computes that drawdown |
| SignalLimits.RunWithinPolicy | backend/app/signals/signal_filter.py:72-118 | for candles in time order and any trading hours: accepted signals are in those hours and above the threshold, at most the maximum per date, one strategy's at least the cooldown apart; one summary per date, only after an open candle of that date |
| SignalLimits.PolicyHolds | backend/app/signals/signal_service.py:179-260 | the same for any log of events whose candles come in time order |
| Acceptance.FillIsAnswered | backend/app/signals/signal_filter.py:78-113 | for any log with candles in time order a fill adds an accepted signal exactly when its strategy was evaluated, the instant is in trading hours, the score reaches the threshold, no signal of that strategy was sent within the cooldown and the date had fewer than the maximum; otherwise the weak-signal message exactly when it is due |
| Acceptance.SummaryIsSent | backend/app/signals/signal_service.py:179-209 | for any such log a candle is answered with its date's summary exactly when the clock has reached the summary time, the date has had a candle in trading hours and no summary was sent for it; the report is that of the tracker's trades |
| Acceptance.KnowsTheLog | backend/app/signals/signal_service.py:160-225 | after any log the service remembers exactly the last evaluation of each strategy, the last signal of each strategy it sent, its last messages, and what the dashboard shows: phase, direction and last trade |
| Acceptance.CloseIsStamped | backend/app/signals/models.py:98-114 | a closed trade carries the last candle's instant, the time since it was opened, the pnl, the price at which the whole position earns it and that pnl over the risk, and nothing else changes |
| Notifications.MessagesAgree | backend/app/signals/signal_service.py:211-313 | for any log of events: every dummy trade is announced once and in order, every exit message is the final state of its trade, of the kind of its exit reason and the only one, no stop or target exit goes without one, suppressed-signal messages keep the cooldown |
| SignalStep.ScoreInRange | backend/app/signals/confidence_engine.py:34-56 | the score always satisfies its model's range, so building it never raises |
| SignalStep.ScoreMonotone | backend/app/signals/confidence_engine.py:24-50 | strength and reward to risk never lower the score, and a ratio of three earns the full bonus |
| SignalStep.ScoreIs | backend/app/signals/confidence_engine.py:24-50 | 70, 55 or 35 points for the strength and ten for each unit of reward per risk up to three, in hundredths |
| SignalStep.GuardianIs | backend/app/signals/confidence_engine.py:34-56 | the score of the strength and of the reward per risk in ten-thousandths, zero without risk |
| SignalStep.ReasonIs | backend/app/signals/dummy_trade_tracker.py:65-80 | target within the larger of 0.01 and 2 percent of the way to it, else stop within the same distance, else end of day |
| ExitReasons.InferenceInvertsPnl | backend/app/signals/signal_service.py:108-116 | the inferred exit price is within 0.00005 over the quantity of the real one, for both directions, despite rounding |
| ExitReasons.TargetIsReported | backend/app/signals/dummy_trade_tracker.py:65-80 | a target exit is always reported as Target |
| ExitReasons.StopIsReportedIff | backend/app/signals/dummy_trade_tracker.py:65-80 | a stop exit is reported as StopLoss exactly when its inferred price is out of the target's tolerance, in terms of the configured prices up to the rounding |
| ExitReasons.StopIsReported | backend/app/signals/dummy_trade_tracker.py:65-80 | for stop and target straddling the entry 0.01 decides up to the rounding: wider brackets never take a stop for a target, narrower ones always do |
| ExitReasons.NarrowStopIsMisreported | backend/app/signals/dummy_trade_tracker.py:65-80 | a bracket the risk engine accepts at a price of 4 whose stop exit is reported as Target |
| ExitReasons.RMultipleAtBracket | backend/app/signals/models.py:98-114 | the R-multiple is -1 at the stop and the reward over the risk at the target, up to the rounding of the pnl |
| Exits.RunExit | backend/app/runtime/event_processor.py:148-181 | every position of a run is closed exactly when a candle took it out, with the pnl of the price it left at |
| Exits.RunExitsAreAnnounced | backend/app/signals/signal_service.py:277-313 | on every run, for each reported position: no exit message while it is open, and afterwards exactly one of the kind its exit is taken for or none; a target exit is always announced as one, a stop exit as a stop exactly when the price inferred for it is out of the target's tolerance, and otherwise as a target |
| Exits.RunStopsTold | backend/app/trading/risk/engine.py:44-102 | of the orders of a run over genuine candles, every stop of a bracket wider than 0.01 or at a price of 20.1 or more is told as a stop, and every stop of a bracket narrower than 0.01 as a target, up to the rounding |
| NarrowStops.StopIsAnnouncedAsTarget | backend/app/signals/signal_service.py:277-313 | a whole run in sound surroundings, at a price of 4, whose one exit leaves at the stop and is announced once, as a target hit |
| EventBuses.EventBus.Publish | backend/app/paper_trading/event_bus.py:34-36 | under the wiring of the runtime nothing raises and every observer ends in the state that observing the extended log gives |
| EventBuses.EventBus.Dispatch | backend/app/paper_trading/event_bus.py:34-36 | for any table of subscriptions, foreign callables included: the handlers of the exact event type are called in order up to the first that raises |
| EventBuses.EventBus.SubscribeTo | backend/app/paper_trading/execution_journal.py:69-71 | a handler is appended to the list of each of its event types and to no other |
| EventBuses.WiredDelivers | backend/app/live/live_runtime.py:99-101 | under the wiring of the runtime the journal, both monitors and the signal service each take every event they subscribe to exactly once |
| PaperTrading.OrderManager.CreateOrder | backend/app/paper_trading/order_manager.py:35-59 | a new order, or a refusal that changes nothing when the quantity is not positive |
| PaperTrading.OrderManager.Transition | backend/app/paper_trading/order_manager.py:115-128 | a status moves only along the transition table, otherwise nothing changes |
| PaperModels.LivesMoveOn | backend/app/paper_trading/models.py:41-56 | an order never returns to a status and after at most five is filled, cancelled or rejected; a filled one was submitted |
| PaperModels.FillPriceIs | backend/app/signals/signal_service.py:221-221 | the average fill price, or the requested price in place of an absent or zero one |
| PaperTrading.OrderManager.Submit | backend/app/paper_trading/order_manager.py:64-84 | for any broker: submission event, then the answer and its event, or a refusal that leaves the order submitted |
| PaperTrading.PositionManager.OpenPosition | backend/app/paper_trading/position_manager.py:30-53 | a whole open position and its event, or a refusal that changes nothing |
| PaperTrading.PositionManager.UpdateUnrealizedPnl | backend/app/paper_trading/position_manager.py:55-66 | revaluation of a position that is not closed, refusal otherwise |
| PaperTrading.PositionManager.Exit | backend/app/paper_trading/position_manager.py:68-106 | full or partial exit with its realized pnl, and the four refusals |
| PaperModels.ExitLeaves | backend/app/paper_trading/position_manager.py:79-102 | what an exit leaves and what it realized make up the position: quantity and pnl move by the exit, and it is closed exactly when nothing is left |
| PaperModels.PnlIsGain | backend/app/paper_trading/position_manager.py:18-22 | the pnl is the quantity times the move of the price to the nearest ten-thousandth, negated for a short position |
| PaperTrading.PortfolioManager.Snapshot | backend/app/paper_trading/portfolio_manager.py:44-68 | the snapshot of cash, positions and running peak, published |
| PaperModels.PnlMonotone | backend/app/paper_trading/position_manager.py:18-22 | the rounded pnl follows the price up for long and down for short |
| EventProcessors.EventProcessor.ProcessCandle | backend/app/runtime/event_processor.py:117-146 | the objects move exactly as the step function, and no manager call can raise |
| EventProcessors.EventProcessor.CheckExit | backend/app/runtime/event_processor.py:148-181 | exit price, booking and event of the open position |
| EventProcessors.EventProcessor.EvaluateEntry | backend/app/runtime/event_processor.py:183-275 | evaluations, approvals, and the order, fill and position of an actionable recommendation |
| SignalServices.SignalFilter.ShouldEmit | backend/app/signals/signal_filter.py:78-113 | verdict in the order of the checks, after the day rolled over |
| SignalServices.SignalFilter.RecordEmitted | backend/app/signals/signal_filter.py:115-118 | the accepted signal is remembered and counted for its day |
| SignalServices.DummyTradeTracker.CloseTrade | backend/app/signals/dummy_trade_tracker.py:54-63 | the closed trade replaces the open one; an unknown id changes nothing |
| SignalServices.SignalService.OnOrderFilled | backend/app/signals/signal_service.py:211-260 | a fill opens at most one dummy trade, pending until its position opens |
| SignalServices.SignalService.OnPositionUpdated | backend/app/signals/signal_service.py:277-313 | an opening takes over the pending trade, a close closes it and notifies |
| SignalServices.SignalService.OnMarketData | backend/app/signals/signal_service.py:179-209 | the candle's instant, the session phase and the daily summary with its report of the tracker's trades |
| DailyReports.ReportAddsUp | backend/app/signals/dummy_trade_tracker.py:122-169 | a report counts the tracker's trades closed on its date, each once; winners and losers, and both directions, make up the total, the win rate is a percentage, and best and worst bound every trade of the date |
| DailyReports.ReportFigures | backend/app/signals/dummy_trade_tracker.py:122-169 | every count, total, average, rate and maximum of a report over the trades of its date |
| DailyReports.TotalsAddUp | backend/app/signals/dummy_trade_tracker.py:135-141 | each trade adds its own pnl, duration and ratio to the totals, nothing where it has none |
| DailyReports.ReportedInOrder | backend/app/signals/dummy_trade_tracker.py:88-102 | the trades of a date come in the order they were closed |
| DailyReports.ExtremesAreFirst | backend/app/signals/dummy_trade_tracker.py:139-140 | the best and the worst trade are the first of those that earned most and least |
| DailyReports.RunReportsAddUp | backend/app/signals/dummy_trade_tracker.py:122-169 | over every run a report of any date adds up |
| DailyReports.RunBooksAgree | backend/app/signals/signal_service.py:277-307 | over every run what the dummy trades earned is what the reported positions realized, and the whole change of cash when no signal was suppressed |
| Sessions.EveryScheduleRefinesOneRun | backend/app/runtime/runtime_engine.py:44-91 | any schedule of run, start, pause, resume, stop, replay and end leaves the engine where one uninterrupted run over a prefix of the source would be, each candle once, never beyond the maximum |
| Sessions.RunRefines | backend/app/runtime/runtime_engine.py:44-65 | a run from any state but stopped or ended completes the source or reaches the maximum, and stops the session exactly when configured to |
| Sessions.CommandsAreHeard | backend/app/runtime/session_controller.py:24-72 | pause is heard only while running, stop while running or paused, end once started; start, resume and replay always lead to running; only a run processes candles, and none once stopped or ended |
| Sessions.PausedProcessesNothing | backend/app/runtime/session_controller.py:50-66 | over any sequence of commands other than a run nothing but the state changes |
| Sessions.RuntimeEngine.Step | backend/app/runtime/runtime_engine.py:67-91 | one step advances by one candle, or declines |
| Sessions.RuntimeEngine.DriveSteps | backend/app/runtime/scheduler.py:30-36 | the scheduler's loop ends on a finite source and computes the whole drive |
| Sessions.RuntimeEngine.RunAll | backend/app/runtime/runtime_engine.py:44-65 | start or resume, then drive; nothing once stopped or ended |
| Sessions.SessionController.Transition | backend/app/runtime/session_controller.py:68-72 | a session moves only along its table |
| Sessions.TransitionsAre | backend/app/runtime/session_controller.py:24-34 | from where each session state can be entered |
| Drawdowns.IdentifyDrawdownEpisodes | backend/app/trading/analytics/drawdown.py:18-46 | the episodes of a decomposition: each with its last running maximum as peak, first lowest interior point as trough and first recovery, in order, covering every underwater point, and each listed with the times of those three points, its depth, and the depth in percent of the peak to four decimals |
| Drawdowns.UnderwaterIsCoveredOnce | backend/app/trading/analytics/drawdown.py:18-46 | the interior points of the episodes are exactly the underwater points, each in exactly one episode |
| Drawdowns.EpisodeIsUnique | backend/app/trading/analytics/drawdown.py:18-46 | two episodes that share an interior point are the same |
| Drawdowns.ListedDepths | backend/app/trading/analytics/drawdown.py:49-61 | the deepest listed episode is the maximum drawdown of the curve |
| Drawdowns.TimesAreOrdered | backend/app/trading/analytics/drawdown.py:18-61 | on a curve in time order time passes from peak to trough to recovery, and from one episode to the next |
| MonteCarlo.BuildEquityCurve | backend/app/monte_carlo/simulation.py:89-95 | the k-th point is the initial capital plus the first k trades |
| MonteCarlo.MeasuredFromCurve | backend/app/monte_carlo/simulation.py:73-95 | the result is read off the curve: it starts at the initial capital and moves by each pnl, final capital and profit are its end, the drawdown its largest fall, the return its profit in percent to four decimals |
| MonteCarlo.Shuffle | backend/app/monte_carlo/perturbations/trade_shuffle.py:20-23 | the in-place loop leaves the order that the draws decide |
| Draws.ShuffleReachesEveryOrder | backend/app/monte_carlo/perturbations/trade_shuffle.py:20-23 | every draw gives a permutation, and every permutation is given by some draw |
| Draws.ShuffledOutcomes | backend/app/monte_carlo/simulation.py:47-52 | a simulation that does not shuffle processes the trades as given; one that does is, over all draws, exactly the unshuffled one over all orders |
| MonteCarlo.RunOneSimulation | backend/app/monte_carlo/simulation.py:30-86 | the six stages in sequence compute the outcome of the draws; a delay without candles is refused |
| Draws.MissedAreDropped | backend/app/monte_carlo/perturbations/missed_trade.py:31-31 | the trades left are those at a strictly increasing list of positions that holds a position exactly when its draw reaches the probability |
| Draws.SimulationMisses | backend/app/monte_carlo/perturbations/missed_trade.py:28-31 | a result counts exactly the trades whose draw reaches the probability, all of them without one; there is none exactly when a delay has no candles |
| Draws.CertainMisses | backend/app/monte_carlo/perturbations/missed_trade.py:28-31 | a probability of zero changes nothing and one of a hundred leaves no trade |
| Draws.StagesAreOnePass | backend/app/monte_carlo/simulation.py:47-71 | the passes over the list are one pass: the k-th trade measured is a processed one put through slippage, commission, delay and resizing on its own, with the k-th draw |
| Draws.ResizedIsNearest | backend/app/monte_carlo/perturbations/position_variation.py:47-51 | a resized quantity is the nearest whole one, ties to even, and at least one |
| Draws.ResizedTrade | backend/app/monte_carlo/perturbations/position_variation.py:47-56 | resizing changes the quantity and recomputes the pnl for it at the same prices |
| MonteCarlo.RepricingForgetsCommission | backend/app/monte_carlo/simulation.py:54-71 | with an execution delay or a position variation enabled the outcome is the one without commission |
| MonteCarlo.DelayLooksForward | backend/app/monte_carlo/perturbations/execution_delay.py:73-87 | a delayed price is the close of a given candle no earlier than the fill |
| MonteCarlo.DelayIsExact | backend/app/monte_carlo/perturbations/execution_delay.py:41-87 | with candles of distinct timestamps in any order both fills move exactly the configured number of candles, or stay past the end, and only prices and pnl change |
| MonteCarlo.DelayNeedsCandle | backend/app/monte_carlo/perturbations/execution_delay.py:79-81 | a fill at a time without a candle keeps its price |
| Costs.SlippageIsAdverse | backend/app/monte_carlo/perturbations/slippage.py:40-53 | slippage never raises the pnl of a genuine trade of either direction, rounding included |
| Costs.SlippageMovesFills | backend/app/monte_carlo/perturbations/slippage.py:40-53 | each fill moves against the trade by its own percentage and the pnl is recomputed from both |
| Costs.CommissionTakes | backend/app/monte_carlo/perturbations/commission.py:33-37 | the pnl falls by the percentage of both notionals and the flat fee, up to the rounding |
| Costs.CommissionIsAdverseIff | backend/app/monte_carlo/perturbations/commission.py:33-37 | for any trade, commission leaves the pnl no higher exactly when a negative cost is too small to be rounded up |
| Costs.CommissionNeverHelpsIff | backend/app/monte_carlo/perturbations/commission.py:33-37 | for valid settings, commission never raises a slipped genuine trade exactly when it has no percentage or neither slippage exceeds 100 percent |
| Costs.ExcessiveSlippageTurnsCommissionAround | backend/app/monte_carlo/perturbations/commission.py:33-37 | a validated configuration with slippage above 100 percent under which charging commission raises the pnl by ten |
| Costs.SlippageKeepsNotionalIff | backend/app/monte_carlo/perturbations/slippage.py:40-53 | no genuine trade has a negative notional after slippage exactly when neither percentage exceeds 100 |
| Costs.CostsNeverHelpIff | backend/app/monte_carlo/simulation.py:54-58 | slippage p and commission c together never raise a genuine trade before rounding exactly when p * (c - 100) <= 100 * c on both sides; after the two roundings the same condition decides whether they raise it by more than one ten-thousandth |
| Costs.RoundingCanTip | backend/app/monte_carlo/simulation.py:54-58 | a bearable configuration under which the two roundings do raise a trade by one ten-thousandth |
| Costs.CostsNeverHelpAtAllIff | backend/app/monte_carlo/simulation.py:54-58 | rounding included, both costs never help any genuine trade exactly when both are bearable, for a flat fee of at least half a ten-thousandth, a commission of at most 100 percent or slippages of at most 100 percent; being bearable is necessary for all settings |
| Costs.ModestCommissionIsAdverse | backend/app/monte_carlo/simulation.py:54-58 | with a commission of at most 100 percent both costs never raise a genuine trade, whatever the slippage, rounding included |
| Costs.AdverseCostsDominate | backend/app/monte_carlo/simulation.py:54-58 | slippage then commission, bearable with a harmless rounding or with no notional turned negative, lowers every prefix of the equity curve and never shrinks the maximum drawdown |
| Costs.BearableCostsNearlyDominate | backend/app/monte_carlo/simulation.py:54-58 | under merely bearable costs the k-th point is at most k ten-thousandths higher and the drawdown smaller by at most one per trade |
| Costs.SimulationIsAdverse | backend/app/monte_carlo/simulation.py:30-86 | a simulation with such costs and nothing after them, shuffled or not, never ends above the baseline capital, and unshuffled never has a smaller drawdown |
| MonteCarlo.ShuffleKeepsOutcome | backend/app/monte_carlo/perturbations/trade_shuffle.py:20-23 | any order gives the same final capital and a drawdown between the net loss and the sum of the losing trades |
| RiskStatistics.PercentileMonotone | backend/app/monte_carlo/statistics.py:80-90 | percentiles grow with the percentile and stay within the sample |
| RiskStatistics.PercentileExtremes | backend/app/monte_carlo/statistics.py:80-90 | percentiles 0 and 100 are the minimum and the maximum |
| RiskStatistics.PercentileInterpolates | backend/app/monte_carlo/statistics.py:80-90 | between neighbouring values the percentile interpolates linearly, at evenly spaced percentiles |
| RiskStatistics.MedianIsPercentile50 | backend/app/monte_carlo/statistics.py:80-90 | percentile 50 is the median for odd and even samples |
| RiskStatistics.IntervalAroundMedian | backend/app/monte_carlo/statistics.py:93-101 | the interval contains the median, lies in the sample, and widens with the confidence |
| RiskStatistics.IntervalIs | backend/app/monte_carlo/statistics.py:93-101 | the interval leaves out the same share on both sides |
| RiskStatistics.ValueAtRiskIs | backend/app/monte_carlo/statistics.py:104-107 | the loss at the percentile the confidence leaves, zero when that is a gain |
| RiskStatistics.TailIsExact | backend/app/monte_carlo/statistics.py:115-115 | the tail is exactly the values up to the threshold, in order |
| RiskStatistics.ConditionalValueIs | backend/app/monte_carlo/statistics.py:110-119 | the mean loss of that tail, zero when it gains on average |
| RiskStatistics.TailRiskOrder | backend/app/monte_carlo/statistics.py:104-119 | the tail is never empty, expected tail loss is at least the value at risk, which is not negative and grows with the confidence |
| RiskStatistics.SampleOrderIrrelevant | backend/app/monte_carlo/statistics.py:55-56 | whatever order the simulations ran in, the statistics read the same sorted sample |
| HistoricalData.ValidateDataset | backend/app/data/validation/validator.py:41-55 | the loops of the eight detectors compute the report, in order |
| HistoricalData.TimeChecksIff | backend/app/data/validation/validator.py:75-102 | no duplicate, order or timezone issue exactly when timestamps strictly increase at one UTC offset |
| HistoricalData.OneOffsetIff | backend/app/data/validation/validator.py:155-168 | the timezone check passes exactly on datasets of one UTC offset |
| HistoricalData.CleanIff | backend/app/data/validation/validator.py:41-197 | a report is clean exactly when timestamps strictly increase at one offset without a gap within a date or a close moving more than 20 percent, prices are consistent and nothing is negative, and no volume is an outlier |
| HistoricalData.CleanIsVerbatim | backend/app/data/repository.py:75-81 | a dataset with a clean report is stored as it came |
| DataQuality.ReportIs | backend/app/data/validation/validator.py:41-197 | an issue of a kind at a timestamp is reported exactly when a record of that timestamp offends in that way, in plain numbers (the volume check by whole-number squares), and the issue without one exactly when UTC offsets differ |
| DataQuality.CleanIsSound | backend/app/data/validation/validator.py:41-197 | a report is clean exactly when no record offends and there is one UTC offset; such data is stored as it came |
| DataQuality.StoreIsRight | backend/app/data/repository.py:72-82 | an import or append is rejected, with nothing changed, exactly when it is not forced and its batch is not sound; refused by the sort exactly when forced and naive and aware timestamps meet; stored otherwise, in order, verbatim when sound, with its metadata, and nothing else changes |
| DataQuality.OnlySoundDataIsStored | backend/app/data/repository.py:52-82 | over every sequence of operations without force each key holds exactly the records accepted for it, in the order they came, and they are sound |
| Sorting.SortOrders | backend/app/data/repository.py:79-79 | stored records are in time order |
| Sorting.SortPermutes | backend/app/data/repository.py:79-79 | nothing is lost or invented by the sort |
| Sorting.SortIsStable | backend/app/data/repository.py:79-79 | records with equal timestamps keep their order |
| DataServices.AppendIsImportOfBoth | backend/app/data/repository.py:65-82 | a forced import followed by a forced append stores what importing both at once stores, unless naive and aware timestamps meet |
| DataServices.AppendIsImportOfBothIff | backend/app/data/repository.py:65-82 | that exception is exact, whatever is stored already: when naive and aware timestamps meet, the two ways agree exactly when the append leaves what the refused import leaves |
| DataServices.DayAndLatest | backend/app/data/repository.py:96-105 | a single-day query of naive data is the records of that date, and the latest candle is the last in time |
| DataServices.SliceIsFilter | backend/app/data/repository.py:92-94 | the slice between two bisections is the ordered filter start <= t <= end |
| DataServices.BisectLeft | backend/app/data/repository.py:92-92 | everything before the index is earlier, everything from it on is not |
| DataServices.BisectRight | backend/app/data/repository.py:93-93 | everything before the index is not later, everything from it on is |
| DataServices.Repository.Store | backend/app/data/repository.py:72-82 | stored, rejected by validation or unorderable, with the parallel timestamps kept |
| DataServices.Repository.AppendDataset | backend/app/data/repository.py:65-70 | existing and new records are stored together |
| DataServices.Repository.QueryDateRange | backend/app/data/repository.py:84-94 | the answer equals the filter of the stored records |
| DataServices.Repository.QuerySingleDay | backend/app/data/repository.py:96-99 | the range query from the first to the last naive microsecond of the date |
| DataServices.Repository.QueryLatestCandle | backend/app/data/repository.py:101-105 | the last stored record, if any |
| DataServices.CacheManager.InvalidateDataset | backend/app/data/cache/cache_manager.py:36-40 | the dataset and exactly the queries of that dataset are gone |
| DataServices.ImportService.DoImport | backend/app/data/services/import_service.py:46-65 | a successful store registers its instrument and invalidates its dataset, a refused one changes nothing |
| DataServices.QueryService.GetDateRange | backend/app/data/services/query_service.py:24-35 | answer from the cache or from the repository, filling the cache |
| DataServices.CacheIsInvisible | backend/app/data/services/query_service.py:24-45 | over every interleaving of imports, appends, reads and cache clearings, refused ones included, the cached platform replies exactly what the repository alone would, every cached entry is fresh, and exactly the stored datasets have metadata |
| Answers.RangeIsAnswered | backend/app/data/repository.py:84-94 | a range query is answered with exactly the stored records of the range, in order, refused exactly when naive and aware timestamps meet, and empty for a key without records |
| Answers.ReadsAreAnswered | backend/app/data/repository.py:96-111 | a day is the range of its microseconds, the latest candle the last one, metadata what was registered |
| Answers.CacheIsKept | backend/app/data/cache/cache_manager.py:26-44 | an answered query is kept, a stored dataset drops exactly the answers about its key, clearing drops all, nothing else changes the cache |
| Windows.GenerateRolling | backend/app/validation/window_generator.py:37-64 | the loop ends and yields the closed-form rolling schedule |
| Windows.GenerateExpanding | backend/app/validation/window_generator.py:67-94 | the loop ends and yields the closed-form expanding schedule |
| Windows.GenerateAnchored | backend/app/validation/window_generator.py:97-125 | the loop ends and yields the closed-form anchored schedule |
| Windows.GenerateWindows | backend/app/validation/window_generator.py:27-34 | the schedule of the configured kind |
| Windows.FitsIff | backend/app/validation/window_generator.py:47-64 | window k is produced exactly when its test interval fits, so the count is floor(room / step) + 1 or none |
| Windows.NoLookAhead | backend/app/validation/window_generator.py:37-125 | training is non-empty and ends before testing starts, inside the data |
| Windows.ScheduleMovesByStep | backend/app/validation/window_generator.py:37-125 | the first window starts with the data and tests right after its training; each further one moves its test by the step, its training start only when rolling, its training end unless anchored |
| Windows.SameTestIntervals | backend/app/validation/window_generator.py:9-16 | the three kinds share their test intervals |
| Windows.TestsOverlapIff | backend/app/validation/window_generator.py:37-64 | consecutive tests overlap exactly when the step is shorter than a test |
| Windows.TrainPrecedesTest | backend/app/validation/runner.py:238-241 | every training candle precedes every test candle, in any order of the candles |
| LiveSessions.Reconnect | backend/app/live/reconnect.py:42-72 | attempts up to the first success or the limit, with the sum of their delays |
| LiveSessions.ReconnectSucceedsIff | backend/app/live/reconnect.py:50-72 | it succeeds exactly when an allowed attempt would connect |
| LiveSessions.TotalDelayBounded | backend/app/live/reconnect.py:30-32 | the total delay is at most base * 2^n - base and at most n caps, and the first is exact while nothing is capped |
| LiveSessions.DelayIs | backend/app/live/reconnect.py:30-32 | the delay doubles from the base with each attempt up to the cap |
| LiveSessions.LiveSession.Handle | backend/app/live/live_session.py:46-114 | every public call, with what the feed answers |
| LiveSessions.CallsLead | backend/app/live/models.py:36-74 | for every call the states it is heard in and the state it leads to, both directions; a refused call changes no state and a feed that raises leaves the session stopping |
| LiveSessions.TradingIsReached | backend/app/live/live_session.py:46-64 | a fresh session that connects can trade, pause and trade again |
| LiveSessions.RestingStates | backend/app/live/live_session.py:46-114 | no sequence of calls rests in connecting; it rests in stopping exactly when a shutdown met a feed that raised |
| LiveSessions.ShutDownIsFinal | backend/app/live/models.py:72-73 | stopping and stopped are absorbing |
| LiveSessions.EmergencyIsFinal | backend/app/live/live_session.py:71-77 | over every sequence of calls the safety flag is up exactly when an emergency stop was called, and from then on the session is stopping or stopped |
| LiveSessions.EmergencyEffect | backend/app/live/live_session.py:71-77 | only an emergency stop raises the flag; it stops the session exactly when the session was not shutting down already and the feed disconnects |

## Left out

- Floating point: prices are exact reals and money is fixed point; an initial capital with more than four decimals is not modelled.
- EventProcessors.EventProcessor.ProcessCandle: the analysis pipeline is a total function, so its own exceptions (too little history, a zero close) are not modelled; results about brackets assume a warm-up long enough for the Average True Range.
- PaperTrading.OrderManager.Submit: cancelling and rejecting orders are not modelled because the runtime never calls them; neither are the retries of the order executor.
- SignalServices.SignalService.OnMarketData: the export of the daily report to a file and the texts of explanations are not modelled.
- Costs.CostsNeverHelpAtAllIff: for a flat fee below half a ten-thousandth beside a slippage and a commission both above 100 percent, being bearable is shown necessary but not sufficient (`RoundingCanTip`); which of those settings can tip by the last ten-thousandth is not characterised.
- MonteCarlo.RunOneSimulation: the draws of the generator are inputs, so their distribution and their seed are not modelled.
- RiskStatistics.PercentileMonotone: the plain mean, deviation and counts beside the percentiles are not modelled.
- HistoricalData.ValidateDataset: the texts of the issues are not modelled, and a volume is compared with the deviation by squares, so no root is taken.
- DataServices.QueryService.GetDateRange: answers are values, so a caller that mutates the list it was handed (the cache returns its own list) is not modelled; dataset statistics are not either.
- Windows.GenerateWindows: dates have no upper bound, so the overflow of the last representable year is not modelled.
- LiveSessions.LiveSession.Handle: heartbeats, log lines and the other gates of the safety manager are not modelled.
- Sessions.RuntimeEngine.RunAll: a step is atomic; the replay delay and the queue-backed feed are not modelled.
- Latencies, uptime, percentages shown in snapshots and message texts are not modelled.
- API routers, dashboards, the frontend, broker adapters, persistence, optimisation, scoring and the pass/fail rules of walk-forward validation are not modelled.
