# A verified model of the trading bot's position-lifecycle engine

This Dafny project models the parts of the repository that decide what happens to money: the
options book and the scanner's equity book of the orchestrator, the trailing-stop strategy with
its replay loop and its restart path, the kill switches, the scanner detectors with their
offline twin, the price-track study and the OCC symbol codec. `dafny verify dfyconfig.toml`
checks the whole project.

## How it is built

Each stateful component is given twice. A **specification machine** (`State`, `Event`, `Step`,
`Run`) has one step for every piece of work that can interleave with another thread, the broker
or a crash; every external call carries a *fate* that says whether it raises and where, and the
results quantify over all fates, so "any call may fail" is part of every statement about runs.
A **class** holds the same state in fields that are updated in place, method by method as in the
source, and each method is proved to make the machine's step. Its `Valid()` holds the machine's run
invariants and every public method requires and ensures it, so that `TickLoop.Bot.Tick` can promise
its callers what the machines keep: one row per signal, one request on its way, one cover per short,
no entry under `daily_loss`. Pure code is modelled as functions, loops over bars, ticks and rows as
loops with invariants proved against declarative specifications.

| module | component |
|---|---|
| `Strategy`, `Replay` | trailing stop as a closed form of the running maximum; the backtest replay loop |
| `PositionBook` | options book: posts, "Sell now", advance, reconcile, flatten, adoption, broker |
| `PositionSafety` | trades rows: at most one, exactly one; close requests |
| `PositionOrders` | market sells: one per position in calm runs |
| `PositionSales`, `PositionExits` | exit orders: exactly which steps and runs let two of them sell a position, and keep its record pointing at the one |
| `PositionScenarios` | runs from the empty system that take such a step |
| `PositionRows` | which step booked a trades row, and at what price |
| `PositionProgress` | what completes: entries, "Sell now"; the manual sell that never does |
| `PositionStops`, `PositionRestart` | protective stops: lag, monotonicity; what a restart brings back and where its stop goes from there |
| `PositionEffects` | what each step of the options book does, by its outcome in raw terms |
| `PositionDesk` | the options book as an object updated in place |
| `ScannerBook`, `ScannerSafety`, `EquityDesk` | the scanner shorts: machine, invariants, object |
| `ScannerOrders`, `ScannerStops` | covers and entries; which stops the records keep sight of |
| `ScannerBuys`, `ScannerProgress` | exactly which steps and runs let two orders buy a short back; what completes, what the startup sweep buys |
| `ScannerEffects` | what each step of the scanner's book does, by its outcome in raw terms |
| `Orchestration` | both books under the kill-switch panel's verdicts |
| `Ticks`, `TickLoop` | what one tick does to both books and the switches; the tick over the objects, in its stage order |
| `EquityStrategy` | entry gate, exit rules and cents arithmetic of the shorts |
| `RiskManager`, `KillSwitches` | switch evaluation; the latch-and-recompute machine and its alerts |
| `Bars`, `Detectors`, `Batch` | the four scanner hypotheses and the multi-day batch detector |
| `DetectorEffects` | what the four report on one session's bars, in raw terms |
| `PriceTracks` | post-signal price captures |
| `OccSymbols` | OCC option symbols |

Beside the machines stand **effects**: lemmas that say what one step, visit, round, pulse or tick
does without naming the functions that compute it. They give the clock times, fractions and limits as
numbers, the orders that are sent, what becomes of the record and which row is written, in both
directions where the code decides something.

Prices are `real`; where the code quantizes to cents or thousandths, so does the model. A moment
is absolute UTC seconds plus the ET date and time of day. "Raises" means that the call had no
effect, and orders fill whole.

## Where the code differs from its comments

The model follows the code. These differences are results of the proofs, not assumptions.

- `alpaca_disconnected` can never trip (`KillSwitches.AlpacaDisconnectedNeverTrips`). The comment
  at `x_alpaca_trading_bot/main.py:2291-2293` says a failing `get_clock` trips it; a failing
  `get_clock` makes the market count as closed, and a successful one refreshes the heartbeat.
- A risk evaluation that raises after its P&L queries silently clears the self-healing switches
  (`KillSwitches.HealingIsLastEvaluation`); nothing ever clears `daily_loss` within a process.
- A position without a stop order never gets one again (`PositionStops.StopsNeverFall`); the
  warning at `x_alpaca_trading_bot/main.py:674-679` announces that the next ratchet re-places it.
- An external close drops the position even when no row could be written; exactly when a row is
  written is `PositionSafety.ExternalCloseIsBookedIff`.
- A position whose entry snapshot raised is never marked as taken, so no restart can adopt it
  (`PositionStops.UnmarkedEntryIsOrphaned`).
- A position can be sold twice, also when every cancel takes effect: "Sell now" does not look
  whether the protective stop has filled, the 15:55 flatten looks neither at the stop nor at a
  pending manual sell, and `modify_stop` may replace a stop that has just filled. When exactly each
  of them leaves two exit orders at work is `PositionSales.RequestSellsTwiceIff`,
  `CloseSellsTwiceIff` and `ModifySellsTwiceIff`, for whole runs `PositionSales.RunSellsOnceIff`;
  runs in which both fill are in `PositionScenarios`. When exactly the record also keeps pointing at
  its one exit is `PositionExits.RunIsSafeIff`.
- The flatten books its nominal price, the entry price, when its sell does not fill within the wait
  (`PositionScenarios.FlattenMayBookTheEntry`); every row's price is explained by
  `PositionRows.EveryRowIsExplained`.
- A manual sell that the broker kills leaves the position untouched until the flatten or a restart
  (`PositionProgress.KilledManualSellIsNeverResolved`), a cover that it kills leaves a short open
  even through the flatten (`ScannerProgress.KilledCoverIsNeverResolved`).
- The flatten covers a short whose stop has just filled, and a stop that outlives its swallowed
  cancel fills after the cover; the exact condition is `ScannerBuys.CloseBuysTwiceIff`, for whole
  runs `ScannerBuys.RunBuysOnceIff`.
- A startup that lists a stop but cannot read it starts from the configured stop, which may be below
  the one on the book; with positive entries exactly then the strategy falls behind the book
  (`PositionRestart.RunIsAbreastIff`).
- The startup sweep compares every open row with one reading of the broker's short and never reduces
  it, so that two rows of one ticker can be covered against one short
  (`ScannerProgress.SweepCoversWhatFits`, `SweepCoversTooMuch`).
- The booked loss of a stopped short can exceed 1% of the entry by more than half a cent a share when
  the fill is off the cent grid (`EquityStrategy.SharperBoundFailsOffTheGrid`).
- The batch detector agrees with the live one on a day's bars if and only if the prior high is
  positive and the baseline is not negative (`Batch.DaysAgreeIff`).
- `parse_occ_symbol` is not the inverse of `build_occ_symbol` on all inputs; the exact domain is
  `OccSymbols.RoundTripIff`. `strptime` reads one-digit months and days, so `parse_occ_symbol` also
  takes symbols of 13 and 14 characters (`OccSymbols.OneDigitDayIsRead`). For an empty ticker
  `_underlying_from_occ` disagrees with the parser (`OccSymbols.UnderlyingAgreesIff`).
- The docstring of `insert_scanner_trade` says a blocked row is not tracked; the caller tracks it
  without a row. `ScannerSafety.UniqueGuardNeverFires` shows the case cannot arise.

## Model

| member | source | states |
|---|---|---|
| PositionSafety.AtMostOneRowPerSignal | x_alpaca_trading_bot/main.py:1699-2138 | the trades table has no unique key, yet over every run, with any broker or database call raising and restarts anywhere, no signal gets two rows |
| PositionSafety.StepKeepsInv | x_alpaca_trading_bot/main.py:1299-2235 | the inductive invariant: a signal with a row is not open, rows carry distinct issued signals, the tick thread is only inside an open position |
| PositionSafety.OpenOrBookedOnce | x_alpaca_trading_bot/main.py:1937-2000 | while the process lives and the journal answers external closes, a position is either open and unbooked or closed with exactly one row carrying its entry price and size |
| PositionSafety.ExternalCloseIsBookedIff | x_alpaca_trading_bot/main.py:1937-2000 | one step: an external close always drops the position and leaves a row if and only if the journal takes both calls |
| PositionSafety.AtMostOnePendingRequest | x_alpaca_trading_bot/main.py:1777-1866 | for every interleaving of the API thread with the tick thread, a signal has at most one close request on its way, and an open flagged position without a sell always has exactly one |
| PositionSafety.PutKeepsRequests | x_alpaca_trading_bot/main.py:1804-1806 | the put after the lock moves a request from "about to be put" to the queue: nothing of this signal waits to be put, and no signal gains or loses a pending request |
| PositionOrders.OneSellPerPosition | x_alpaca_trading_bot/main.py:1777-1917 | within a process before 15:55, if nothing raises after an accepted sell: no two market sells of one position, and a row of a manually sold position carries that order's fill price as manual_close |
| PositionOrders.StepKeepsSells | x_alpaca_trading_bot/main.py:1562-2138 | each such step keeps: one sell per signal, an open record points at its only sell, rows of manual sells tell its fill |
| PositionRows.EveryRowIsExplained | x_alpaca_trading_bot/main.py:1699-2138 | over every run, restarts and flattens included, each row was booked by one step that closed the open position with its entry and size. Its price: a manual_close has the fill of the position's own manual sell that its record points at; an external stop-out that of the stop its record points at; a strategy exit or flatten its own sell's fill exactly when that sell filled within the wait, otherwise the quote (tick exit) or the entry price (flatten); an external_close the entry price, only when no stop fill could be read |
| PositionSales.RunSellsOnceIff | x_alpaca_trading_bot/main.py:1299-2235 | over every run, restarts and flattens included: no two exit orders of one position ever both work (filled or still able to) if and only if every step meets its guard: an accepted sell or new stop finds no other exit order of the position at work after its cancel |
| PositionSales.StepSellsOnceIff | x_alpaca_trading_bot/main.py:1562-2235 | the same for one step of any kind; a restart sends no order and has no guard |
| PositionSales.CanBeSoldTwiceIff | x_alpaca_trading_bot/main.py:1699-1744 | two exit orders of one position both work exactly when the broker alone can still fill two of them |
| PositionSales.CloseSellsTwiceIff | x_alpaca_trading_bot/main.py:1699-1744 | _close_position, at a tick or the flatten: two exit orders work afterwards iff the sell is accepted, booked or not, and the stop (after the cancel) or a manual sell still works |
| PositionSales.RequestSellsTwiceIff | x_alpaca_trading_bot/main.py:1841-1887 | a handled "Sell now": iff the sell is accepted, remembered or not, and the stop still works after the cancel |
| PositionSales.ModifySellsTwiceIff | x_alpaca_trading_bot/executor.py:337-390 | modify_stop: iff a new stop is accepted and the old one was neither dead nor replaced nor effectively cancelled |
| PositionSales.AdvanceSellsTwiceIff | x_alpaca_trading_bot/main.py:1602-1688 | a tick: iff its push leaves two stops and no exit of the same tick takes the new one back without selling, or its exit sells beside a working stop |
| PositionExits.RunIsSafeIff | x_alpaca_trading_bot/main.py:1299-2235 | from any state that keeps the invariants, over every run, restarts and flattens included: at every point each position has at most one working exit order, pointed at by its open record, its own and for the quantity bought, if and only if every step meets its guard |
| PositionExits.StepIsSafeIff | x_alpaca_trading_bot/main.py:1562-2235 | the same for one step of any kind: only a handled "Sell now", a tick that pushes or exits, a flatten and a restart have a guard |
| PositionExits.CloseIsSafeIff | x_alpaca_trading_bot/main.py:1699-1744 | _close_position keeps that single exit iff the sell is rejected, or booked with the stop absent, dead or live with an effective cancel and no manual sell pending or filled |
| PositionExits.RequestIsSafeIff | x_alpaca_trading_bot/main.py:1841-1887 | a handled "Sell now" keeps the single exit iff an accepted order is remembered and the stop is absent, dead, or live with an effective cancel |
| PositionExits.ModifyIsSafeIff | x_alpaca_trading_bot/executor.py:337-390 | modify_stop keeps the single exit iff no new stop is accepted, or the old one is dead, or live and replaced or effectively cancelled |
| PositionExits.AdvanceIsSafeIff | x_alpaca_trading_bot/main.py:1602-1688 | a tick on a position keeps the single exit iff the push it makes and the exit it makes do; a tick that sends nothing always does |
| PositionExits.RestartIsSafeIff | x_alpaca_trading_bot/main.py:561-717 | a restart keeps the single exits iff for every contract's last adoption the only exit order of the matched signal still working is its own stop that the record will point at, and the size is what was bought |
| PositionExits.NeverOversold | x_alpaca_trading_bot/main.py:1562-1889 | in every run from the empty system whose steps meet those guards, two exit orders that the bot sent for one position never both work, and each is for the quantity bought |
| PositionScenarios.SellNowSellsTwice | x_alpaca_trading_bot/main.py:1841-1887 | a run with effective cancels in which the stop and the manual sell both fill |
| PositionScenarios.FlattenSellsTwice | x_alpaca_trading_bot/main.py:2219-2235 | a run in which the manual sell and the flatten's sell both fill |
| PositionScenarios.ModifySellsTwice | x_alpaca_trading_bot/executor.py:337-390 | a run in which a stop and the stop that modify_stop replaced it with both fill |
| PositionScenarios.FlattenMayBookTheEntry | x_alpaca_trading_bot/main.py:2219-2235 | a run that leaves a time_stop_1555 row at the entry price while the flatten's sell is still live |
| PositionProgress.KilledManualSellIsNeverResolved | x_alpaca_trading_bot/main.py:1889-2105 | once the broker kills the manual sell, over any steps but its flatten or a restart the position stays open and flagged, gets no row, and no later order is its own |
| PositionProgress.EntryIsProtected | x_alpaca_trading_bot/main.py:1388-1525 | one step: an entry that runs to its end is tracked as the strategy opens it, for the largest affordable quantity, with a live stop for it within half a cent of the strategy's |
| PositionProgress.SellNowCompletes | x_alpaca_trading_bot/main.py:1777-2138 | after a sent "Sell now", in any interleaving with an answering journal and neither its flatten nor a restart: the position waits for that order or is booked as manual_close at its fill, and once it has filled the next readable poll books it |
| PositionSafety.BookStaysWithinCap | x_alpaca_trading_bot/main.py:1388-1418 | while a process lives the options book never exceeds max_concurrent_positions |
| PositionStops.SurvivingTickBoundsTheLag | x_alpaca_trading_bot/main.py:1602-1688 | a tick with a quote, a readable stop and a successful modify that decides no exit leaves the book less than 1% of entry behind the strategy's stop |
| PositionStops.StopsNeverFall | x_alpaca_trading_bot/main.py:1562-1697 | within a process neither the strategy's stop nor the stop price of the pointed-to order ever falls, and a missing stop order is never re-placed |
| PositionRestart.RunIsAbreastIff | x_alpaca_trading_bot/main.py:616-717 | over every run: no open position ever has a stop on the book more than half a cent above the strategy's, and all are settled, if and only if every startup finds positive entries and no listed stop that it cannot read above the configured one |
| PositionRestart.StepIsAbreastIff | x_alpaca_trading_bot/main.py:616-717 | the same for one step; only a restart has a guard |
| PositionRestart.AdoptedPositionIsSandwiched | x_alpaca_trading_bot/main.py:616-717 | in a run whose startups read well, a position adopted again at its entry: for all later prices its stop lies between where it starts and the higher of that and the uninterrupted stop; with the old peak regained and the trail active they differ only by what the stops at the crash exceed the trail. It starts from its own stop on the book if that is read, at most half a cent above the old stop, else within half a cent of the configured stop |
| PositionStops.AdoptedIff | x_alpaca_trading_bot/main.py:633-660 | a restart brings back exactly the signals that are the latest taken one without a row for a contract the broker holds |
| PositionStops.UnmarkedEntryIsOrphaned | x_alpaca_trading_bot/main.py:1527-1542 | an entry whose snapshot or taken write raised is open in no process after the next restart, over every run, however late the restart and whatever the broker holds |
| PositionRestart.RestartEffect | x_alpaca_trading_bot/main.py:561-717 | a restart keeps signals, rows and orders, and every position it opens was adopted for the latest taken rowless signal of its contract: the broker's size and entry, the signal's receipt as opening time, the contract's expiration, the stop from the book if read, else the configured one to the cent, no peak and no ratchet |
| PositionRestart.AdoptedClock | x_alpaca_trading_bot/main.py:616-717 | for every quote above its stop and every moment, an adopted position owes time_stop_1555 iff it is 15:55 or later with at most 3 days to the contract's expiration, dte_close iff at most 1 day, stale_no_movement iff 4 hours have passed since the signal's receipt with a move under 2% |
| PositionBook.LatestTaken | x_alpaca_trading_bot/main.py:636-656 | the matching query: its answer qualifies and no later signal does |
| PositionBook.QtyIsLargestAffordable | x_alpaca_trading_bot/main.py:156-168 | a contract count is at most _compute_qty if and only if it meets the spend cap and the quantity cap |
| PositionEffects.PostEffect | x_alpaca_trading_bot/main.py:1388-1543 | a post is logged; it buys iff it is accepted, a slot is free and the ask affords a contract of 100, then for the most contracts within both caps; for each entry fate the orders, the stop (configured fraction below the fill, to the cent), the record and the taken flag |
| PositionEffects.DrainEffect | x_alpaca_trading_bot/main.py:1816-1887 | a handled "Sell now" takes the oldest request; it cancels and forgets the stop, sells the position's contracts, and only a sell sent to the end is remembered and leaves the flag |
| PositionEffects.PollEffect | x_alpaca_trading_bot/main.py:1889-1917 | a poll books a flagged position at its manual sell's fill iff that can be read as filled, and otherwise changes nothing |
| PositionEffects.ReconcileEffect | x_alpaca_trading_bot/main.py:2077-2138 | a position the broker lost is booked at its filled manual sell while one is pending, else at its filled stop, else at the entry price |
| PositionEffects.FlattenEffect | x_alpaca_trading_bot/main.py:2219-2233 | the flatten sells every open position it lists as time_stop_1555, at the fill or the entry price |
| PositionEffects.VerdictInRawTerms | x_alpaca_trading_bot/strategy.py:159-267 | for every quote: the peak, the stop (95% of the peak from +5% but not below the entry, 97% from +40%, never lower) and each exit reason iff its condition in prices, days and seconds holds |
| PositionEffects.FinishEffect | x_alpaca_trading_bot/main.py:1602-1688 | from the quote on: the position takes on peak and stop; the broker's stop is replaced iff readable, higher by at least 1% of entry and below the market; then every exit that is owed is acted upon unless the write after an accepted new stop raised |
| PositionEffects.ExitsAreSold | x_alpaca_trading_bot/main.py:1684-1688 | for every exit reason owed: an accepted sell is the newest order, a booked one leaves the position gone and its row the newest, at the fill or the quote; without an exit nothing is sold |
| PositionEffects.RoundEffect | x_alpaca_trading_bot/main.py:1562-1688 | a whole round: a position that is gone or being closed is skipped, a filled stop is booked, otherwise the quote acts |
| PositionDesk.Desk.HandlePost | x_alpaca_trading_bot/main.py:1299-1560 | the in-place post handler makes the machine's step for every entry fate, keeps the run invariants and never lifts the book above max_concurrent_positions |
| PositionDesk.Desk.EnterPosition | x_alpaca_trading_bot/main.py:1451-1543 | from the accepted buy on: orders, record and taken flag for each call that may raise |
| PositionDesk.Desk.RecordExternalClose | x_alpaca_trading_bot/main.py:1937-2000 | existence check, close_trade and pop, with either call raising |
| PositionDesk.Desk.ClosePosition | x_alpaca_trading_bot/main.py:1699-1744 | cancel, sell, book and pop, up to the call that raises |
| PositionDesk.Desk.FlagManualClose | x_alpaca_trading_bot/main.py:1777-1803 | the locked half of a request: sets the flag exactly when the position is open and unflagged, and then exactly one request of it is on its way |
| PositionDesk.Desk.HandleManualClose | x_alpaca_trading_bot/main.py:1841-1887 | cancel, forget the stop, sell, and the caller's rollback when a call raises |
| PositionDesk.Desk.DrainManualCloseQueue | x_alpaca_trading_bot/main.py:1816-1839 | empties the queue, one machine step per request |
| PositionDesk.Desk.PollManualClose | x_alpaca_trading_bot/main.py:1889-1917 | books a filled manual sell |
| PositionDesk.Desk.ReconcileGhost | x_alpaca_trading_bot/main.py:2077-2138 | a position the broker lost: manual sell, filled stop, or entry price |
| PositionDesk.Desk.FlattenPosition | x_alpaca_trading_bot/main.py:2219-2233 | one position of the 15:55 flatten |
| PositionDesk.Desk.SweepPositions | x_alpaca_trading_bot/main.py:1889-2138 | a pass over any listed positions is the run of their steps |
| PositionDesk.Desk.AdvancePosition | x_alpaca_trading_bot/main.py:1562-1688 | one uninterrupted round on a position extends the run of the machine by its three steps, keeps the run invariants and ends idle |
| PositionDesk.Desk.CheckStop | x_alpaca_trading_bot/main.py:1576-1587 | the stop-fill read |
| PositionDesk.Desk.Manage | x_alpaca_trading_bot/main.py:1589-1688 | makes in place the change that PositionEffects.FinishEffect tells: evaluate, push the stop, act on every exit |
| PositionDesk.Desk.ModifyStop | x_alpaca_trading_bot/executor.py:337-390 | atomic replace of a live stop, else cancel and submit, and whether the journal write after it cuts the tick short |
| PositionDesk.Desk.FindTakenSignal | x_alpaca_trading_bot/main.py:633-656 | a newest-first search is the matching query |
| PositionDesk.Desk.AdoptPosition | x_alpaca_trading_bot/main.py:616-717 | rebuilds in place the record that PositionRestart.RestartEffect and AdoptedClock describe |
| PositionDesk.Desk.ReconcileOnStartup | x_alpaca_trading_bot/main.py:561-614 | a new process is the restart step of the machine |
| Ticks.ArrivalOfATick | x_alpaca_trading_bot/main.py:1276-1560 | every post of a tick acts as the posts before it left switches and book: a validated one has the switches evaluated and enters iff its evaluation completes, no daily loss, losing streak or stream outage is on, and the book can take it |
| Ticks.IntakeOfATick | x_alpaca_trading_bot/main.py:454-474 | then every request is drained, every poll acts, and every scanner signal is handled under the switches the posts left active |
| Ticks.ClosingTick | x_alpaca_trading_bot/main.py:476-489 | at or after 15:55 ET: every position with a booked sell is gone with a time_stop_1555 row at its fill or entry, the others stay; every listed short whose submission is accepted has a cover or is gone; if nothing raises, that ends the tick; with booked sells for all, no position is left |
| Ticks.RoundOfATick | x_alpaca_trading_bot/main.py:491-501 | before 15:55, or when the flattens raised: every listed round acts on the book as the rounds before left it, and its rows and closes stay |
| Ticks.VisitOfATick | x_alpaca_trading_bot/main.py:503-508 | then every listed short is visited as the visits before left the scanner's book |
| Ticks.PulseOfATick | x_alpaca_trading_bot/main.py:532-535 | the pulse's verdict is what the tick leaves active, in terms of the day's loss, the losing streak and the heartbeat |
| Ticks.GhostOfATick | x_alpaca_trading_bot/main.py:541-545 | every listed ghost is reconciled as the rounds and ghosts before left the book |
| TickLoop.Bot.Tick | x_alpaca_trading_bot/main.py:425-556 | the tick over the objects makes exactly the steps of Ticks.TickSteps, so that the rows above hold of it; at 15:55 it closes as ClosingTick says; rows carry distinct signals, no signal has two requests on their way, the shorts stay within their cap with at most one cover each, both queues are empty, and if daily_loss was on it stays on and neither book entered anything |
| Strategy.OpenedClosedForm | x_alpaca_trading_bot/strategy.py:124-224 | folding evaluate from open_position: peak, level and stop are a closed form of the running maximum alone |
| Strategy.TrackClosedForm | x_alpaca_trading_bot/strategy.py:183-224 | the same from any settled position |
| Strategy.AdvanceLifts | x_alpaca_trading_bot/strategy.py:183-224 | one tick with the division by entry removed |
| Strategy.TrailMonotone | x_alpaca_trading_bot/strategy.py:190-210 | a higher peak never asks for a lower stop, across the regime borders |
| Strategy.OpenedIsFresh | x_alpaca_trading_bot/strategy.py:124-156 | an accepted opening has its stop strictly between zero and the entry |
| Strategy.StopNeverFalls | x_alpaca_trading_bot/strategy.py:202-210 | over any price history stop and level never fall |
| Strategy.NewHighIsNeverStoppedOut | x_alpaca_trading_bot/strategy.py:226-232 | the stop stays below the peak and a new high never exits as stop_loss |
| Strategy.RestartSandwich | x_alpaca_trading_bot/main.py:662-694 | resetting peak and level keeps the stop between the book's and the uninterrupted one |
| Strategy.ResumedSandwich | x_alpaca_trading_bot/main.py:662-694 | the same comparison from any settled position and any stop to start from |
| Replay.BacktestOne | scripts/backtest_signals.py:80-133 | exits at exactly the first tick whose raw prefix fires, with the prioritized reason; end_of_data iff none fires; raises iff a non-positive price comes first |
| Replay.ReplayTicks | scripts/backtest_signals.py:104-109 | the loop that carries the position |
| Replay.EvaluateIsStateless | x_alpaca_trading_bot/strategy.py:226-267 | the verdict on the carried position is the stateless firing condition on the raw ticks |
| Replay.ExitIsPrefixStable | scripts/backtest_signals.py:104-109 | more recorded ticks never change an exit already found |
| RiskManager.Evaluate | x_alpaca_trading_bot/risk_manager.py:99-159 | a switch is on iff it was on or its condition holds; accepted iff none is on |
| RiskManager.SwitchesInRawTerms | x_alpaca_trading_bot/risk_manager.py:99-159 | each switch: daily_loss iff it was on or the loss is at least the limit's share of the starting equity; consecutive_losses iff it was on or the streak is at the limit and no close is at least 1800 seconds old; a connection iff it was on or the market is open without a heartbeat in the last 60 seconds; accepted iff all are off |
| RiskManager.ReasonInRawTerms | x_alpaca_trading_bot/risk_manager.py:296-304 | the journaled reason: daily_loss first, then consecutive_losses, x_stream, alpaca |
| RiskManager.FirstReason | x_alpaca_trading_bot/risk_manager.py:296-304 | the tripped switch that comes first in the order daily_loss, consecutive_losses, x_stream, alpaca; none iff nothing tripped |
| RiskManager.ConsecutiveLossCount | x_alpaca_trading_bot/risk_manager.py:261-291 | the length of the losing streak at the head of the rows |
| KillSwitches.EvaluationInRawTerms | x_alpaca_trading_bot/main.py:2239-2341 | what every event leaves active, notified and heard, from what it observed and which call raised |
| KillSwitches.GatesInRawTerms | x_alpaca_trading_bot/main.py:939-951 | a post gets through iff its evaluation completes without daily loss, losing streak or stream outage; a scanner signal unless one of three switches is on |
| KillSwitches.ActiveIsHistory | x_alpaca_trading_bot/main.py:84-88 | after a stored evaluation: the self-healing switches whose condition holds now, plus daily_loss iff it held at some stored evaluation of the process |
| KillSwitches.DailyLossIsHistory | x_alpaca_trading_bot/main.py:2303-2330 | daily_loss is on iff its condition held at some stored evaluation |
| KillSwitches.HealingIsLastEvaluation | x_alpaca_trading_bot/main.py:2303-2330 | a self-healing switch is on iff the last evaluation that stripped it also stored its verdict and found it true |
| KillSwitches.NoEntryAfterDailyLoss | x_alpaca_trading_bot/main.py:940-951 | once daily_loss is on, no later post or scanner signal of the process passes its gate |
| Orchestration.NoEntryInEitherBook | x_alpaca_trading_bot/main.py:939-1386 | once daily_loss is on, over every run of the process with posts let through by the panel's risk check and signals by its active switches, no buy is appended to the options book's orders and no short sale to the scanner's |
| KillSwitches.AlpacaDisconnectedNeverTrips | x_alpaca_trading_bot/main.py:2291-2299 | after every history the switch is not active, not notified, and announced by no further pulse |
| KillSwitches.NotifiedIsLastPulse | x_alpaca_trading_bot/main.py:2248-2261 | notified_switches is the verdict of the last stored pulse |
| KillSwitches.AnnouncesRisingEdges | x_alpaca_trading_bot/main.py:2255-2283 | a pulse announces a switch iff its event write succeeds and the switch went from off to on since the previous pulse |
| KillSwitches.DailyLossAnnouncedOnce | x_alpaca_trading_bot/main.py:2255-2283 | daily_loss is announced at most once per process |
| KillSwitches.SwitchBoard.BuildSessionState | x_alpaca_trading_bot/main.py:2285-2341 | what is stripped and refreshed before each query that may raise |
| KillSwitches.SwitchBoard.RiskPulse | x_alpaca_trading_bot/main.py:2239-2283 | makes the machine's pulse step and returns what it announced |
| KillSwitches.SwitchBoard.CheckPost | x_alpaca_trading_bot/main.py:1367-1386 | the post's risk check lets it submit exactly when the machine does |
| ScannerSafety.EveryRunIsSafe | x_alpaca_trading_bot/main.py:821-1247 | over every run, any call raising and restarts anywhere: distinct waiting signals without row or order, distinct rows, each tracked short holds its own open row, the book within its limit |
| ScannerSafety.UniqueGuardNeverFires | x_alpaca_trading_bot/journal.py:449-485 | a signal about to be handled has no row and never sent an order |
| ScannerSafety.HandedAtMostOnce | x_alpaca_trading_bot/scanners/lab.py:413-433 | one (scanner, ticker, day) is handed to the tick loop at most once, restarts included |
| ScannerSafety.OpenRowsMatchTheBook | x_alpaca_trading_bot/main.py:1014-1045 | within a process the open rows are the leftovers plus exactly one per tracked short |
| ScannerSafety.CleanStartupLeavesNothingOpen | x_alpaca_trading_bot/main.py:1176-1247 | a startup sweep in which nothing raises leaves no open row |
| ScannerOrders.OneCoverPerShort | x_alpaca_trading_bot/main.py:1055-1174 | one accepted cover per short in a process, with fill waits, bookings and submissions raising and the flatten included |
| ScannerBuys.RunBuysOnceIff | x_alpaca_trading_bot/main.py:1055-1247 | over every run, flattens, restarts and startup sweeps included: no two orders that buy back one short (its stop and a cover, or two covers) ever both work if and only if every accepted cover finds no other such order at work after its cancel |
| ScannerBuys.StepBuysOnceIff | x_alpaca_trading_bot/main.py:1055-1247 | the same for one step of any kind |
| ScannerBuys.CloseBuysTwiceIff | x_alpaca_trading_bot/main.py:1103-1130 | closing a short makes its stop and its cover both work iff the cover is accepted and the stop has filled or outlives the cancel |
| ScannerBuys.NeverOverBought | x_alpaca_trading_bot/main.py:1065-1174 | in every run of one process whose steps meet those guards, after any past and restart, stop fills and covers never buy more shares than were sold |
| ScannerBuys.FlattenCoversAFilledStop | x_alpaca_trading_bot/main.py:1168-1174 | a run from the empty system in which the flatten covers a short whose stop has filled, buying more than was sold |
| ScannerBuys.LostCancelOverBuys | x_alpaca_trading_bot/main.py:1103-1130 | a run in which a stop that outlives its swallowed cancel fills after the cover |
| ScannerStops.RunIsOrderlyIff | x_alpaca_trading_bot/main.py:1055-1174 | over any steps of one process, flattens included: at every point each stop that is not dead stands beside no cover and its record keeps sight of it, if and only if each close, accepted or not, finds its stop absent, dead, or live with an effective cancel |
| ScannerStops.StepIsOrderlyIff | x_alpaca_trading_bot/main.py:1055-1174 | the same for one step; only a tick that exits and a flatten that covers have a guard |
| ScannerStops.CloseIsOrderlyIff | x_alpaca_trading_bot/main.py:1103-1130 | closing a short keeps every stop that is not dead in sight of its record and apart from the cover, iff the stop is absent, dead, or live with an effective cancel |
| ScannerOrders.OneEntryPerEvent | x_alpaca_trading_bot/main.py:955-1053 | over every run, restarts included, one event never sends two short sales |
| ScannerProgress.EntryIsTracked | x_alpaca_trading_bot/main.py:955-1053 | one step: an accepted signal that runs to its end becomes one open row and one tracked short of the largest affordable size, its stop resting when the broker took it |
| ScannerProgress.CoverCompletes | x_alpaca_trading_bot/main.py:1065-1166 | after an accepted cover, over any further steps of the process: the short waits for that cover or its own row tells the cover's fill, remembered reason and gross, and once it has filled the next readable visit closes the row |
| ScannerProgress.KilledCoverIsNeverResolved | x_alpaca_trading_bot/main.py:1065-1174 | a cover the broker killed is never sent again in the process, flatten included: the short stays tracked and its row open |
| ScannerProgress.SweepCoversWhatFits | x_alpaca_trading_bot/main.py:1176-1247 | a startup sweep in which nothing raises covers, per ticker, exactly the open rows that fit the broker's short one by one; a ticker with at most one open row is never covered for more than is held |
| ScannerProgress.SweepCoversTooMuch | x_alpaca_trading_bot/main.py:1194-1211 | a run from the empty system after which the sweep covers twice the short the broker holds |
| ScannerEffects.HandOffEffect | x_alpaca_trading_bot/main.py:821-890 | a new event is staged behind the others, the oldest staged one is queued, a raise in between loses what is staged |
| ScannerEffects.HandleEffect | x_alpaca_trading_bot/main.py:912-1053 | a queued signal is popped and shorted iff armed, a failed breakout of enough volume, failed before 10:30 and at most 600 seconds ago, its ticker free, a slot free, no blocking switch on and a price that affords a share; then for the most shares, with order, stop, row and record for each fate |
| ScannerEffects.AdvanceEffect | x_alpaca_trading_bot/main.py:1065-1166 | every visit to a tracked short: a pending cover is only booked, a filled stop is booked as stop_hit; otherwise a cover is sent iff it is 15:55 or later, 3600 seconds have passed since the opening, or no stop rests and the quote is at or above the stop price, with that exit, in that order, as its reason |
| ScannerEffects.FlattenEffect | x_alpaca_trading_bot/main.py:1168-1174 | the flatten covers every short without a cover as eod_failsafe |
| ScannerEffects.RestartEffect | x_alpaca_trading_bot/main.py:1176-1247 | a startup forgets queue and book, keeps closed rows, and covers or closes as an orphan every open row it gets to |
| EquityDesk.Desk.RecordScannerEvent | x_alpaca_trading_bot/journal.py:404-444 | true exactly on an actual insert |
| EquityDesk.Desk.InsertScannerTrade | x_alpaca_trading_bot/journal.py:449-485 | a new row, or nothing when the unique guard blocks it |
| EquityDesk.Desk.HandleScannerSignal | x_alpaca_trading_bot/main.py:912-953 | pops one signal and makes the machine's step; while a blocking switch is active no order is sent |
| EquityDesk.Desk.OpenEquityShort | x_alpaca_trading_bot/main.py:955-1053 | sizing, sale, stop, row and record for every fate |
| EquityDesk.Desk.DrainScannerSignalQueue | x_alpaca_trading_bot/main.py:892-910 | always empties the queue |
| EquityDesk.Desk.AdvanceEquityPosition | x_alpaca_trading_bot/main.py:1065-1101 | makes in place the visit that ScannerEffects.AdvanceEffect tells |
| EquityDesk.Desk.AdvanceEquityPositions | x_alpaca_trading_bot/main.py:1055-1063 | a pass is the run of its steps |
| EquityDesk.Desk.CloseEquityPosition | x_alpaca_trading_bot/main.py:1103-1130 | cancel, cover, remember, book |
| EquityDesk.Desk.BookEquityClose | x_alpaca_trading_bot/main.py:1132-1166 | the row's update before the pop |
| EquityDesk.Desk.ReconcileOnStartup | x_alpaca_trading_bot/main.py:1176-1247 | the startup sweep up to the call that raises |
| EquityStrategy.EntryInRawTerms | x_alpaca_trading_bot/equity_strategy.py:65-102 | each of the nine verdicts iff the event passes the checks before and fails that one |
| EquityStrategy.SharesForNotional | x_alpaca_trading_bot/equity_strategy.py:105-110 | the largest share count within the notional |
| EquityStrategy.StopInCents | x_alpaca_trading_bot/equity_strategy.py:113-117 | for n cents the stop is n + (n+50)/100 cents; above the entry iff n >= 50 |
| EquityStrategy.StopBoundsTheLoss | x_alpaca_trading_bot/equity_strategy.py:113-158 | for every positive entry price a short stopped at its stop books a loss within qty * (0.01 * entry +- 0.005), to half a cent |
| EquityStrategy.StopBoundsTheLossInCents | x_alpaca_trading_bot/equity_strategy.py:113-158 | for an entry in whole cents the booked loss lies between zero and qty * (0.01 * entry + 0.005) |
| EquityStrategy.SharperBoundFailsOffTheGrid | x_alpaca_trading_bot/equity_strategy.py:113-158 | at 1.00496 that sharper bound fails: one share books 0.02 |
| Bars.SortSorts | x_alpaca_trading_bot/scanners/failed_breakout.py:141 | the sort orders by time and keeps every bar |
| Bars.SortIsStable | x_alpaca_trading_bot/scanners/failed_breakout.py:141 | bars with one time stamp keep their order |
| Detectors.FindFailedBreakout | x_alpaca_trading_bot/scanners/failed_breakout.py:111-185 | equals "first reached breakout, then first failure in time" on the sorted bars |
| Detectors.DetectVwapReject | x_alpaca_trading_bot/scanners/lab.py:116-165 | equals "first push above VWAP, then first close below it" |
| Detectors.RunningVwap | x_alpaca_trading_bot/scanners/lab.py:102-113 | the volume-weighted mean of the bars so far, none while volume is zero |
| Detectors.DetectGapFade | x_alpaca_trading_bot/scanners/lab.py:175-215 | equals "gap up, then first close below the opening range's low before 11:30" |
| Detectors.DetectPriorLowBreak | x_alpaca_trading_bot/scanners/lab.py:220-263 | equals "first breach confirmed by the very next bar" |
| Detectors.FailedBreakoutOf | x_alpaca_trading_bot/scanners/failed_breakout.py:176-185 | every event has its trigger not after its confirmation and confirms below its level |
| Detectors.FailedBreakoutInOneSession | x_alpaca_trading_bot/scanners/failed_breakout.py:143-167 | on one session's bars the early breaks lose nothing |
| Detectors.VwapRejectInOneSession | x_alpaca_trading_bot/scanners/lab.py:133-165 | the same for vwap_reject |
| Detectors.GapFadeInOneSession | x_alpaca_trading_bot/scanners/lab.py:200-215 | the same for gap_fade |
| Detectors.PriorLowBreakInOneSession | x_alpaca_trading_bot/scanners/lab.py:241-263 | the same for prior_low_break |
| DetectorEffects.FailedBreakoutInRawTerms | x_alpaca_trading_bot/scanners/failed_breakout.py:111-185 | on one session's bars an event is reported iff there is a first close above the level in the window and then, in time, a first one below it; its fields are those of the two bars |
| DetectorEffects.VwapRejectInRawTerms | x_alpaca_trading_bot/scanners/lab.py:116-165 | iff a first close between 9:35 and 10:30 is 0.3% above the running mean and a later one, within the hour, is the first below it |
| DetectorEffects.GapFadeInRawTerms | x_alpaca_trading_bot/scanners/lab.py:175-215 | iff the day opens 2% above the prior close and a bar before 11:30 is the first to close below the low of the first three |
| DetectorEffects.PriorLowBreakInRawTerms | x_alpaca_trading_bot/scanners/lab.py:220-263 | iff the first close below the prior low between 9:35 and 10:30 is confirmed by the next bar |
| Detectors.FailedBreakoutIsPrefixStable | x_alpaca_trading_bot/scanners/failed_breakout.py:111-185 | later bars never change an event already detected |
| Detectors.VwapRejectIsPrefixStable | x_alpaca_trading_bot/scanners/lab.py:116-165 | the same for vwap_reject |
| Detectors.GapFadeIsPrefixStable | x_alpaca_trading_bot/scanners/lab.py:175-215 | the same for gap_fade |
| Detectors.PriorLowBreakIsPrefixStable | x_alpaca_trading_bot/scanners/lab.py:220-263 | the same for prior_low_break |
| Batch.BatchIsLive | research/backtest_failed_breakout.py:82-159 | the multi-day batch run reports exactly the live detector's events over the sorted days |
| Batch.DaysAgreeIff | research/backtest_failed_breakout.py:120-158 | batch and live agree on every recording of a day iff the prior high is positive and the baseline not negative |
| Batch.FindFailedBreakouts | research/backtest_failed_breakout.py:82-159 | the loops compute the batch events over ascending days with the prior highs and the baseline used |
| Batch.GroupByDay | research/backtest_momentum.py:116-123 | one sorted bucket per ET day seen |
| Batch.PriorDayHighs | research/backtest_momentum.py:90-99 | each day maps to the high of the bar before its last bar in time order |
| Batch.ScanDay | research/backtest_failed_breakout.py:120-158 | the inner loops equal the declarative day specification |
| Batch.MeanVolume | research/backtest_failed_breakout.py:109-111 | the mean of the positive volumes, none when there is none, never negative |
| PriceTracks.CapturedIff | x_alpaca_trading_bot/main.py:2142-2201 | a pair is captured iff some pass wrote it inside [target, target + 10 min), with the time of the first such pass |
| PriceTracks.CapturedOnce | x_alpaca_trading_bot/main.py:2190-2201 | a capture is never changed |
| PriceTracks.SteadyPassesCapture | x_alpaca_trading_bot/main.py:2142-2201 | successful passes at most 10 minutes apart from before the target until it capture the pair in time |
| PriceTracks.PrefilterDropsNothing | x_alpaca_trading_bot/main.py:2155-2174 | the query selects exactly the untracked pairs in their window; the coarse prefilter drops none |
| PriceTracks.Study.CaptureDuePriceTracks | x_alpaca_trading_bot/main.py:2142-2201 | the insert loop up to the call that raises is the machine's pass |
| OccSymbols.SymbolLayout | x_alpaca_trading_bot/data_service.py:118-131 | the upper-case ticker, two places each for year, month and day, C or P, and the strike in thousandths to the nearest one |
| OccSymbols.RoundTripIff | x_alpaca_trading_bot/data_service.py:118-154 | parse undoes build iff the ticker is upper case, the year is 1969-2068 and the strike is a whole number of thousandths that fits eight places |
| OccSymbols.ReprintIff | x_alpaca_trading_bot/data_service.py:118-154 | build undoes parse iff the symbol has its fifteen fixed places, ticker upper case, six digits of date, letter C or P, strike field not "+" signed and not minus zero |
| OccSymbols.SameSymbolIff | x_alpaca_trading_bot/data_service.py:118-131 | two contracts whose strikes fit eight places get one symbol iff they agree in upper-cased ticker, two-digit year, month, day, type and thousandths |
| OccSymbols.BuildIsInjective | x_alpaca_trading_bot/data_service.py:118-131 | on the round-trip domain two contracts share a symbol iff they are equal |
| OccSymbols.OneDigitDayIsRead | x_alpaca_trading_bot/data_service.py:149-151 | five characters with a one-digit day are read as that date, so that fourteen-character symbols parse |
| OccSymbols.MilliTrip | x_alpaca_trading_bot/data_service.py:130-147 | zero-padded printing against tail slicing: exact range of thousandths that survives |
| OccSymbols.UnderlyingAgreesIff | x_alpaca_trading_bot/data_service.py:620-627 | the stripped underlying is the parsed ticker iff the ticker is not empty |

## Left out

- Position and order records are values in map and sequence fields of the classes, not shared mutable objects; aliasing of one record by two references is not modelled.
- Locks, the wake event and thread scheduling: the API thread and the broker act between the steps of the machine, not inside them.
- A crash inside a startup sweep or an adoption pass of the options book is not a step of its own; an adoption pass that stops early is an adoption list that is shorter.
- Startup rows are swept by row id instead of by opened_at.
- The broker's own closing orders from flatten_all carry no signal and are not in the order map, so results about exit orders speak of the orders that the bot sends; its cancels are broker kills.
- A submission that raises but was accepted by the broker, partial fills, and a filled order without a fill price.
- Which live stop of a contract the startup listing yields is left open: any live stop of the contract, or none.
- PositionDesk.Desk.HandlePost: parsing and the validator's gates are one Boolean of the event, because they only read; the risk check is composed with it in TickLoop and Orchestration.
- A short is advanced in one step and the broker acts between steps; the fill race inside a close is the cancel that does not take effect.
- TickLoop.Bot.Tick: has no monitor snapshots, no price-track pass (PriceTracks models it on its own) and no reconnection to the database, which touch neither book; posts that are dropped or are no signals, and the Alpaca heartbeats that posts and quotes leave, are steps outside it, and that heartbeat decides no switch (KillSwitches.AlpacaDisconnectedNeverTrips).
- Calls to Alpaca, Polygon, the X stream, Telegram, Anthropic and PostgreSQL: only their outcomes appear.
- The validator's gates, the post parser, greeks and implied volatility, indicators and bar fetching.
- The snapshot scheduler's due times and running extremes, monitor snapshots and the numbers of indicator_snapshots.
- P&L percentages, hold minutes and notification texts of the trades rows; gross P&L of options.
- The scanner's universe loop, its baseline cache and the hypothesis registry; a scan is a sequence of recorded events.
- Rounding of Decimal division at 28 digits, binary floating point in the detectors, time-zone tables and daylight saving, timezone-awareness checks.
- OccSymbols.Parse: int() literals with underscores or blanks and non-ASCII digits or letters are rejected or left alone.
- Concurrent writes to the switch state between the tick thread and the stream thread.
- The REST routers, the web socket manager, the configuration store and the dashboard.
