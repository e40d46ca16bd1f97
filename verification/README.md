# Verified models of the trading runtime

This project models the parts of the trading platform on which money and orders depend, and proves what they keep over
whole runs. Prices and money are exact reals, volumes are unbounded integers, identifiers are sequences of characters.
Code that updates state in place is modelled as classes and loops, each proved against a specification function; the
laws are lemmas about those functions, for all inputs, all runs or all interleavings.

| modules | what they model |
|---|---|
| `Numeric`, `Text`, `Digits`, `Domain` | arithmetic, sums and sequences, strings and numerals, and the value types the runtime exchanges |
| `Ledger` | the four-bucket position with average cost: fills, offset rules (SHFE and INE close yesterday's lots by default), day roll |
| `TradeFlow`, `SyntheticFlow` | the per-price volume inferred between two ticks: native, mode 0, and the greedy price lattice |
| `Matcher` | when and at what price orders fill; queue position of resting orders |
| `Backtest`, `BacktestAccount` | the simulated exchange: submit, service, cancel, activate and roll, on attachments and on accounts |
| `BacktestFills`, `BacktestDays` | what becomes of orders and at what price they fill; what the day roll does, and in which buckets lots are as days go by |
| `BacktestBooks`, `BacktestRuns` | what an account keeps over every run of its operations: money, positions and orders |
| `Replay` | the tick loop, with strategies as arbitrary reactions that submit and cancel |
| `ReplayRuns`, `ReplayLaws`, `ReplayBooks`, `ReplayEvents` | what a replay does, told from outside: quotes, days, callbacks and events over the tick sequence, and the run that each account goes through |
| `TickMerge`, `TickStream` | the streaming merge of tick files by trading day |
| `LiveFills`, `FillKeys`, `LiveMoney` | cumulative broker fills made into increments, applied to account and strategy; the keys they are counted under; the money of live accounts |
| `OrderRef`, `Gateway`, `GatewayRuns`, `GatewayReports` | order references, strategy codes, the gateway's per-order records, its callbacks, and what they tell of an order over its history |
| `OrderSlot`, `FillChain` | the slot in which a strategy tracks its order, and one order from broker trades to account and slot |
| `Inventory`, `Reconciliation` | startup: manual adjustments, detached inventory, seeding, reconciliation with the broker |
| `RiskGate` | the pre-trade checks and the exposure they guarantee while orders fill |
| `Recorder` | the tick recorder's queue between market-data callbacks and its writer |
| `IniStore` | the INI parser and the strategy-state store written for it |
| `Timestamps` | timestamps as milliseconds, and the merge script's sort key |

## How to read the results

- An *attachment* is one strategy on one account. Backtest runs are sequences of the account's own operations in any
  order; `ReplayBooks` shows that the tick loop performs only such runs, in step with the ticks, whatever the strategies do.
- Gateway, recorder, risk-gate and live-ledger runs are arbitrary interleavings of atomic steps: one callback, one
  action of the writer, or one section of a call. A submission to the broker is three: up to the broker call, after a
  failed one, and after a successful one. Its first section covers checks, allocation and record, which no callback
  about the order can come between, as the broker does not know it yet.
- Where a property holds only under a condition, the condition is a predicate over inputs and the theorem an
  if-and-only-if: `Priceable`, `Mode0Priceable`, `LatticeReaches`, `SafeEntry`; nothing left unbooked
  (`Ledger.WholeCashFlowIsBooked`, `BacktestRuns.CashFlowOverRuns`); fills that draw alike
  (`LiveFills.EventKeepsAgreementExactly`); room for all outstanding orders (`RiskGate.LimitsHoldExactly`); the years
  the calendar tells apart (`Timestamps.YearsAreOrderedExactly`). Beside it stand the inputs that fail:
  `Ledger.ZeroCostRealizesNothing` with `Backtest.ZeroLimitOpenFills`, `LiveFills.PlainClosePartsBuckets`,
  `RiskGate.TwoInFlightMayBreach`, `Timestamps.YearsBefore1970Coincide`.
- Three fields of the model only keep count and are read by no operation: `unbooked` of a backtest attachment, what closes
  of lots without a cost have left out of its profit; `emitted` of a replay, the events in the order in which they arose;
  and `heard`, every callback with the accounts the strategies could look at and what they did.

Where the code and what one might expect of it differ, the model follows the code: a backtest fill event carries the
increment and a live one the cumulative volume; a live order whose submission is announced only after its last trade is
shown as open again; the inferred histogram silently drops volume that has no positive price; cumulative trade counts are
forgotten on cancel; a lot opened at price zero, which a limit of zero allows, realizes nothing when it is closed; the
limit prices of ticks are not compared when duplicates are collapsed.

## Model

| member | source | states |
|---|---|---|
| `Domain.YesterdayExchanges` | src/platform.cpp:947-950 | a plain close takes yesterday's lots by default at SHFE and INE, in any letter case and with spaces around, and nowhere else |
| `Ledger.PositionState.ApplyFill` | src/platform.cpp:1229-1294 | the in-place fill, branch by branch, leaves the position and returns the realized profit of the specification function `FillOf` |
| `Ledger.PositionState.RollToNextTradingDay` | src/platform.cpp:1074-1092 | the in-place day roll equals `Roll` |
| `Ledger.CloseLongBucket` | src/platform.cpp:1094-1104 | closing up to a number of lots of a long bucket leaves the rest at its price, or an empty bucket at price zero, and realizes the spread only when the bucket has a cost |
| `Ledger.CloseShortBucket` | src/platform.cpp:1106-1116 | the same for a short bucket, with the profit negated |
| `Ledger.BlendKeepsCost` | src/platform.cpp:912-921 | weighted averaging keeps total cost, and of lots that all carry a positive price never yields lots without one |
| `Ledger.RollKeepsCost` | src/platform.cpp:1074-1092 | the day roll moves today's lots into yesterday's and keeps open cost, long and short lots |
| `Ledger.RollCarriesOver` | src/platform.cpp:1074-1092 | a day later nothing counts as opened today, and yesterday's buckets hold the long and the short lots of both days at what they cost together |
| `Ledger.CloseIsExact` | src/platform.cpp:1118-1151 | a close admitted by `closeable_quantity` removes exactly its volume from exactly the buckets that were counted, on SHFE/INE and elsewhere, and leaves no bucket negative |
| `Ledger.FillCashFlow` | src/platform.cpp:1229-1294 | one fill at any price: realized profit is the change in open cost less the cash paid, less what closing lots without a cost leaves unbooked, times the multiplier, less commission; the net position moves by the lots |
| `Ledger.AnyFillCashFlow` | src/platform.cpp:1229-1294 | the same for a fill the position does not cover: cash changes hands for the lots that are there to close, commission is charged for all |
| `Ledger.WholeCashFlowIsBooked` | src/platform.cpp:1094-1116 | at a positive multiplier a fill books its whole cash flow if and only if the lots it draws from buckets without a positive price leave nothing unbooked |
| `Ledger.CostedBooksEverything` | src/platform.cpp:1094-1116 | while all lots carry a cost nothing is left unbooked, and only an open at no positive price ends that |
| `Ledger.SplitFill` | src/platform.cpp:1229-1294 | filling a + b lots at one price, positive or not, is filling a and then b: same position, same profit, for opens and all close offsets |
| `Ledger.ZeroCostRealizesNothing` | src/platform.cpp:1094-1116 | the failing family: any lots opened at price zero realize nothing when closed at any price, and leave exactly their proceeds unbooked |
| `TradeFlow.FlowConservesVolume` | src/platform.cpp:393-471 | the native per-price histogram is non-negative, never exceeds the traded volume, and adds up to it exactly when the two queues lost that much, or the turnover rose, or the tick names a positive price |
| `TradeFlow.SweptQueueIsBooked` | src/platform.cpp:451-458 | an ask that moved up was traded through: its displayed queue, as far as the volume goes, is booked at its price |
| `TradeFlow.NativeFlowAt` | src/platform.cpp:393-471 | the histogram price by price: the lots that left the ask queue, then those that left the bid queue, as far as the volume goes, each at the price where its queue stood, and the rest at the average price, or the last trade's, if positive |
| `TradeFlow.AverageExplainsTurnover` | src/platform.cpp:430-449 | the average price times the volume is the rise of the turnover; without a rise it is the reference price of the last trade |
| `TradeFlow.ReferenceIsQuoted` | src/platform.cpp:415-428 | the reference price is the last trade's; without one it lies halfway between the two sides of the book, or is the one side quoted |
| `TradeFlow.KeyOfUnit` | src/platform.cpp:403-405 | price keys tell prices apart that differ by a ten-thousandth |
| `SyntheticFlow.BracketAround` | src/platform.cpp:640-654 | the two prices of mode 0 are the neighbouring ticks around the average, or the average itself when it is on a tick |
| `SyntheticFlow.SplitMeetsTurnover` | src/platform.cpp:655-658 | the split between the two prices: lower times its lots plus upper times the rest lies within half the bracket's width of average times volume |
| `SyntheticFlow.PriceableExactly` | src/platform.cpp:640-660 | every price that receives lots is positive, so that none are dropped, exactly when the average is at least a tick, or below one by so little that every lot is rounded up to it |
| `SyntheticFlow.Mode0ConservesVolume` | src/platform.cpp:640-675 | mode 0, with its transfer of a lot to the last price, adds up to the volume exactly when the average price is at least a tick, or positive and below one by so little that every lot is rounded up to it |
| `SyntheticFlow.RepresentLastKeepsTotal` | src/platform.cpp:662-674 | moving one lot to the price of the last trade keeps the total and never makes a price negative |
| `SyntheticFlow.RepresentLastMovesOneLot` | src/platform.cpp:662-674 | the transfer: nothing when the last price has lots, and otherwise one lot from the nearer of the two prices if it has one, or else from the upper; so the amount moves by the distance of the last price from one of the two |
| `SyntheticFlow.Mode0MeetsTurnover` | src/platform.cpp:640-675 | after the transfer the amount of the histogram is off the turnover by at most half a tick, half a key per lot, and the last price's distance from the two prices |
| `SyntheticFlow.RedistributeLaws` | src/platform.cpp:724-764 | the greedy redistribution ends with no steps left exactly when the steps needed are at most distance times lots; it keeps every cell non-negative and the total, and shifts the amount by just the steps used |
| `SyntheticFlow.GreedyChoice` | src/platform.cpp:731-740 | one greedy move neither creates nor destroys the possibility of success |
| `SyntheticFlow.GridSpans` | src/platform.cpp:687-717 | the lattice starts at the lowest of the bracket and both bids, rises in price steps, and ends within a step of the highest of the bracket and both asks; its center is a price nearest to the average |
| `SyntheticFlow.StepsAreTicks` | src/platform.cpp:640-699 | the bracket is one configured tick wide, and the step of the lattice is that tick within half a key, and at least one key |
| `SyntheticFlow.VwapExplainsTurnover` | src/platform.cpp:607-638 | the average price times volume times multiplier is the rise of the turnover; without one it is the last price |
| `SyntheticFlow.LatticeMeetsTurnover` | src/platform.cpp:687-772 | the lattice is used exactly when it reaches the turnover; then it keeps the volume and meets the rounded turnover within half a price step, and otherwise the result is mode 0 |
| `SyntheticFlow.LatticeExplainsTurnover` | src/platform.cpp:687-772 | a lattice that is used explains the rise of the turnover, per contract unit and in price keys, within half a price step and half a key |
| `SyntheticFlow.KeyOfUnit` | src/platform.cpp:603-605 | price keys tell prices apart that differ by a unit of the scale |
| `SyntheticFlow.SyntheticFlowConservesVolume` | src/platform.cpp:607-773 | on all paths (single lot, mode 0, lattice, fallback) the histogram is non-negative and holds all the volume exactly when it is priceable |
| `SyntheticFlow.BuildLattice` | src/platform.cpp:699-702 | the price loop builds the arithmetic lattice of the specification |
| `SyntheticFlow.FindNearest` | src/platform.cpp:708-717 | the scan finds the first price nearest to the average |
| `SyntheticFlow.RedistributeLots` | src/platform.cpp:728-758 | the two greedy loops, in place on the array, compute the specification function |
| `SyntheticFlow.CollectHistogram` | src/platform.cpp:766-770 | the last loop collects exactly the cells that hold lots |
| `SyntheticFlow.InferLatticeFlow` | src/platform.cpp:687-772 | the whole lattice path, loops included, computes the specification function |
| `Matcher.QuietFillsPayTheTouch` | src/platform.cpp:478-534 | when nothing traded, an order fills at once exactly if the price it would fill at is no better than what the touch offers: the decision and the price agree, whatever the quote before |
| `Matcher.BetterLimitsFillToo` | src/platform.cpp:478-506 | a more generous limit fills whenever a tighter one does |
| `Matcher.FillPriceIsFair` | src/platform.cpp:508-534 | the price of a native fill is exactly the fair one: the opposite touch for a market order; for a limit that beats the opposite touch now and at the tick before, the worse of those two; and otherwise the limit |
| `Matcher.FillsAtOnceExactly` | src/platform.cpp:478-506 | an order fills at once exactly if it is a market order, reaches the opposite touch, or, after a trade, beats the last trade's price, the average, or its own touch with volume inferred there |
| `Matcher.FillPriceWithinLimit` | src/platform.cpp:508-534 | a limit order never fills at a price worse than its limit |
| `Matcher.JoinsItsOwnSide` | src/platform.cpp:536-556 | an order at its own touch joins behind all that is displayed on its own side, and any other behind nobody |
| `Matcher.LooksAtTheBook` | src/platform.cpp:557-595 | looking at the book leaves an order at its own touch at most the displayed lots ahead, and one inside the spread none |
| `Matcher.RestingFill` | src/platform.cpp:872-910 | only orders of the tick's instrument fill, a fill never exceeds what remains, and only the queue position changes besides |
| `Matcher.NativeWaitsForItsTime` | src/platform.cpp:872-882 | a native order takes no part in ticks of other instruments or before its time |
| `Matcher.FirstLook` | src/platform.cpp:883-893 | the first tick a native order takes part in fills it whole, or else puts it behind what is displayed at its own touch |
| `Matcher.SyntheticRestingFill` | src/platform.cpp:825-870 | a synthetic order fills whole or not at all |
| `Matcher.CrossedExactly` | src/platform.cpp:804-823 | a synthetic order is crossed exactly if it reaches the opposite touch or beats a price at which something traded: the last, the average, or its own touch with volume inferred there |
| `Matcher.SyntheticFillIsFair` | src/platform.cpp:780-870 | the price of a synthetic fill: the worse of the two opposite touches that the limit beats, now and before, or else the limit |
| `Matcher.JoinsWithinTheQueue` | src/platform.cpp:863-868 | a synthetic order never joins behind more than is displayed at its price |
| `Matcher.InitialQueueIsAShare` | src/platform.cpp:863-868 | it joins behind the configured share of what stood at its price before the tick, less what traded, rounded up: at the back for a ratio of one, in front for zero |
| `Matcher.SyntheticQueueStep` | src/platform.cpp:848-861 | a tick that does not cross it fills it, whole and at its limit, exactly if the queue ahead and the order traded at its price; otherwise the queue shrinks by what traded, and to what is displayed |
| `Matcher.QueueNeverGrows` | src/platform.cpp:536-595 | over any ticks, crossing or not, the queue ahead stays non-negative and never grows, and filled plus remaining lots are constant |
| `Matcher.QueuePositionClosedForm` | src/platform.cpp:872-910 | on ticks that never cross, with T traded at the limit, queue q and V lots: the fill lies between min(V, max(0, T - q)) and min(V, T), and is the former when displayed depth never shrinks the queue |
| `Matcher.JoinedOrderFills` | src/platform.cpp:536-595 | so an order that joined at its own touch, and whose queue is never seen shrinking, fills what trades at its price beyond the size displayed when it joined |
| `BacktestAccount.SimAccount.SubmitOrder` | src/platform.cpp:4807-4941 | submission, from id allocation to fill, schedule, rest or rejection, changes the account and emits the events of `Submit`; it answers false exactly for an unknown strategy or a refused order |
| `BacktestAccount.SimAccount.ServicePendingOrders` | src/platform.cpp:4721-4805 | the service loop over attachments and orders equals `Service` |
| `BacktestAccount.SimAccount.ServeOrder` | src/platform.cpp:4733-4797 | one turn of that loop: keep, fill in part or whole, or reject a close that is no longer covered |
| `BacktestAccount.SimAccount.ActivateScheduledOrders` | src/platform.cpp:5002-5025 | scheduled orders that are due move to the pending ones, in order, with their activation time cleared |
| `BacktestAccount.SimAccount.SettleOrder` | src/platform.cpp:4827-4940 | carrying out what becomes of a submitted order: refused, filled, scheduled or resting, with its event |
| `BacktestAccount.SimAccount.ServicePending` | src/platform.cpp:4725-4800 | one attachment's share of a tick's service, with the orders it keeps in their order |
| `BacktestAccount.ActivateOrders` | src/platform.cpp:5007-5024 | the loop that parts due orders from those still scheduled |
| `BacktestAccount.SimAccount.FindIn` | src/platform.cpp:4957-4980 | the search finds the first order with the client id |
| `BacktestAccount.SimAccount.CancelOrder` | src/platform.cpp:4943-5000 | a cancel takes the first scheduled, or else the first pending, order with the client id, and reports success exactly when it emitted an event |
| `BacktestAccount.SimAccount.RollToNextTradingDay` | src/platform.cpp:4519-4526 | the day roll of an account rolls every position and refreshes the snapshot |
| `BacktestAccount.SimAccount.RefreshSnapshot` | src/platform.cpp:4499-4511 | the snapshot loop computes profit, cash and net positions of all attachments |
| `Backtest.ZeroLimitOpenFills` | src/platform.cpp:478-534 | an opening sell with limit zero on an instrument's first tick does fill, at price zero |
| `Backtest.ZeroLimitCloseIsUnbooked` | src/platform.cpp:4807-4941 | so submitted and then bought back at any price, it leaves the whole price of the lots unbooked |
| `BacktestFills.PlainSubmission` | src/platform.cpp:4909-4940 | an order without force fills whole at once, at the fair price, exactly when it can; otherwise it rests last in line, whole, behind the queue displayed at its price, and is shown as open |
| `BacktestFills.ForcedSubmission` | src/platform.cpp:4879-4907 | an order forced without a time fills whole at the price given, or else its limit, or else the opposite touch; it is rejected exactly when that price is not positive |
| `BacktestFills.TimedSubmission` | src/platform.cpp:4834-4877 | an order forced from a time on waits, last of the scheduled ones, until then; after that it is matched as a synthetic order |
| `BacktestFills.UncoveredSubmission` | src/platform.cpp:4827-4832 | a close without the lots it asks for is rejected whatever else it asks, and changes no position |
| `BacktestFills.SubmissionIsReported` | src/platform.cpp:4807-4941 | a submission raises a Submitted event and one that says what became of the order, both with its ids, side, offset, volume, limit and time |
| `BacktestFills.ServiceDecides` | src/platform.cpp:4721-4805 | service of one resting order: unmatched it stays; matched, a close that has lost its lots is rejected; otherwise it fills just what is matched at a fair price, on time, and goes on with the rest, shown as partly filled, exactly if there is a rest |
| `BacktestFills.ServiceIsFair` | src/platform.cpp:4721-4805 | over a whole account, every execution of a tick's service is of a pending order of its instrument and not before its time, at a fair price |
| `BacktestFills.ActivationParts` | src/platform.cpp:5002-5025 | after a tick the orders still scheduled are exactly those whose time has not come on a tick of their instrument; the others wait no longer, each with its time cleared and nothing else changed |
| `BacktestFills.CancelTakesTheFirst` | src/platform.cpp:4943-5000 | a cancel reports and takes out the first scheduled order with the client id, or else the first such pending one, and leaves the others in their order; without one it does nothing |
| `BacktestDays.AccountRollIsNextDay` | src/platform.cpp:4513-4526 | after the day roll of an account each position of each attachment has empty buckets for today and all its lots, at their cost, in yesterday's; orders, counters and profits are as they were |
| `BacktestDays.LotsAgeOverRuns` | src/platform.cpp:4513-4526 | over every run today's buckets hold at most the lots opened since the last roll, and yesterday's at most those held at it; together they hold all that is open |
| `BacktestBooks.SubmitKeepsBooks` | src/platform.cpp:4807-4941 | submission keeps an attachment's books (cash flow, volumes, order identity), whatever becomes of the order |
| `BacktestBooks.ServiceKeepsBooks` | src/platform.cpp:4721-4805 | serving all pending orders on a tick keeps the books |
| `BacktestBooks.CancelKeepsBooks` | src/platform.cpp:4943-5000 | cancelling keeps the books |
| `BacktestBooks.ActivateKeepsBooks` | src/platform.cpp:5002-5025 | activation keeps the books |
| `BacktestBooks.RollKeepsBooks` | src/platform.cpp:4513-4526 | the day roll keeps the books |
| `BacktestRuns.RunKeepsBooks` | src/platform.cpp:4721-5025 | every invariant of an account holds after every run of submissions, services, cancels, activations and rolls |
| `BacktestRuns.CashFlowOverRuns` | src/platform.cpp:1229-1294 | over every run, at any prices, realized profit equals multiplier times (sold for - bought for + open long cost - open short cost - what closes left unbooked) less commission on every lot; it is the whole cash flow exactly when nothing is unbooked, so whenever all opens filled at positive prices |
| `BacktestRuns.CashOverRuns` | src/platform.cpp:4499-4511 | after every run the account's cash is its initial cash plus the profit of its attachments, and its net positions are their sums |
| `BacktestRuns.PositionsOverRuns` | src/platform.cpp:4734-4800 | after every run no bucket is negative, long lots are those opened by buys less those closed by sells, short lots likewise, and the volume counters are the volume executed and the volume opened |
| `BacktestRuns.OrdersOverRuns` | src/platform.cpp:4465-4489 | after every run each submitted order is in exactly one of scheduled, pending or closed; open snapshots are those of the first two and carry the fill; lots are conserved; closed snapshots are the terminal events, in order; closed plus open is the number of submissions |
| `Replay.TickLoop.Step` | src/platform.cpp:5180-5301 | the tick body with its `any_pending_orders` test computes the same world as one that activates and serves on every tick, and leaves the flag covering every live order |
| `Replay.TickLoop.Open` | src/platform.cpp:5180-5214 | the part of the tick up to the service point: day change, roll, early dispatch |
| `Replay.TickLoop.Close` | src/platform.cpp:5225-5301 | the part after it: dispatch, tick callback, queued submissions |
| `Replay.TickLoop.ServeAccounts` | src/platform.cpp:5216-5223 | activating and serving all accounts in turn |
| `Replay.TickLoop.SubmitQueue` | src/platform.cpp:5254-5264 | submitting the queued orders in turn, with a rejection for an unknown account |
| `Replay.TickLoop.DispatchEvents` | src/platform.cpp:5225-5248 | telling the strategies about the events, clearing them and looking at the books again |
| `Replay.TickLoop.Perform` | src/platform.cpp:4807-5000 | what strategies do in a callback is carried out action by action: sends are queued, cancels take effect at once |
| `Replay.TickLoop.Notify` | src/platform.cpp:5192-5213 | telling the strategies: they react to what they remember, the callback and the accounts, and what they do is carried out |
| `Replay.OpenTickCovers` | src/platform.cpp:5180-5214 | at the service point the flag is true whenever an attachment holds a pending or scheduled order, even after strategies reacted to a new day |
| `Replay.CloseTickCovers` | src/platform.cpp:5225-5301 | and again when the tick is done |
| `Replay.FastTickIsSound` | src/platform.cpp:5216-5223 | skipping activation and service while the flag is false changes nothing, for arbitrary strategy submits and cancels |
| `Replay.FastReplayIsSound` | src/platform.cpp:5180-5301 | whole replays go through the same worlds tick by tick |
| `ReplayLaws.TickLaw` | src/platform.cpp:5180-5301 | one tick, whatever the strategies do: a new day is told once, with all positions a day older, before the tick; every account takes the steps of the tick in order, and strategies look at served accounts; the tick is told once; orders sent are submitted once; and the quote of the tick is remembered |
| `ReplayBooks.QuotesFollowTheTicks` | src/platform.cpp:5183-5186 | over every replay the quote remembered of each instrument is that of its last tick, and the day is the last one named |
| `ReplayBooks.EachTickIsToldOnce` | src/platform.cpp:5188-5252 | over every replay the strategies are told each tick exactly once, in order, and each new day exactly once |
| `ReplayBooks.ReactionsAreGenuine` | src/platform.cpp:5188-5301 | everything done in their name is the strategies' own reaction to what they remember, are told and see |
| `ReplayEvents.EventsAreToldOnce` | src/platform.cpp:5225-5289 | over every replay each event is told at most once, and all events, in order, have been told or still wait if and only if no strategy raised one, by a cancel, while it was being told of others |
| `ReplayBooks.ReplayIsARun` | src/platform.cpp:5180-5301 | over every replay each account goes through a run in step with the ticks: in each tick the roll, once and first, exactly if the tick starts a day; activation, service, cancels, submissions and cancels, all on this tick and the quote of its instrument's last tick before; it emits exactly the replay's events of the account, and its submissions are the orders sent to it, each once and in order |
| `ReplayBooks.ReplayKeepsBooks` | src/platform.cpp:5180-5301 | so after every replay from a fresh account, the events the account emitted in it account for each attachment's positions, orders and profit, and the cash shown is right |
| `TickMerge.BatchOrderIsStreamOrder` | src/platform.cpp:3289-3307 | when both timestamps parsed, the batch comparator is the stream's key order |
| `TickMerge.KeysAreChronological` | src/platform.cpp:3841-3863 | the key order is chronological: by time, then timestamp text, instrument and exchange |
| `TickMerge.StableSortIsStable` | src/platform.cpp:3289-3307 | the reference sort is a permutation, in key order, with equal keys in their original order |
| `TickMerge.UniqueCollapses` | src/platform.cpp:3775-3788 | after collapsing, no tick agrees with its predecessor, nor with the last tick handed out before, on everything but the day's price limits |
| `TickMerge.UniqueLosesNothing` | src/platform.cpp:3775-3788 | collapsing loses no tick: each is handed out, or agrees, but for price limits, with one that is |
| `TickMerge.MergeInterleaves` | src/platform.cpp:3790-3899 | for files in any order, merging yields every row once and keeps each file's order |
| `TickMerge.MergeIsStableSort` | src/platform.cpp:3790-3899 | for files each in key order, merging is the stable sort of the files concatenated in source order |
| `TickStream.BacktestDirectoryTickStream.Next` | src/platform.cpp:3798-3825 | `next` hands out exactly the first tick still to come, and nothing only when nothing is left |
| `TickStream.BacktestDirectoryTickStream.LoadNextGroup` | src/platform.cpp:3866-3889 | opening the next trading day with ticks loses and adds nothing |
| `TickStream.BacktestDirectoryTickStream.TakeTop` | src/platform.cpp:3806-3812 | taking the top of the heap is one step of the merge |
| `TickStream.BacktestDirectoryTickStream.Top` | src/platform.cpp:3841-3863 | the reader on top is the least under the heap's comparator |
| `TickStream.OpenGroup` | src/platform.cpp:3873-3883 | the readers of one trading day hold exactly that day's part of the plan |
| `TickStream.GroupsAreDays` | src/platform.cpp:3866-3889 | the files merged together are those of one trading day |
| `TickStream.StreamIsSortThenUnique` | src/platform.cpp:3790-3899 | what a new stream will hand out is, day by day, the stable sort of the day's files with identical neighbours collapsed, also across days |
| `TickStream.StreamIsChronological` | src/platform.cpp:3790-3899 | on chronological files whose days follow each other, the stream never goes back in time |
| `LiveFills.LiveRuntime.ConsumeFillDelta` | src/platform.cpp:2333-2348 | the increment of a cumulative fill, and the record raised to the larger of the two |
| `LiveFills.AppliesUpToLargest` | src/platform.cpp:2333-2348 | however events are interleaved, repeated or reordered, what is applied to an order in all takes its record to the largest cumulative fill |
| `LiveFills.NamelessFillsAllCount` | src/platform.cpp:2333-2348 | fills that name no order are each applied whole |
| `LiveFills.DeliveryDoesNotMatter` | src/platform.cpp:2333-2348 | two deliveries of the same reports, in any order and with any repetition, apply the same total |
| `FillKeys.KeysTellOrdersApart` | src/platform.cpp:2310-2331 | two events are counted under one key exactly if account, strategy and order are the same, the order being named by the client's id, or its own id with signal time or date, or the trade's |
| `FillKeys.AttachmentKeysTellApart` | src/platform.cpp:1901-1903 | attachments have the same key exactly if strategy and account are the same |
| `FillKeys.FillDateIsTheDate` | src/platform.cpp:2299-2308 | the date in a key is the one the timestamp starts with, written with or without dashes |
| `LiveFills.LiveRuntime.ApplyOrderEvent` | src/platform.cpp:7071-7095 | one event books its increment in the account and in the owning strategy, and moves the order between open and closed |
| `LiveFills.LiveRuntime.RollToNextTradingDay` | src/platform.cpp:4528-4544 | the live day roll rolls accounts and attachments alike |
| `LiveFills.EventKeepsAgreementExactly` | src/platform.cpp:2377-2406 | an event covered by its strategy's own lots keeps account and strategies in agreement, by bucket or in totals, if and only if its fill draws alike from both: for a plain close outside SHFE/INE on buckets, if the strategy's own lots of yesterday suffice or nobody else holds any |
| `LiveFills.EventKeepsAgreement` | src/platform.cpp:2377-2406 | an event that is covered and draws alike, or concerns another instrument or account, keeps the agreement |
| `LiveFills.RollKeepsAgreement` | src/platform.cpp:4528-4544 | the day roll keeps both forms of agreement |
| `LiveFills.RunKeepsAgreement` | src/platform.cpp:7071-7095 | and so does every run of such events and day rolls |
| `LiveMoney.EventCashFlow` | src/platform.cpp:6880-6902 | one event: realized profit grows by the change in open cost, less the cash that its increment moves at the event's own fill price, less what lots without a cost leave unbooked; cash is initial cash plus profit, and net positions are those of the positions |
| `LiveMoney.LiveCashFlow` | src/platform.cpp:6880-6902 | the same over every run of events, in whatever order and repetition, covered or not, and day rolls |
| `LiveMoney.OpenCostsMoveAlike` | src/platform.cpp:2377-2406 | an open adds to the open cost of the account and of its strategy alike: its increment at the event's fill price |
| `LiveFills.OneKindKeepsAgreement` | src/platform.cpp:7071-7095 | in particular, whatever the holdings, runs in which closes touch a single bucket keep the buckets in agreement, and runs of plain closes elsewhere the totals |
| `LiveFills.OpenFollowsTheLastEvent` | src/platform.cpp:2377-2406 | over every run an attachment shows an order as open exactly when the last event it was told of it was not terminal; a submission announced after the completing trade leaves a filled order open |
| `LiveFills.ClosedAreTheEndings` | src/platform.cpp:2398-2401 | over every run an attachment's closed orders are the terminal events it was told of, in order |
| `LiveFills.PlainClosePartsBuckets` | src/platform.cpp:1243-1291 | the failing family: a plain close outside SHFE/INE for which the strategy's own lots of yesterday fall short while others hold some parts the buckets, though not the totals |
| `LiveFills.PartedBucketsPartTotals` | src/platform.cpp:1243-1291 | once the buckets have parted, a close-yesterday that its strategy covers can part the totals as well |
| `OrderRef.FormatReadsBack` | src/ctp_adapter.cpp:36-75 | a formatted reference is twelve digits and parses back to the same number, code and sequence |
| `OrderRef.LaterIsLarger` | src/ctp_adapter.cpp:70-75 | a later sequence makes a reference larger as a number and as a string, whatever the codes |
| `OrderRef.SeedIsPassed` | src/ctp_adapter.cpp:65-68 | the references after a login exceed the broker's MaxOrderRef |
| `Digits.WidthAlignsOrders` | src/ctp_adapter.cpp:70-75 | numerals of one width compare as strings exactly as their numbers do |
| `Gateway.CtpTraderGateway.NextOrderRef` | src/ctp_adapter.cpp:1579-1591 | a reference is refused exactly for an invalid code or an exhausted sequence, and otherwise uses the next sequence number |
| `Gateway.CtpTraderGateway.RegisterStrategyOrderRefCode` | src/ctp_adapter.cpp:442-475 | registration succeeds exactly when neither the code nor the strategy is bound elsewhere |
| `Gateway.CtpTraderGateway.OnRspUserLogin` | src/ctp_adapter.cpp:1038-1062 | a login seeds the sequence from a non-empty MaxOrderRef |
| `Gateway.CtpTraderGateway.OnRspSettlementInfoConfirm` | src/ctp_adapter.cpp:1064-1082 | the gateway is ready once the settlement is confirmed, and not when that fails |
| `Gateway.CtpTraderGateway.OnFrontDisconnected` | src/ctp_adapter.cpp:1004-1018 | a lost connection leaves it not ready |
| `Gateway.CtpTraderGateway.BeginOrder` | src/ctp_adapter.cpp:742-821 | up to the broker call, a submission that is allowed uses up a reference and puts the order on record under it; otherwise nothing changes |
| `Gateway.CtpTraderGateway.RefuseOrder` | src/ctp_adapter.cpp:858-877 | after a failed broker call the order is forgotten; its reference stays used up |
| `Gateway.CtpTraderGateway.AnnounceOrder` | src/ctp_adapter.cpp:879-898 | after a successful one the Submitted event is raised, behind whatever callbacks came first |
| `Gateway.CtpTraderGateway.RecordOrder` | src/ctp_adapter.cpp:807-821 | an order's records, under its reference and its client id |
| `Gateway.CtpTraderGateway.EraseOrder` | src/ctp_adapter.cpp:1546-1559 | forgetting an order erases all of them and no other order's |
| `Gateway.CtpTraderGateway.OnRtnOrder` | src/ctp_adapter.cpp:1404-1480 | an order report raises an event without volume, unless its fill is left to the trade reports, and forgets a finished order |
| `Gateway.CtpTraderGateway.OnRtnTrade` | src/ctp_adapter.cpp:1486-1560 | a trade report raises an event with the running total and forgets the order when it is complete |
| `Gateway.CtpTraderGateway.OnInsertAnswer` | src/ctp_adapter.cpp:1267-1402 | a refused insertion raises a rejection and forgets the order; a parked order is acknowledged |
| `Gateway.CtpTraderGateway.DrainOrderEvents` | src/ctp_adapter.cpp:981-986 | draining hands over the queue and empties it |
| `GatewayRuns.DrainsHandOverTheLog` | src/ctp_adapter.cpp:981-986 | over any run every event raised is handed over once, in order |
| `GatewayRuns.ReferencesGrow` | src/ctp_adapter.cpp:1579-1591 | between logins references strictly increase, as numbers and as strings |
| `GatewayRuns.ReferencesPassTheBroker` | src/ctp_adapter.cpp:1050-1052 | after a login all references exceed the broker's, until the next login |
| `GatewayRuns.NothingIssuedUntilConfirmed` | src/ctp_adapter.cpp:742-748 | after a failed login or confirmation, or a lost connection, no reference is issued and no cancel sent until a settlement is confirmed |
| `GatewayRuns.RunKeepsRegistrations` | src/ctp_adapter.cpp:442-475 | codes and strategies stay one to one over every run, and a code is never given to another strategy |
| `GatewayRuns.CallbacksFindTheirStrategy` | src/ctp_adapter.cpp:1417-1423 | from the moment an order is on record, however the run continues, a callback for its reference comes out under the strategy that submitted it, which is the one its request names if it names one, and no other strategy's reference does |
| `GatewayRuns.RunKeepsRecords` | src/ctp_adapter.cpp:807-821 | client ids and references point at each other over every run in which working client ids are not reused |
| `GatewayRuns.CancelReachesItsOrder` | src/ctp_adapter.cpp:901-934 | a cancel by client id names the reference that bears it, with the recorded exchange and instrument |
| `GatewayReports.RunKeepsRecord` | src/ctp_adapter.cpp:807-821 | from its submission to its end an order's history is on record, whatever happens to other orders: client, exchange, instrument, signal time, the limit and the volume last reported, and all that has traded |
| `GatewayReports.CallbacksTellTheHistory` | src/ctp_adapter.cpp:1267-1560 | so each callback about it raises exactly the event its history asks for: a status report one without volume, or none if it says that something traded; a trade one with the running total at its own price, filled exactly if that completes the order; an answer a rejection or an acknowledgement |
| `GatewayReports.EndedOrdersAreForgotten` | src/ctp_adapter.cpp:1440-1560 | the callback that ends an order erases all that is on record of it, so that a cancel by its client id reaches nothing |
| `GatewayReports.LiveOrdersCanBeCancelled` | src/ctp_adapter.cpp:901-934 | until then a cancel by its client id names its own reference, exchange and instrument |
| `OrderSlot.OrderSlotState.RecordOrderUpdate` | include/itrader/order_slot_state.hpp:33-40 | an update records the broker id and, at a positive price, the larger filled volume |
| `OrderSlot.OrderSlotState.MarkOrderSubmitted` | include/itrader/order_slot_state.hpp:46-58 | a submission starts the slot afresh under its client id |
| `OrderSlot.OrderSlotState.ClearOrderSlot` | include/itrader/order_slot_state.hpp:42-44 | a cleared slot is the empty one |
| `OrderSlot.OrderSlotState.CancelOrderSlot` | include/itrader/order_slot_state.hpp:60-68 | the slot is emptied, and an order is cancelled only if there is one |
| `OrderSlot.IncrementsReachTheLargest` | include/itrader/order_slot_state.hpp:24-40 | whatever the repetition or order of its updates, and whether they carry the client's id, the broker's or both, the increments a slot sees add up to the largest volume reported, and other orders' updates add nothing |
| `FillChain.TradesBecomeRunningTotals` | src/ctp_adapter.cpp:1486-1560 | through any regular run the gateway raises one fill event per trade, with the running total, the trade's price, instrument, side and offset, the client's id and the strategy, and marks only the completing one filled |
| `FillChain.AccountAppliesEachTrade` | src/platform.cpp:2333-2348 | the account applies each trade's volume exactly once |
| `FillChain.SlotSeesEachTrade` | include/itrader/order_slot_state.hpp:24-40 | a slot that tracks the order sees each trade's volume exactly once |
| `FillChain.OrderIsFilledOnce` | src/ctp_adapter.cpp:742-1560 | from the order on record to its last trade, through any status reports and other orders, and whether its submission is announced before or after its trades: one event per trade, one of them filled, and account and slot get exactly the trades' volumes |
| `FillChain.RedeliveryAppliesTheOrder` | src/platform.cpp:2314-2348 | delivered again in any order and any number of times, the events apply the order's volume and no more |
| `Inventory.PersistedInventoryStore.ApplyManualAdjustments` | src/platform.cpp:6500-6562 | the adjustment loop computes `ApplyAll`, or throws when it does |
| `Inventory.PersistedInventoryStore.ApplyAdjustment` | src/platform.cpp:6507-6559 | one turn of that loop: skip an applied id, adjust four buckets, drop a flat entry and an empty attachment, record the id |
| `Inventory.FindInstrument` | src/platform.cpp:6513-6519 | an adjustment goes to the first entry that names its instrument up to letter case, or to a new one |
| `Inventory.SameInSmallLetters` | src/platform.cpp:6513-6515 | instruments are compared without regard to letter case |
| `Inventory.AdjustmentMoves` | src/platform.cpp:6466-6498 | one adjustment moves its own attachment, instrument and bucket by its change, and nothing else |
| `Inventory.AdjustmentCosts` | src/platform.cpp:6466-6498 | an adjustment throws exactly if it adds lots without a price or at a negative one, or takes more than there are; otherwise lots added cost their price, lots taken leave with their average cost, and no other entry of the store changes |
| `Inventory.AdjustmentsApplyOnce` | src/platform.cpp:6500-6562 | a startup that does not throw moves every bucket by exactly the adjustments that are new |
| `Inventory.AdjustmentsKeepTheStoreSound` | src/platform.cpp:6466-6562 | it marks them applied, leaves no bucket negative and keeps no flat entry or empty attachment |
| `Inventory.RestartAppliesNothing` | src/platform.cpp:6507-6510 | adjustments already applied change nothing on a restart |
| `Inventory.EachIdTakesEffectOnce` | src/platform.cpp:6500-6599 | over any number of restarts, whether they throw in the adjustments, throw later, run dry or save, and savings while trading, an adjustment id takes effect in the saved store at most once, and is marked applied there exactly if it was before or took effect |
| `Reconciliation.AccumulateKeepsCost` | src/platform.cpp:6064-6092 | accumulating two positions adds up lots and costs bucket by bucket |
| `Reconciliation.AddPositions` | src/platform.cpp:6064-6092 | accumulating positions blends entry by entry and covers the instruments of both |
| `Reconciliation.AggregateForAccount` | src/platform.cpp:6101-6131 | the aggregate names exactly the instruments with an entry and holds, bucket by bucket, what the account's attachments hold together |
| `Reconciliation.PositionsMatch` | src/platform.cpp:6133-6161 | the match test is true exactly when all four buckets agree on every instrument |
| `Reconciliation.LiveStartup.constructor` | src/platform.cpp:4547-4558 | each configured strategy starts with a flat position for each instrument it trades |
| `Reconciliation.LiveStartup.ValidateDetached` | src/platform.cpp:6601-6623 | validation throws exactly when a detached strategy other than external_manual still holds inventory |
| `Reconciliation.SeedFromStore` | src/platform.cpp:6625-6646 | attachments take over what the store holds under their key |
| `Reconciliation.SeedingKeepsInventory` | src/platform.cpp:6625-6646 | what fresh attachments, flat in the instruments they trade, take over and what stays detached add up to the store |
| `Reconciliation.TakingOverAddsUp` | src/platform.cpp:6841-6866 | a sole strategy on an account without stored inventory takes over the broker's positions, and they add up |
| `Reconciliation.LiveStartup.HydrateAccount` | src/platform.cpp:6758-6877 | one account: it throws exactly when the report can be explained neither by the inventory on file nor, with none on file, by nothing being held or a sole strategy; otherwise the account has the reported positions, they add up, and other accounts' attachments are untouched |
| `Reconciliation.LiveStartup.HydrateFromBroker` | src/platform.cpp:6747-6878 | all accounts: it throws exactly when some answered account cannot be explained, and otherwise every answered account adds up |
| `Reconciliation.LiveStartup.Start` | src/platform.cpp:7828-7834 | adjust, validate, seed, hydrate, from fresh attachments that are flat in the instruments they trade: it throws exactly when an adjustment is impossible, a detached strategy holds inventory, or an account cannot be explained; otherwise each answered account's attachments plus external_manual sum bucket by bucket to the broker's positions |
| `RiskGate.AcceptsExactly` | src/platform.cpp:7412-7515 | the cascade of checks accepts exactly the orders that meet every rule of the policy, stated rule by rule: trading enabled, plausible limit, flatten-only, market orders, volume, open orders, daily loss, covered close, quote, and exposure after a complete fill |
| `RiskGate.AcceptedStaysWithin` | src/platform.cpp:7412-7515 | an order the gate accepts is covered by the position, stays within all limits when completely filled, and in flatten-only mode closes |
| `RiskGate.FillMovesPartOfTheWay` | src/platform.cpp:1229-1294 | any fill, covered or not, moves the exposure by at most its lots in the order's direction and makes no bucket negative |
| `RiskGate.SmallerIsAccepted` | src/platform.cpp:7412-7515 | from a position within the limits, of two orders that differ in volume only the smaller is accepted if the larger is |
| `RiskGate.RunStaysWithin` | src/platform.cpp:7412-7515 | with at most one accepted order in flight per instrument, every partial and complete fill keeps long, short and net exposure within limits, across day rolls and cancels |
| `RiskGate.SideLimitsHoldExactly` | src/platform.cpp:7500-7512 | with any orders outstanding, every order, number and size of their fills keeps the long lots under a limit if and only if the long lots and all remaining opening buys together are under it; likewise the short lots with opening sells |
| `RiskGate.NetLimitHoldsExactly` | src/platform.cpp:7500-7512 | the net lots stay within a limit either way through all those fills if and only if no side can take them out of it: by its remaining opens, and by its closes as far as the buckets their offsets and exchanges let them take from reach |
| `RiskGate.LimitsHoldExactly` | src/platform.cpp:7500-7512 | long, short and net limits all hold through every order, number and size of fills of any outstanding orders if and only if there is room for all of them |
| `RiskGate.AcceptedTogether` | src/platform.cpp:7412-7515 | two opens that the gate accepts at the same position keep the limit through all their fills if and only if the position leaves room for both |
| `RiskGate.TwoInFlightMayBreach` | src/platform.cpp:7500-7512 | it happens: under a limit of one lot two opens of one lot are both accepted, and together breach it |
| `RiskGate.FlattenOnlyNeverAdds` | src/platform.cpp:7412-7515 | in flatten-only mode no interleaving of accepted orders' fills ever adds to long or short lots |
| `Recorder.CtpMdRecorder.OnRtnDepthMarketData` | src/ctp_md_recorder.cpp:1267-1300 | a callback is counted once and dropped, recognised as a repeat, or enqueued and remembered |
| `Recorder.CtpMdRecorder.WriteTick` | src/ctp_md_recorder.cpp:1087-1115 | a row is appended to the open file of its symbol, which is replaced when the trading day changes |
| `Recorder.CtpMdRecorder.WriterAction` | src/ctp_md_recorder.cpp:1142-1176 | each action of the writer loop (take what is pending, write the next row, go round) with callbacks and stop free to come between them |
| `Recorder.CtpMdRecorder.WriterLoop` | src/ctp_md_recorder.cpp:1134-1184 | after a stop the loop writes everything pending and ends |
| `Recorder.CtpMdRecorder.RequestStop` | src/ctp_md_recorder.cpp:747-759 | a stop sets the flag and touches nothing else |
| `Recorder.SymbolKeysTellApart` | src/ctp_md_recorder.cpp:92-102 | symbols have the same key exactly if instrument and exchange are the same up to letter case |
| `Recorder.EveryTickIsAccountedFor` | src/ctp_md_recorder.cpp:1267-1300 | under every interleaving, received is invalid + out of session + repeats + pending + in the batch + written |
| `Recorder.EnqueuedIsCollapsed` | src/ctp_md_recorder.cpp:1285-1295 | symbol by symbol, written, batch and pending rows together are the accepted ticks with adjacent repeats removed |
| `Recorder.EnqueuedIsAccepted` | src/ctp_md_recorder.cpp:1285-1295 | without deduplication they are the accepted ticks, in order |
| `Recorder.CollapsedHasNoRepeats` | src/ctp_md_recorder.cpp:104-121 | no two neighbours of a collapsed sequence are equal |
| `Recorder.RowsLandInTheirDay` | src/ctp_md_recorder.cpp:1087-1115 | every row lies in a file of its own trading day and symbol, and the files hold as many rows as were written |
| `Recorder.FilesHoldWhatWasWritten` | src/ctp_md_recorder.cpp:1087-1115 | at every moment each file holds, in order, exactly the written rows that go to it: none lost, repeated or moved |
| `Recorder.StopDrainsTheQueue` | src/ctp_md_recorder.cpp:747-759 | after a stop the writer, left to itself, ends within a stated number of actions with nothing pending, and everything enqueued has been written |
| `Recorder.FilesHoldTheTicks` | src/ctp_md_recorder.cpp:1087-1300 | so after a stop each file holds exactly the accepted ticks of its symbol that go to it, in order, adjacent repeats removed when deduplication is on |
| `Recorder.DayFileHoldsItsTicks` | src/ctp_md_recorder.cpp:1087-1300 | for a symbol always spelled alike, the file of a day holds exactly that day's accepted ticks of the symbol, in order, adjacent repeats removed, even when days alternate |
| `Recorder.StretchSharesAFile` | src/ctp_md_recorder.cpp:1087-1115 | however a symbol is spelled, the rows of a stretch of one trading day go to the file named by the first of them |
| `IniStore.IniFile.constructor` | include/itrader/ini.hpp:19-54 | the line loop reads exactly what `ReadLines` says of the lines of the text |
| `IniStore.IniFile.ParseOne` | include/itrader/ini.hpp:29-49 | one turn of that loop: skip, open a section, or set an entry of the current section |
| `IniStore.EntryReadsBack` | include/itrader/ini.hpp:41-48 | a printed entry reads back as itself exactly when key and value are trimmed, the key has no '=', and the line is not taken for a comment or a header |
| `IniStore.HeaderReadsBack` | include/itrader/ini.hpp:35-39 | a section header reads back as its name |
| `IniStore.LinesOfJoined` | include/itrader/ini.hpp:29-30 | lines without newlines are read back as they were written |
| `IniStore.LastSettingCounts` | include/itrader/ini.hpp:29-49 | of every key of every section the last setting counts, wherever in the text parts of the section are, and nothing else is set |
| `IniStore.WriteStrategyStateStore` | src/platform.cpp:5634-5675 | the writer's loops print exactly the title, and per strategy with a state its header, reserved entries and state |
| `IniStore.WriteEntries` | src/platform.cpp:5660-5666 | the inner loop prints every entry that is not under a reserved key |
| `IniStore.ReadStrategyStateStore` | src/platform.cpp:5586-5612 | the reader's loop keeps the sections under the prefix, without reserved entries |
| `IniStore.BlockReadsBack` | src/platform.cpp:5656-5667 | a strategy's block reads back as one new section holding its own entries |
| `IniStore.StoreReadsBack` | src/platform.cpp:5586-5675 | reading a written store returns exactly the captured states, one per attachment |
| `IniStore.CapturedIsTheState` | src/platform.cpp:5660-5666 | with distinct keys, a captured state is the map of its entries without reserved keys |
| `Timestamps.ParseFixedWidthInt` | src/platform.cpp:1921-1934 | the digit loop returns the number, or -1 when a digit is missing |
| `Timestamps.ParseFractionalMillis` | src/platform.cpp:1936-1957 | the fraction loops return the first three digits, filled up with zeros |
| `Timestamps.SpellOut` | src/platform.cpp:1973-2014 | the layout is recognised and its fields are read at its offsets |
| `Timestamps.CountDays` | src/platform.cpp:2021-2028 | the day loops count the days since 1970 |
| `Timestamps.ParseTimestampToMillis` | src/platform.cpp:1959-2031 | the parser over all three layouts computes `ParseMillis`, and fails exactly when a field is missing or out of range |
| `Timestamps.MillisCountMilliseconds` | src/platform.cpp:2021-2030 | from the start of 1970 on, each millisecond of clock and calendar counts one |
| `Timestamps.LeapYears` | src/platform.cpp:1909-1911 | every fourth year is a leap year, but of the centuries only every fourth |
| `Timestamps.MillisAreChronological` | src/platform.cpp:2021-2030 | from 1970 on, milliseconds are ordered exactly as (year, month, day, hour, minute, second, milli), and are injective |
| `Timestamps.YearsAreOrderedExactly` | src/platform.cpp:2021-2030 | for any two years, all valid times of the earlier one precede all of the later one if and only if the earlier is 1970 or after, or the later at least 1972, or it is 1971 and the earlier not a leap year |
| `Timestamps.YearsBefore1970Coincide` | src/platform.cpp:2021-2024 | times that coincide: the first day of every year before 1970 counts as that of 1970 |
| `Timestamps.RuntimeReadsBack` | src/platform.cpp:1959-2031 | a valid time written in any layout, with any digits after the point, parses back to the millisecond |
| `Timestamps.ScriptReadsBack` | scripts/merge_agtick_daily.py:153-186 | the script finds the same fields in each layout |
| `Timestamps.SortKeysAreChronological` | scripts/merge_agtick_daily.py:183-184 | the script's sort key orders valid times chronologically |
| `Timestamps.RuntimeAndScriptAgree` | scripts/merge_agtick_daily.py:160-186 | written in whichever layouts, two times are ordered alike by the runtime, by the script and by the calendar |

## Left out

- LiveFills.RunKeepsAgreement: speaks of one instrument at a time and asks that each event's increment be covered by its strategy's own closeable lots, which the runtime does not check, and draw alike from account and strategy (`Fits`).
- FillChain.OrderIsFilledOnce: assumes that status reports name the order's volume, that an all-traded report carries its traded volume, that the broker call does not fail, that no trade is reported twice by the broker, and that no other order's event carries the same client id or tracking key; orders without a client id are not followed.
- GatewayRuns.CallbacksFindTheirStrategy: speaks of callbacks; the Submitted event carries the request's own strategy id, which may be empty.
- GatewayReports.CallbacksTellTheHistory: follows an order from its submission to its end, through runs in which no login makes its reference available again; reports that come after the end are not followed.
- FillKeys.KeysTellOrdersApart: names that contain the separator `|` are left out; with them keys of different orders can coincide.
- FillKeys.AttachmentKeysTellApart: account names with a colon are left out, for the same reason.
- GatewayRuns.RunKeepsRecords: covers runs in which a working client id is not reused, the broker reports nothing of an order whose call failed, and a login does not lower the sequence.
- Replay.FastReplayIsSound: the model walks the events present when a dispatch begins and then clears the list; that a cancel made meanwhile may reallocate the list being walked is not modelled.
- ReplayEvents.EventsAreToldOnce: in the model an event raised by a cancel while others are told is never told, as the loop clears its list after the walk; what the loop does when the list it walks grows is not modelled.
- TickStream.BacktestDirectoryTickStream.Top: the priority queue is a sequence searched for its least element, so heap internals and cost are not modelled.
- Recorder.StopDrainsTheQueue: assumes no write failure, and that no callback follows the stop, which disconnects first.
- Recorder.CtpMdRecorder.WriterLoop: the loop as one call is the one that runs after a stop, with no callback between its rounds; rounds with callbacks between them are runs of `WriterAction`.
- Recorder.FilesHoldTheTicks: the text of a row, headers, flushing and the file system are not modelled; a file is a sequence of rows.
- Reconciliation.LiveStartup.Start: broker answers are values; average prices backfilled from position details are taken as given and only quantities are reconciled; attachments are those of a fresh start, not of a reconnect.
- Inventory.EachIdTakesEffectOnce: an adjustment is taken as parsed; its audit text and time are not kept.
- RiskGate.RunStaysWithin: positions change through fills and day rolls only; quotes, clock, profit and open-order counts are arbitrary inputs of each decision.
- IniStore.StoreReadsBack: the strategy name and time stamp must be free of newlines; environment placeholders, resolved by other accessors, are not modelled.
- Timestamps.RuntimeAndScriptAgree: four-digit years and ASCII digits; the script's handling of texts outside the three layouts is not compared.
- Timestamps.ScriptReadsBack: the normalized text that the script also returns is not modelled.
- 32-bit wrap-around of volumes and counters, floating-point rounding and NaN prices: numbers are unbounded and exact, and `llround` is the nearest integer with halves away from zero.
- Signal times, message texts, daily profit rows and telemetry of the backtest, and the flag that drops closed-order snapshots: closed orders are always kept in the model.
- The branch of the lattice inference for an empty price list: the list always holds its lowest price.
- Client order ids generated for strategies that send none: a request carries its id.
- Position callbacks at a day change are one callback, and the trading-day label of a tick is an arbitrary function.
- The live replay of warm-up ticks and the snapshot builder, which repeat the tick loop with another treatment of the first tick of a day.
- Recovery of orders and trades after a reconnect, whose keys depend on timestamps and closed rows.
- CTP SDK calls, sockets, login and settlement sequences, timing, threads and locks beyond atomic steps.
- CSV reading, directory scanning, instrument filters, exchange-name and session tables, chart bars, indicators, the arbitrage recorder, configuration checks and presentation: input, output and easy case analysis.
- The sample strategies: strategies are arbitrary reactions.
