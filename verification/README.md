# Hermes trading core: a verified model

This project models the part of Hermes that turns a keyed request into an order and then
accounts for that order, and proves what the code promises about it. The path is: claim an
idempotency key, lock the bot, pass the gates, call the exchange at most once, settle the
bot, answer the key. The accounting is the virtual ledger, round-trip pairing,
weighted-average cost basis, the equity curve and the sliding-window limiter.

`dafny verify dfyconfig.toml` checks everything.

## Layers

* **Values.** `OrderValidator`, `RiskEngine`, `SimulationLedger` (one simulated order),
  `BotMachine` (one bot with its virtual account), `RoundTrips` and `Alternation` (fills and
  legs), `Sorting` (Python's stable `sorted`).
* **Imperative services.** `Idempotency.KeyTable`, `Reconciliation.Order`, `OrderService`,
  `SimulationOrderService`, `BotService`, `RateLimiter`, and the loops of `PortfolioStats`,
  `CostBasis` and `EquityCurve`. Each method is proved against a function of its inputs and
  the old state; what the code promises is then proved on what a caller can see: rows, keys,
  replies, limits and market data.
* **Interleavings.** `Protocol` is a step relation for any number of concurrent sessions over
  one database and one exchange: begin, reserve or block, lock or block, submit, accepted late
  or never, reply or lost reply, confirm, reconcile, commit, crash. Disabled steps are waits. A
  session keeps the bot row it read under the lock, computes its new row from it, and its commit
  stores that row, whatever the table holds by then. `ProtocolSafety` (who owns which key and
  row), `ProtocolCalls` (where calls come from, and when an id can be used again),
  `ProtocolTrading` (what the exchange holds for each bot), `ProtocolTrouble` (bots stopped in
  good order) and `ProtocolAnswers` (which keys are answered, and what they asked for) are
  inductive invariants; `ProtocolTheorems` and the ends of the others draw the conclusions.
  `ProtocolCrashes` says what a rollback after a call can do, and which rollbacks can do it.
  `ProtocolServices` and `ProtocolOperations` tie the layers together: what the imperative
  services do is a run of this model. `OrderRaces` is the same for order rows, which nothing locks.
* **Runs.** `SimulationRuns` carries the ledger's arithmetic over whole lives of a bot.

Foreign answers (market data, balances, exchange replies, the switch, the clock) are
parameters: a value, a `BinanceError` (`BinanceFailure`) or any other exception
(`OtherFailure`). `Decimal` is `real`.

## The exchange

`Protocol` makes three assumptions about the exchange (`Accept`, `Evolve`, `Plausible`): a client
order id is accepted once; FILLED means the full quantity; REJECTED means nothing executed. It
may accept a call whose caller has long gone, move an open order at any time, and reply with an
open status that is already out of date; a final status in a reply is still true when it is heard.
That accepted ids are distinct, and that no more is executed than a call asked for, rests on these
assumptions; everything else that is said about orders is proved about the sessions that place them.

## What the code does not provide

These are results: the code is kept as it is, and each comes with the exact condition under
which the promise holds, most with an input for which it does not.

* The cash guard adds the fee and slippage rates where the fill multiplies them. It protects
  every balance exactly when one rate is zero (`GuardSufficesExactlyWhenARateIsZero`); a bot's
  account can end a run below zero exactly when both are positive
  (`OverdraftPossibleExactlyWithBothRates`), and for any two rates some run ends at minus their
  product (`SomeRunEndsAtMinusTheProduct`).
* PAUSING and RESUMING are documented as persisted and crash-recoverable
  (`src/hermes_v2/trading/models/bot.py:16-17`). The whole transition is one transaction, so
  they are never committed (`InProgressIsNeverCommitted`), except when an exception escapes
  outside the guarded region, and then the bot stays there for good
  (`StuckExactlyAfterMalformedReply`). `StrandedExactlyByTheseReplies` lists the replies that do
  it, and `EveryLiveBotCanBeStranded` gives some for every bot with something to trade.
* `finalize` is documented to run in a `finally` block (`src/hermes_v2/trading/idempotency.py:147-154`).
  It does not: an unknown side or type, a malformed reply to a cancellation or to a bot's own
  read, and an exception in a simulated order leave a key unanswered. The contracts of
  `CreateAndExecute`, `CancelOrder`, `Transition` and `PlaceBotOrder` say exactly when, and
  `CommittedKeysAreAnswered` that nothing else does.
* A rollback after the exchange was called frees the key, so the same request can call again. A
  second call under an id is possible after exactly these rollbacks
  (`SecondCallPossibleExactlyAfterALostOne`); the exchange's refusal of a repeated id is then the
  only guard (`AtMostOneOrder`). The bot is left as if nothing had been sent, and still agrees
  with the exchange if and only if the lost order executed nothing
  (`LostOrderBreaksAgreementExactly`). No other rollback does harm: the theorems on calls,
  agreement and order exclude only these.
* Order rows are read and rewritten without a lock, so a terminal status can change again. For
  operations that overlap in any way, it stays exactly when no later commit carries a status that
  is neither the one it had loaded nor the one stored by then (`StatusIsFinalExactly`); a read that
  overlaps a cancellation can turn CANCELED back into PARTIALLY_FILLED
  (`OverlappingReadRevivesOrder`). One operation at a time, a terminal row is final
  (`OrderRowOverRuns`, `OneByOneIsTouchAll`).
* A terminal row carries `terminal_at` exactly unless a cancellation or a bot's read with a known
  final status and an unreadable number is written over a row without a time
  (`SealKeptExactlyWithoutTear`, for overlapping operations `SealExactlyWithoutTear`;
  `TornCancellationHasNoTime`).
* The limiter reads the clock before it takes its lock, so threads can enter with an older time.
  Times that enter in order never overfill a window (`WindowsAreBounded`); in any order that
  holds exactly when `max_requests` is 1 (`AnyOrderIsSafeExactlyForOne`).
* `close_position` reads the position before it looks at its key, so a repeated request can end
  in "no open position" instead of its stored response: exactly when the position is gone by then
  (`ClosePosition`). The cancel and close endpoints are literal templates, so a key is shared by
  all orders and all symbols, although the documentation of `close_position` suggests one scope
  per symbol; the payload check then refuses the second use.
* On negative equity values the running peak can miss the worst fall. It finds it exactly when
  every fall below zero is matched by a running decline at least as deep
  (`RunningPeakFindsWorstFallExactly`; `NegativeValuesHideTheWorstFall` is a series where none is).

## Model

| member | source | states |
|---|---|---|
| Idempotency.KeyTable.Reserve | src/hermes_v2/trading/idempotency.py:83-141 | a key is claimed once; a later request leaves the table alone: it gets the stored response if it is the stored request, a conflict if it is another, and "in progress" exactly while there is no response |
| Idempotency.KeyTable.Finalize | src/hermes_v2/trading/idempotency.py:144-161 | stores the response of a claimed key and nothing else; an unknown key is reported |
| OrderValidator.LatticeMeansWholeSteps | src/hermes_v2/trading/order_validator.py:160-190 | the remainder test accepts exactly the values reached from the minimum in whole steps |
| OrderValidator.ApprovedExactlyWhenRulesHold | src/hermes_v2/trading/order_validator.py:95-208 | an order is approved if and only if every exchange rule holds, and the notional handed on is quantity times the limit price of a LIMIT order, else the market price |
| RiskEngine.ApprovedExactlyWithinLimits | src/hermes_v2/trading/risk_engine.py:80-264 | approval is equivalent to the percentage-free bounds on loss, notional, exposure after the order and open positions |
| RiskEngine.AnyUnsetLimitStopsEveryBuy | src/hermes_v2/trading/risk_engine.py:141-264 | fail closed: any unset limit refuses every BUY |
| RiskEngine.LooseningKeepsApprovals | src/hermes_v2/trading/risk_engine.py:80-264 | loosening limits never turns an approval into a refusal |
| Alternation.UnbrokenMeansAlternating | src/hermes_v2/trading/simulation_portfolio_service.py:42-53 | full-size legs strictly alternate BUY, SELL with equal quantities exactly when the exposure fold never breaks; then net quantity is what is held |
| Sorting.ArrivalOrderIsIrrelevant | src/hermes_v2/trading/simulation_portfolio_service.py:57-64 | with distinct timestamps the sorted rows do not depend on the order they arrived in |
| RoundTrips.WalkPairsNeighbours | src/hermes_v2/trading/simulation_portfolio_service.py:66-82 | the one-pass pairing equals the sum over adjacent BUY-SELL positions, for any fills and any cutoff |
| RoundTrips.CountersCountTrips | src/hermes_v2/trading/simulation_portfolio_service.py:107-123 | the counters are the numbers of adjacent BUY-SELL pairs and of winning ones |
| RoundTrips.TodayPlusEarlierIsTotal | src/hermes_v2/trading/simulation_portfolio_service.py:66-82 | today's part plus the earlier part is the total, and the open BUY is the same |
| RoundTrips.PnlTelescopesToCash | src/hermes_v2/trading/simulation_portfolio_service.py:66-82 | on alternating fills realized P&L is the cash moved plus the cost of the open BUY |
| PortfolioStats.RealizedOf | src/hermes_v2/trading/simulation_portfolio_service.py:66-82 | the loop computes the paired P&L since the day's start |
| PortfolioStats.StatsOf | src/hermes_v2/trading/simulation_portfolio_service.py:107-128 | trade count and win rate are the adjacent pairs and the winning share, undefined only without trips, and a percentage |
| PortfolioStats.ComputeRealizedPnlToday | src/hermes_v2/trading/simulation_portfolio_service.py:39-82 | sum over adjacent BUY-SELL pairs of the FILLED rows in time order, closed since the day's start |
| PortfolioStats.ComputeTradeStats | src/hermes_v2/trading/simulation_portfolio_service.py:91-128 | counts and win share of the FILLED rows' adjacent pairs |
| PortfolioStats.LiveFillsAreTheReportedRows | src/hermes_v2/trading/live_portfolio_service.py:22-45 | one fill for each FILLED row with a time and an average price and for no other, in row order, with that row's side, average, executed quantity and time, and no fee |
| PortfolioStats.ComputeLiveRealizedPnlToday | src/hermes_v2/trading/live_portfolio_service.py:22-63 | the same sum over real fills, rows without a fill ignored; for alternating fills it is the weighted-average P&L of the trade history |
| PortfolioStats.LiveRowsAgreeWithTradeHistory | src/hermes_v2/trading/live_portfolio_service.py:22-63 | on order rows whose fills alternate in time order, pairing and the weighted-average walk over the same trades give the same P&L |
| PortfolioStats.ComputeLiveTradeStats | src/hermes_v2/trading/live_portfolio_service.py:72-110 | the same counts over real fills |
| CostBasis.CostBasisWalk | src/hermes_v2/trading/positions_service.py:59-95 | the loop returns one entry per trade in time order, each following from the one before: a purchase is averaged in at its price; a sale takes what is held and no more, realizes the price over the average for that much, and keeps the average of the rest |
| CostBasis.EntriesFollowPrefixes | src/hermes_v2/trading/positions_service.py:68-95 | entry i is the state after the first i + 1 trades |
| CostBasis.EntriesTellTheWalk | src/hermes_v2/trading/positions_service.py:73-95 | the same from entry to entry, in quantities and prices alone: time, holding, average and realized P&L, for covered and for oversized sales |
| CostBasis.HeldIsTallyAboveItsLowest | src/hermes_v2/trading/positions_service.py:80-91 | on every list the holding is bought minus sold, measured from the lowest it has been: an oversized sale starts over from nothing |
| CostBasis.HeldIsTallyExactlyWithoutOversell | src/hermes_v2/trading/positions_service.py:80-91 | the holding is bought minus sold if and only if no prefix sold more than it bought |
| CostBasis.RealizedIsConserved | src/hermes_v2/trading/positions_service.py:73-95 | after every trade list, oversells included: realized P&L equals tracked proceeds minus spend plus remaining cost |
| CostBasis.HeldIsNeverNegative | src/hermes_v2/trading/positions_service.py:80-91 | the tracked quantity is never negative and a flat position costs nothing |
| CostBasis.SellKeepsAverage | src/hermes_v2/trading/positions_service.py:82-89 | a sale that leaves a holding keeps the average |
| CostBasis.AverageBetweenLivePrices | src/hermes_v2/trading/positions_service.py:73-95 | the average lies within the prices bought since the position was last flat |
| CostBasis.GetRealizedLossTodayQuote | src/hermes_v2/trading/positions_service.py:193-220 | the day's loss is the negated sum over all assets but the quote asset of what their walks realized since the day's start, if negative, else zero; an unavailable history counts as empty, another exception propagates |
| CostBasis.RealizedOverAddsUp | src/hermes_v2/trading/positions_service.py:193-220 | that sum is additive over the assets: the quote asset and a refused history add nothing, any other asset its own |
| CostBasis.PairingEqualsCostBasis | src/hermes_v2/trading/live_portfolio_service.py:22-63 | on full-size alternating fills, in any arrival order, pairing and weighted average give the same P&L for every cutoff |
| SimulationLedger.AttemptComesOutExactly | src/hermes_v2/trading/simulation_order_service.py:106-260 | each end of an attempt (disabled, raised, failed, rejected, filled) is equivalent to a condition on its inputs; a fill, to the exchange's rules, the user's limits after the order, the loss of the trips closed today and the cash guard, all written on the account and its rows |
| SimulationLedger.DailyLossStopsTrading | src/hermes_v2/trading/simulation_order_service.py:264-308 | once the trips closed today have lost the limit's share of the account nothing fills, and an attempt that gets to the gate is booked REJECTED |
| SimulationLedger.FillsAreTheFilledRows | src/hermes_v2/trading/simulation_portfolio_service.py:57-64 | the fills that P&L is computed from are the FILLED rows and no other, in row order and field by field |
| SimulationLedger.FillPassedGates | src/hermes_v2/trading/simulation_order_service.py:182-260 | a fill is the order asked for at the market price, has a positive quantity and passed the risk check and, for a BUY, the cash guard |
| SimulationLedger.FillIsPricedByTheRates | src/hermes_v2/trading/simulation_order_service.py:328-366 | slippage moves the price against the account, the fee is charged on what was filled, and cash moves by the product of both, for BUY and SELL |
| SimulationLedger.FillCostsItsFriction | src/hermes_v2/trading/simulation_order_service.py:328-366 | at the market price a fill changes total value by exactly minus its recorded fee and slippage |
| SimulationLedger.OutlayExceedsProjectionByProduct | src/hermes_v2/trading/simulation_order_service.py:238-260 | what a BUY costs exceeds what the guard projected by notional times both rates |
| SimulationLedger.AcceptedBuyBound | src/hermes_v2/trading/simulation_order_service.py:238-366 | cash after an accepted BUY is at least minus notional times both rates |
| SimulationLedger.GuardSufficesExactlyWhenARateIsZero | src/hermes_v2/trading/simulation_order_service.py:238-260 | the guard protects every balance if and only if one rate is zero |
| SimulationLedger.SellAddsCash | src/hermes_v2/trading/simulation_order_service.py:359-366 | a SELL never takes cash away |
| SimulationLedger.AcceptedBuyRespectsExposure | src/hermes_v2/trading/simulation_order_service.py:264-382 | at zero fee and slippage the position after an accepted BUY is within both exposure limits of the value after it |
| SimulationRuns.FillsFollowTheClock | src/hermes_v2/trading/simulation_order_service.py:341-356 | with an advancing clock the fills of a run have strictly increasing times |
| SimulationRuns.PnlTelescopesOnEveryRun | src/hermes_v2/trading/simulation_portfolio_service.py:39-82 | in every reachable state, however the rows arrive: cash minus capital is closed P&L minus the open BUY's cost, and the day's part plus the earlier part is the whole |
| SimulationRuns.EquityDecomposes | src/hermes_v2/trading/simulation_portfolio_service.py:19-26 | over every run equity is the capital plus held quantity times price moves minus all recorded fees and slippage |
| SimulationRuns.CashIsNeverNegative | src/hermes_v2/trading/simulation_order_service.py:238-382 | with one rate at zero no run overdraws the account |
| SimulationRuns.SomeRunEndsAtMinusTheProduct | src/hermes_v2/trading/simulation_order_service.py:238-260 | for any two rates a run of one resume leaves minus their product |
| SimulationRuns.OverdraftPossibleExactlyWithBothRates | src/hermes_v2/trading/simulation_order_service.py:238-382 | some run at these rates ends with negative cash if and only if both rates are positive |
| BotMachine.LifecycleOverRuns | src/hermes_v2/trading/bot_service.py:590-797 | on every run ACTIVE holds its target, PAUSED holds nothing, and any state holds nothing or the target |
| BotMachine.StuckExactlyAfterMalformedReply | src/hermes_v2/trading/bot_service.py:627-660 | a completed call leaves PAUSING or RESUMING if and only if an admitted transition met a malformed reply |
| BotMachine.OneWayDoors | src/hermes_v2/trading/bot_service.py:95-138 | STOPPED is final, ERROR leads only to STOPPED, LIVE is for good and entered only with an empty position |
| BotMachine.CoupledOverRuns | src/hermes_v2/trading/bot_service.py:627-797 | on every run the ledger's exposure is the bot's holding and its cash the capital plus its flows |
| BotMachine.LedgerFollowsTheBot | src/hermes_v2/trading/simulation_order_service.py:318-421 | filled simulation orders alternate BUY, SELL with equal quantities; their net is the bot's quantity; cash is capital minus BUY costs plus SELL proceeds, also after ERROR or STOPPED |
| Reconciliation.ReconcileFromBinancePayload | src/hermes_v2/trading/reconciliation.py:53-107 | the row says what the reply says and is otherwise as before; "changed" means the row differs; it raises exactly for malformed replies, with head and readable quantity already written |
| Reconciliation.WellFormedExactlyIfReflected | src/hermes_v2/trading/reconciliation.py:53-107 | a reply is well-formed if and only if some row can say what it says, and then exactly one does: status words, exchange id, executed quantity, and the average that multiplied by it gives the quote quantity |
| Reconciliation.TouchedReflects | src/hermes_v2/trading/order_service.py:415-664 | every operation that hears a reply leaves a row that reflects it, timed at the end of the order, and after a cancellation always |
| Reconciliation.LastReplyWins | src/hermes_v2/trading/reconciliation.py:53-107 | reapplying a reply alters nothing, and overrides an earlier one |
| Reconciliation.SealKeptExactlyWithoutTear | src/hermes_v2/trading/order_service.py:600-664 | an operation keeps "terminal rows carry a time" if and only if it is not a torn cancellation or bot read |
| Reconciliation.OrderRowOverRuns | src/hermes_v2/trading/models/order.py:51-71 | over any operations on a row, one at a time, a terminal status never changes, FILLED was reported by the exchange, and without a torn reply terminal rows carry a time; overlapping ones are `OrderRaces` |
| Reconciliation.TornCancellationHasNoTime | src/hermes_v2/trading/order_service.py:600-664 | a run that ends CANCELED without a time |
| Reconciliation.ReconcileOnRead | src/hermes_v2/api/trading_routes.py:269-303 | best effort: without a client, on a final row or with an unreachable exchange nothing is written; otherwise the row reflects the reply and is timed if it became final |
| OrderRaces.CommitChangesStatusExactly | src/hermes_v2/api/trading_routes.py:269-303 | a commit changes the stored status if and only if its reply carries one that is neither the loaded nor the stored one |
| OrderRaces.CommitMovesTimeExactly | src/hermes_v2/api/trading_routes.py:293-303 | a commit moves `terminal_at` if and only if the operation stamps a time that is neither the loaded nor the stored one |
| OrderRaces.StatusIsFinalExactly | src/hermes_v2/api/trading_routes.py:269-303 | for any number of overlapping operations, from any moment on: the status stays if and only if no later commit overrides it |
| OrderRaces.TimeIsFinalExactly | src/hermes_v2/api/trading_routes.py:293-303 | the same for `terminal_at` over any overlapping operations |
| OrderRaces.LateStartersAreHarmless | src/hermes_v2/api/trading_routes.py:277-278 | an operation that loaded a terminal row changes nothing, whatever is stored by then |
| OrderRaces.SealExactlyWithoutTear | src/hermes_v2/trading/order_service.py:600-664 | for any overlap: terminal rows carry a time at every moment if and only if no torn reply is committed over a row without one |
| OrderRaces.FilledWasReported | src/hermes_v2/trading/reconciliation.py:53-107 | for any overlap: FILLED is stored only if some reply said so |
| OrderRaces.OneByOneIsTouchAll | src/hermes_v2/trading/order_service.py:600-664 | operations that do not overlap write what each computed |
| OrderRaces.OverlappingReadRevivesOrder | src/hermes_v2/api/trading_routes.py:269-303 | a read overtaken by a cancellation reopens the order and leaves it its time |
| OrderService.SubmittedRowIsSealed | src/hermes_v2/trading/order_service.py:415-533 | a finished submission has a time if terminal, is FAILED if an exception reached the safety net, and FILLED only if reported |
| OrderService.SubmissionComesOutExactly | src/hermes_v2/trading/order_service.py:286-533 | each end of a submission: REJECTED by a gate, FAILED, or what the exchange replied, to the confirmation if the first call was refused; FAILED without an exception means both calls were refused |
| OrderService.GatePassesExactlyWithinRulesAndLimits | src/hermes_v2/trading/order_service.py:286-387 | the exchange is called if and only if the order obeys the exchange's rules and, at its own worth, the user's limits; exposure and open positions bound a BUY and nothing else; the gates raise if and only if the first answer that is no price, filter or account is not the exchange's own error |
| OrderService.OrderService.CreateOrder | src/hermes_v2/trading/order_service.py:142-177 | a known key changes nothing and is answered from its row; a fresh one stores the status its order ended with, for one new row with the side and quantity asked for, called under its own id exactly if the gates pass |
| OrderService.OrderService.CreateAndExecute | src/hermes_v2/trading/order_service.py:179-284 | disabled trading, the unguarded conversion that leaves the key unanswered, the safety net and the normal end, each with its whole new state: row, side, quantity, submission time, key, call and reply |
| OrderService.OrderService.ValidateAndExecute | src/hermes_v2/trading/order_service.py:286-413 | gates in order; the row ends as the gates and replies say; it is called and marked as submitted exactly when all pass |
| OrderService.OrderService.SubmitToBinance | src/hermes_v2/trading/order_service.py:415-466 | exactly one call, and the row its replies imply |
| OrderService.OrderService.HandleAmbiguousCreateFailure | src/hermes_v2/trading/order_service.py:468-533 | one confirmation and never a second call: found orders are taken over, unconfirmed ones are FAILED |
| OrderService.OrderService.CancelOrder | src/hermes_v2/trading/order_service.py:537-687 | every end of a cancellation with its row, its key and its answer, including the unanswered ones: a readable reply is in the row, which is then always timed |
| OrderService.OrderService.ClosePosition | src/hermes_v2/trading/order_service.py:691-724 | sells the whole position under its own scope; without a position nothing is claimed |
| OrderService.PlaceTwice | src/hermes_v2/trading/idempotency.py:103-137 | however the first request ended, the same order sent again under its key gets how it ended, any other order a conflict, and the exchange hears of at most one |
| SimulationOrderService.SimulationOrderService.PlaceBotOrder | src/hermes_v2/trading/simulation_order_service.py:106-260 | one new row for what was asked, filled if and only if the rules, limits and cash guard allow it, else REJECTED, or FAILED without market data; cash moves only with a fill; key and reply say what the row says; with the switch off or after an exception there is no row |
| SimulationOrderService.SimulationOrderService.EvaluateRisk | src/hermes_v2/trading/simulation_order_service.py:264-308 | approval is equivalent to the limits on cash, holding, price and what the trips closed today have made |
| SimulationOrderService.SimulationOrderService.Fill | src/hermes_v2/trading/simulation_order_service.py:318-382 | one FILLED row and the cash it moves |
| SimulationOrderService.SimulationOrderService.Terminal | src/hermes_v2/trading/simulation_order_service.py:384-421 | one unfilled row and no cash moved |
| BotService.OutcomeFollowsTheRow | src/hermes_v2/trading/bot_service.py:692-797 | a live transition completes if and only if its order row ends FILLED, is taken back if and only if it ends REJECTED, and the position moves only if the exchange reported FILLED |
| BotService.StrandedExactlyByTheseReplies | src/hermes_v2/trading/bot_service.py:627-697 | a live transition leaves its bot in PAUSING or RESUMING if and only if reading the funds for a resume raises, or the one read of an open order raises or cannot be interpreted |
| BotService.EveryLiveBotCanBeStranded | src/hermes_v2/trading/bot_service.py:627-697 | for every live bot with something to trade, in both directions, replies that do it |
| BotService.BotService.CreateBot | src/hermes_v2/trading/bot_service.py:196-285 | a new simulated, PAUSED, flat bot with its own funded account, or a replay |
| BotService.BotService.UpdateBot | src/hermes_v2/trading/bot_service.py:287-363 | the target changes only while PAUSED; every end answers the key once |
| BotService.BotService.Stop | src/hermes_v2/trading/bot_service.py:377-419 | an ACTIVE, PAUSED or ERROR bot of this user becomes STOPPED and keeps its holding; any other is refused and left alone |
| BotService.BotService.DeleteBot | src/hermes_v2/trading/bot_service.py:421-494 | only PAUSED or STOPPED bots go; other bots stay |
| BotService.BotService.ActivateLive | src/hermes_v2/trading/bot_service.py:496-588 | a PAUSED simulated bot becomes LIVE if the account is connected; any other is refused and left alone |
| BotService.BotService.Transition | src/hermes_v2/trading/bot_service.py:590-797 | a known key changes nothing; otherwise bot, stored answer and reply end together in one of four ways, read off what the order did: FILLED completes it, REJECTED or no order takes it back, anything else is an ERROR answered FAILED, and an order that came back open and could not be read again strands it; the exchange is called at most once, under the derived key and only for a live bot |
| BotService.BotService.TransitionSimulated | src/hermes_v2/trading/bot_service.py:660-690 | the simulated half: the row added to the account decides the end; the derived key stays unanswered exactly if the order raised |
| BotService.BotService.TransitionLive | src/hermes_v2/trading/bot_service.py:634-697 | the live half: unknown or insufficient funds take a resume back without an order; with one, its side, quantity and final status decide the end |
| BotService.BotService.CheckSufficientRealBalance | src/hermes_v2/trading/bot_service.py:801-836 | a resume is funded exactly when the free balance covers quantity times price; unknown funds refuse it, another exception escapes |
| BotService.BotService.SubmitAndSettle | src/hermes_v2/trading/bot_service.py:646-797 | order, bot row, both keys with payload and response, the single call, and the end that the outcome means |
| BotService.BotService.PlaceLiveOrder | src/hermes_v2/trading/bot_service.py:845-860 | the order row exists exactly if trading is permitted, is linked to its bot, and is its submission followed by one read if it came back open; the derived key holds the order asked for and the status `create_order` returned |
| BotService.BotService.ReconcileOnce | src/hermes_v2/trading/bot_service.py:862-893 | one read: unreachable means unresolved, malformed means an exception, else the reported status |
| BotService.BotService.Conclude | src/hermes_v2/trading/bot_service.py:699-797 | for each outcome: what becomes of the bot, what its key stores and what the client hears |
| BotService.OutcomeIsTheEnd | src/hermes_v2/trading/bot_service.py:627-797 | the end of a live transition in terms of the funds, the switch and the final status of its order row |
| BotService.TransitionTwice | src/hermes_v2/trading/bot_service.py:593-617 | the same pause or resume sent twice: the second gets the first answer, whose bot is still the bot, and places no order |
| ProtocolSafety.RunsAreOrderly | src/hermes_v2/trading/bot_service.py:593-629 | in every interleaving, crashes included: who owns which key and holds which row; the row a session read under the lock is still the committed one, and what it is about to write is what its operation makes of that row |
| ProtocolSafety.InnerKeyIsFresh | src/hermes_v2/trading/bot_service.py:630-632 | a transition's derived key is never taken, so its order is never a stale replay |
| ProtocolCalls.CallsWereAsked | src/hermes_v2/trading/order_service.py:210-224 | crashes included, every call was made by a session that was opened with a request for it: id, side and quantity are the request's, or those of the bot row it had locked, and the key behind the id was claimed and its own |
| ProtocolCalls.RunsCallOnce | src/hermes_v2/trading/idempotency.py:83-141 | as long as no rollback comes after a call under an id, at most one call is made under it, and its key is then committed or claimed by the caller |
| ProtocolTrading.RunsTrade | src/hermes_v2/trading/bot_service.py:590-797 | the invariant that ties each bot to the orders the exchange has for it; it survives every rollback but one after a call for this bot |
| ProtocolTheorems.AtMostOneOrder | src/hermes_v2/trading/idempotency.py:55-141 | over every interleaving with retries, lost replies and crashes: at most one accepted order per user, endpoint and key, never executing more than asked, and each asked for by a session that held its claimed key |
| ProtocolTheorems.AtMostOneCall | src/hermes_v2/trading/order_service.py:210-224 | `create_order` is called at most once per user, endpoint and key as long as no session that has called under it rolls back |
| ProtocolTheorems.AgreementWithExchange | src/hermes_v2/trading/bot_service.py:660-797 | as long as no rollback comes after a call for it, an ACTIVE or PAUSED live bot with no open transition holds the net quantity the exchange executed for it |
| ProtocolTheorems.LockSafety | src/hermes_v2/trading/bot_service.py:595-629 | under the same condition, for any number of concurrent transitions, a bot's filled orders alternate, and none follows one that was neither FILLED nor REJECTED |
| ProtocolTheorems.EveryBotIsSequential | src/hermes_v2/trading/bot_service.py:838-843 | crashes included: although every commit stores a row computed earlier, no update is lost; a committed bot is what a sequence of completed operations makes of a new one |
| ProtocolTheorems.InProgressIsNeverCommitted | src/hermes_v2/trading/bot_service.py:627-797 | with well-formed replies no committed bot is PAUSING or RESUMING |
| ProtocolTrouble.LiveErrorMeansTrouble | src/hermes_v2/trading/bot_service.py:645-797 | a live bot is in ERROR or between states only after a transition that came out unresolved |
| ProtocolTrouble.RunsRest | src/hermes_v2/trading/bot_service.py:403-419 | as long as no rollback comes after a call for it, a live bot stopped without such a transition stays in agreement with the exchange |
| ProtocolTrouble.OnlyTroubleBreaksAgreement | src/hermes_v2/trading/bot_service.py:660-797 | under the same condition a live bot with no open transition, in any status, differs from the exchange only if one of its transitions came out unresolved |
| ProtocolCrashes.LostCallsCanRepeat | src/hermes_v2/api/bots_routes.py:220-240 | from any reachable state, after the rollback of any session that has called, some continuation without a rollback makes the same call again: same id, side and quantity |
| ProtocolCrashes.SecondCallPossibleExactlyAfterALostOne | src/hermes_v2/api/trading_routes.py:181-222 | the rollback of an open session makes a second call under an id possible if and only if the session has called under it |
| ProtocolCrashes.LostOrderBreaksAgreementExactly | src/hermes_v2/api/bots_routes.py:220-240 | a rollback after a call leaves the bot ACTIVE or PAUSED and unlocked, in agreement with the exchange if and only if the lost order executed nothing |
| ProtocolServices.ServiceTransitionIsAProtocolRun | src/hermes_v2/trading/bot_service.py:590-797 | after any run that keeps the calls under the order's id, and whatever replies a ready transition hears, a crash-free run of one session ends as `BotService.Transition` does: same bot and account, same rows under both keys, same call, nothing else touched |
| ProtocolOperations.ServiceChangeIsAProtocolRun | src/hermes_v2/trading/bot_service.py:287-419 | from any orderly state, the same for update, stop and activate, with the whole contract of those methods |
| ProtocolOperations.ServiceDeletionIsAProtocolRun | src/hermes_v2/trading/bot_service.py:421-494 | the same for a deletion |
| ProtocolOperations.ServiceCreationIsAProtocolRun | src/hermes_v2/trading/bot_service.py:196-285 | the same for a creation |
| ProtocolOperations.ServiceOrderIsAProtocolRun | src/hermes_v2/trading/order_service.py:142-284 | the same for an order placed by hand or the SELL that closes a position, whatever it hears: the answer under its key and the call |
| ProtocolAnswers.EachKeyIsAnsweredOnce | src/hermes_v2/trading/idempotency.py:144-161 | in every interleaving an answer given is never rewritten |
| ProtocolAnswers.CommittedAnswersArePermanent | src/hermes_v2/trading/idempotency.py:83-141 | a committed key keeps its row in every continuation |
| ProtocolAnswers.RepeatedRequestChangesNothing | src/hermes_v2/trading/idempotency.py:103-137 | a request for a key committed at any earlier point is not blocked and leaves no trace; it gets the stored response if it asks for the same, a conflict if not, and "in progress" exactly without a response |
| ProtocolAnswers.RetryRepeatsTheFirstAnswer | src/hermes_v2/trading/idempotency.py:103-137 | in every interleaving: whoever sends the same request again, at any later point, gets the response that the first one committed |
| ProtocolAnswers.CommittedKeysAreAnswered | src/hermes_v2/trading/bot_service.py:590-797 | with well-formed replies every committed key has its response, except the derived key of a simulated order that raised, whose client key has one, and the key of an order with an unknown side or type |
| ProtocolAnswers.CommittedKeysAskedForTheirOrders | src/hermes_v2/trading/idempotency.py:103-137 | as long as no session that has called under the key rolls back: the request stored under a committed key asks for exactly the side and quantity of the order sent and accepted under it |
| RateLimiter.ForgettingIsSafe | src/hermes_v2/auth/rate_limiting.py:58-62 | hits dropped at an earlier check would not count later |
| RateLimiter.EveryRunIsSpaced | src/hermes_v2/auth/rate_limiting.py:50-69 | allowed hits that are `max_requests` apart in the log are a window apart in time |
| RateLimiter.WindowsAreBounded | src/hermes_v2/auth/rate_limiting.py:50-69 | every half-open window of the configured length holds at most `max_requests` allowed hits |
| RateLimiter.BlockedRequestsLeaveNoTrace | src/hermes_v2/auth/rate_limiting.py:32-38 | blocked calls never delay unblocking |
| RateLimiter.RetryAfterIsExact | src/hermes_v2/auth/rate_limiting.py:64-66 | without further traffic a blocked key is admitted exactly from `retry_after` on |
| RateLimiter.WaitingTheHeaderIsEnough | src/hermes_v2/auth/rate_limiting.py:119-128 | after a positive number of whole seconds a blocked request is admitted if and only if they are at least the rounded Retry-After (section 10.2.3 of RFC 9110) |
| RateLimiter.DequeDecidesAsLog | src/hermes_v2/auth/rate_limiting.py:58-69 | a deque that holds the log's recent hits admits, records and delays exactly as the full log would |
| RateLimiter.AnyOrderIsSafeExactlyForOne | src/hermes_v2/auth/rate_limiting.py:56-69 | for times that enter in any order every window holds at most `max_requests` allowed hits if and only if `max_requests` is 1 |
| RateLimiter.SlidingWindowRateLimiter.Check | src/hermes_v2/auth/rate_limiting.py:50-69 | for any time: one deque is decided on and changes, other keys are untouched; as long as times enter in order it decides as the full log would, and afterwards the deque is exactly the log's hits in the window |
| RateLimiter.SlidingWindowRateLimiter.Slide | src/hermes_v2/auth/rate_limiting.py:58-69 | for any time: the loop drops exactly the aged head of the deque; what is left decides, keeps an allowed hit, and else says how long its oldest hit stays in the window |
| EquityCurve.ComputeMaxDrawdownPct | src/hermes_v2/trading/portfolio_snapshot_service.py:125-144 | the deepest decline from the running peak for any series; undefined exactly when no point is positive |
| EquityCurve.RunningPeakFindsWorstFall | src/hermes_v2/trading/portfolio_snapshot_service.py:125-144 | on non-negative series the one-pass result is the worst fall over all pairs of points |
| EquityCurve.RunningPeakFindsWorstFallExactly | src/hermes_v2/trading/portfolio_snapshot_service.py:125-144 | on any series the one-pass result is the worst fall if and only if every fall below zero is matched by a running decline at least as deep |
| EquityCurve.NegativeValuesHideTheWorstFall | src/hermes_v2/trading/portfolio_snapshot_service.py:125-144 | a series with a fall below zero that is not |
| EquityCurve.DrawdownIsAPercentage | src/hermes_v2/trading/portfolio_snapshot_service.py:125-144 | between 0 and 100, and 0 exactly when the series never falls |
| EquityCurve.BucketSurrounds | src/hermes_v2/trading/portfolio_snapshot_service.py:41-51 | the bucket is the one grid interval of that many minutes around the instant, also before the epoch |
| EquityCurve.CoarserBucketsNest | src/hermes_v2/trading/portfolio_snapshot_service.py:41-51 | buckets of a multiple are unions of buckets |
| EquityCurve.Downsample | src/hermes_v2/trading/portfolio_snapshot_service.py:147-160 | the dictionary loop and the sorted comprehension return the last snapshot per bucket |
| EquityCurve.DownsamplingKeepsLastOfEachBucket | src/hermes_v2/trading/portfolio_snapshot_service.py:147-160 | exactly the points after which their bucket does not recur; one per bucket, strictly increasing, ending with the newest |
| EquityCurve.CoarserDownsamplingAbsorbsFiner | src/hermes_v2/api/trading_routes.py:371-377 | downsampling by a divisor first makes no difference |
| EquityCurve.DownsamplingNeverDeepensDrawdown | src/hermes_v2/trading/portfolio_snapshot_service.py:147-160 | on non-negative values downsampling never increases the drawdown |

## Left out

- Idempotency.KeyTable.Reserve: hashes are injective and keys are structured, so a client that types the text of a derived bot key for a manual order does not meet that key here; in the code the two strings are one key.
- OrderService.OrderService.CreateOrder: a response is its status; the serialized order, reason texts, order events and audit rows are not modelled.
- BotService.BotService.CreateBot: name, risk profile, asset class, venue and strategy fields are not modelled, nor is the enum check before the reservation.
- BotService.BotService.DeleteBot: the database's own `ON DELETE SET NULL` on order rows is not modelled.
- BotService.BotService.Transition: `paused_at` and the last-order ids of a position are not modelled.
- SimulationOrderService.SimulationOrderService.PlaceBotOrder: the branch for a missing simulation account is not modelled; every bot here is created with one.
- ProtocolSafety.RunsAreOrderly: cancellations are not sessions of the interleaving model; what they do to an order is a move of the exchange there, and `OrderService.CancelOrder` has their own contract.
- ProtocolTheorems.AgreementWithExchange: says nothing while a transition is open, since the row is then not yet committed; after the rollback of a transition that had called, `ProtocolCrashes.LostOrderBreaksAgreementExactly` speaks instead.
- RiskEngine.ApprovedExactlyWithinLimits: NaN and infinity, and the checks that refuse them, are not modelled; values are exact reals.
- RateLimiter.SlidingWindowRateLimiter.Check: one check is one step, as the lock makes it; the clock is read before the lock, so times may come in in any order, and what the full log says is promised only while they come in in order. `reset` and floating-point time are not modelled.
- PortfolioStats.ComputeRealizedPnlToday: the start of the day is a parameter, not computed from the clock.
- EquityCurve.Downsample: for ascending snapshots only, as the function demands.
- `Decimal` rounding to 28 digits and the `Numeric(28,10)` columns.
- HTTP, signing, routes, permissions, sessions, credentials and migrations; of the routes only the commit-or-rollback choice and reconcile-on-read.
- Thread pools in the portfolio and positions services: order-preserving maps, taken as sequential.
- Upper-casing of symbols, `ExchangeInfoCache`, the kill switch's storage, return percentages, position building and `model_selection`: they would only add easy members.
