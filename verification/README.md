# Verification of the trading service's order ledger and accounting

This project models the parts of the KIS scalping service that must not be
wrong, and proves what they keep.

* **The order ledger and the protocol around it.** `LedgerTables` has the rows
  and what each transaction makes of them; `Database` has the transactions as
  methods on a class, each committing all it wrote or nothing. `Reconciliation`
  and `OrderManagement` are the loops of the supervisor, `OrderSupervisor` the
  iteration that runs them on one snapshot, `AutoTrade` the submission path with
  its last-moment guard, `FillNotices` the second channel by which fills arrive.
  `ServiceRun` puts trading loop, supervisor and broker together as one state
  machine whose steps are single transactions and broker calls, and in which the
  trading loop may crash between any two. The methods are proved to be those
  steps; the theorems are about every run.
* **What the runs keep.** `LedgerInvariant` and `LedgerRuns` (any transactions,
  any arguments), `TruthfulBroker`, `ReconcileTruth`, `PassTruth`, `ManageTruth`
  and `ReconcileTheorems` (passes against a broker that tells the truth),
  `ServiceSafety`, `ServiceTheorems`, `BuyGuard`, `NeverShort`, `SaleCoverage`,
  `UncoveredExit` and `StrandedExit` (whole runs), `SilentPass` (when the two
  review flags come down), `CancelOnce` (cancel requests, for any records at all)
  and `AskedAgain` (when one is made, and repeated), `PositionTerms` and
  `EntryPlans` (what a position was opened with stays), `NoticeTakeIn` (what a
  notice is answered with).
* **Leases and approvals.** `ServiceLeases`, `Approvals`, `ApprovedEntries`.
* **The exit-order life cycle.** `ExitPolicy`, with the price rules and risk plan
  of `KrxMarketRules`.
* **Profit.** `FifoLots` is the first-in-first-out matching as a function, and
  `FifoOrder` proves that order share by share; `Performance` and
  `PortfolioSnapshot` are the two programs that compute it.
  `AverageCost` is the reference for the live positions, `PaperLedger` and
  `PaperReport`; `EntryPrice` says when a live position's entry price is the mean
  of its purchases.
* **Bounded resources and bars.** `UsageBudget` with the retry loop, `UsageLoops`
  with any number of them at once, and `MinuteBars`.

## Reading the model

A table the code reads in a fixed order is a sequence kept in that order; the
others are maps. Instants are whole numbers, prices and money exact reals. A
`with self.connection` block is one method. An exception is a result
(`Raised`), and one that escapes a supervisor loop is kept as such.

The broker is ghost state. Where a theorem needs it to tell the truth, that
means: what it reports of an order is the order it was given, cumulative fills
and their value never shrink, average times filled is the value and absent while
nothing is filled, and a finished order stays as it is. A snapshot may leave
orders out. A broker order number is never given twice; where the broker numbers
its orders day by day, the runs are those of one day. Claims that compare ledger
and broker are about fills that arrive by the order inquiry; `FillNotices` has
its own runs, because the two channels name the same fill differently
(kis_ai_scalper/pipeline/broker_reconciliation.py:124,
kis_ai_scalper/pipeline/fill_notice_reconciliation.py:288-297). A supervisor pass
is one step with respect to the trading loop.

`Truthful`, `Safe` and `Blocked` and the like are predicates over states. The
theorems about runs of the service assume nothing but the run itself: the
invariant is proved from the empty ledger on. Histories of single passes start in
any ledger with positive averages, which is every reachable one.

## Where the code and its promises differ

* The guard's "one unresolved BUY" does not hold across a crash between the
  broker's answer and the row that records it: the row stays SUBMITTING, which
  the guard's query does not list. `BuyGuard` has the run, the exact condition,
  and what holds again once a supervisor pass has been made.
* `order_management` says it never retries a cancellation. An unanswered request
  leaves the order UNKNOWN, the next reconcile pass makes it ACKNOWLEDGED, and it
  is asked for again. `CancelOnce` has a history and proves the promise for
  requests that were answered; `AskedAgain` has the exact condition.
* An exit order left without a broker number, by a crash, a guard that refuses or
  a broker that does not answer, is unresolved for good: no pass looks it up, and
  every later exit of its symbol stops at it. `StrandedExit` has a run and proves
  it for the rest of every run.
* `update_broker_order_status` writes whatever count and average it is given, so
  called with others than the fills have it leaves an order that disagrees with
  them. `LedgerRuns` has the run and the exact condition, and shows that fills,
  applications and positions survive any such call.
* A reconcile pass that has nothing left to do still writes `updated_at` of the
  orders it selects (`ReconcileTheorems`).
* A supervisor pass between the read of a position and the claim of its exit can
  leave a claimed SELL of more shares than are open. The guard refuses it before
  the broker is called. `UncoveredExit` has the run, `SaleCoverage` the exact
  condition.
* The entry price of a live position is its average cost, which is the mean of
  its purchase prices only until a purchase follows a sale. `EntryPrice` has the
  run and the exact condition over whole histories.
* The risk plan fails for prices below 2 won, and only there.

## Model

| member | source | states |
|---|---|---|
| ServiceTheorems.NoOversell | kis_ai_scalper/pipeline/auto_trade.py:185-259 | In every state of every run of trading loop, supervisor and broker, with crashes anywhere: at most one unresolved SELL per symbol, none the broker was called with asks for more than the open position (for those it was not called with see SaleCoverage), every recorded sale has left its position, and at most `max_exit_requotes + 1` SELL orders exist per position signal |
| SaleCoverage.SalesCoveredIff | kis_ai_scalper/pipeline/auto_trade.py:185-259 | Along every run each unresolved SELL row, called or not, asks for no more than the open position if and only if each SELL fitted the position when it was claimed |
| SaleCoverage.UninterruptedSalesCovered | kis_ai_scalper/pipeline/auto_trade.py:185-259 | So they do in every state of a run in which no supervisor pass comes between the read of a position and the claim of its exit |
| SaleCoverage.VettedIff | kis_ai_scalper/pipeline/auto_trade.py:185-259 | An exit is vetted, for the whole quantity read, if and only if every SELL row of the symbol is finished and its signal has had at most `max_exit_requotes` of them; one more raises both flags |
| UncoveredExit.ExitCanOutgrowPosition | kis_ai_scalper/pipeline/auto_trade.py:185-259 | With such a pass in between they need not: a run from the empty ledger that claims a SELL of two shares with at most one open (the guard refuses it later) |
| NeverShort.NeverSoldShort | kis_ai_scalper/execution/guarded_submitter.py:131-148 | In every such state the broker has sold, under the service's orders, no more of a symbol than it has bought, lost replies and unrecorded fills included |
| ServiceTheorems.PassesNeverFail | kis_ai_scalper/pipeline/broker_reconciliation.py:81-167 | In no run does a pass over a true snapshot raise, complain of identity, quantity or regression, refuse a fill, or fail to take a sale into its position; afterwards every order the snapshot shows is level with it |
| ServiceTheorems.CalledAtMostOnce | kis_ai_scalper/pipeline/auto_trade.py:644-690 | In every run the broker is called at most once per client order id, and holds at most one order per id |
| ServiceTheorems.EveryRunSafe | kis_ai_scalper/ops/order_supervisor.py:622-668 | The invariant of the service (ledger behind the broker, sales covered, one live sale per symbol, call log, position of the trading loop) holds in every reachable state |
| ServiceTheorems.EventKeeps | kis_ai_scalper/pipeline/auto_trade.py:644-690 | Each single event of the trading loop, the broker and the supervisor keeps that invariant |
| ServiceSafety.PassKeeps | kis_ai_scalper/ops/order_supervisor.py:622-668 | A whole supervisor pass runs to its end, touches only orders with a broker number, changes neither their identity nor a terminal status, and keeps any set of covered sales covered |
| BuyGuard.AtMostOneLiveBuy | kis_ai_scalper/execution/guarded_submitter.py:109-130 | In every state of a run that has so far had no crash between the broker's answer to a BUY and the row that records it, at most one BUY the broker was called with is not finished |
| BuyGuard.SecondBuyIffStranded | kis_ai_scalper/execution/guarded_submitter.py:109-130 | After any cleared BUY reaches the broker it is the only live one if and only if no earlier call was left with an INTENT or SUBMITTING row |
| BuyGuard.OnlyLiveRowIffNoneUnsent | kis_ai_scalper/execution/guarded_submitter.py:109-130 | On the rows alone: the order being placed is the only unresolved BUY row if and only if no other BUY row is INTENT or SUBMITTING |
| BuyGuard.EntryLetThroughIff | kis_ai_scalper/execution/guarded_submitter.py:109-130 | An entry is let through if and only if nothing outside the tables forbids it, both flags are down and every BUY row is INTENT, SUBMITTING or finished, whatever SELL rows there are |
| BuyGuard.CrashAllowsSecondBuy | kis_ai_scalper/execution/guarded_submitter.py:118-124 | The claim without that condition is false: a run with one crash per entry in that gap leaves two live BUYs at the broker |
| BuyGuard.StrandedOrderBlocksEntries | kis_ai_scalper/pipeline/broker_reconciliation.py:103-105 | Once a supervisor pass has seen such a stranded order, both flags stay up and no BUY passes the guard again, for the rest of the run |
| StrandedExit.StrandedSaleBlocksExits | kis_ai_scalper/pipeline/auto_trade.py:185-259 | From the moment a SELL row is left without a broker number and nobody working on it, and for the rest of every run, passes included: the row stays as it is, no exit of its symbol is vetted, claimed or sent to the broker, and the symbol's open position never gets smaller |
| StrandedExit.CrashStrandsExit | kis_ai_scalper/pipeline/auto_trade.py:806-814 | A run that comes to this: two shares held, a crash right after their exit was claimed |
| AutoTrade.SubmitWithLedger | kis_ai_scalper/pipeline/auto_trade.py:644-690 | Run without interruption the call is exactly these steps of the service: the claim; if it wins, the mark, the guard, the broker call if the guard lets through, and the record. The broker is called just then, and an id already claimed reaches neither the broker nor the tables |
| AutoTrade.SubmitClaimed | kis_ai_scalper/pipeline/auto_trade.py:655-690 | After a claim that won: exactly the mark, the guard, the broker call if let through, and the record |
| AutoTrade.SubmitMarked | kis_ai_scalper/pipeline/auto_trade.py:666-690 | After the mark: exactly the guard, the broker call if let through, and the record |
| AutoTrade.MaybeExitPosition | kis_ai_scalper/pipeline/auto_trade.py:185-259 | Selling the first open position is exactly the read, the vetting of the whole quantity and the submission's steps; nothing changes when nothing is open, a SELL is unresolved or no price is given, and used-up attempts raise both review flags and touch neither orders nor broker |
| AutoTrade.GuardedSubmit | kis_ai_scalper/execution/guarded_submitter.py:87-164 | A rejected gate never reaches the broker; a passed one reaches it exactly once |
| AutoTrade.Broker.SubmitOrder | kis_ai_scalper/execution/guarded_submitter.py:29-31 | What a call leaves at the other end of the wire, whether or not the answer arrives |
| OrderSupervisor.OneIteration | kis_ai_scalper/ops/order_supervisor.py:571-766 | Given a snapshot that is true of the broker the iteration is exactly a supervisor step of the service, with both flags as the reasons, the orders set aside and the cancels waited for say; given none it raises both flags and touches no order |
| SilentPass.QuietPassLowersFlags | kis_ai_scalper/ops/order_supervisor.py:664-700 | In every run a pass with nothing to explain takes `operator_review` down, and `block_new_entries` too unless a cancel is still waited for; any other pass raises both |
| SilentPass.FlagsSayIff | kis_ai_scalper/ops/order_supervisor.py:622-700 | After a pass over a true snapshot `operator_review` is down if and only if every selected order is known, shown, taken in and has a usable plan if a BUY, the broker works on nothing else, the account holds what the positions do and no order was set aside; `block_new_entries` if and only if besides no unfinished order has a marker or is CANCEL_PENDING |
| SilentPass.RowsSilentIff | kis_ai_scalper/pipeline/broker_reconciliation.py:97-167 | The loop over the rows gives no reason if and only if each of their orders is known, shown by the snapshot, taken in, and has a usable plan if it is a BUY |
| OrderSupervisor.CancelRequestedBuys | kis_ai_scalper/ops/order_supervisor.py:459-568 | The operator's request is consumed before the first broker call; then each working BUY is dealt with in table order until an error escapes |
| AskedAgain.OperatorCancelReaches | kis_ai_scalper/ops/order_supervisor.py:459-568 | The operator's cancel-all asks for exactly the BUYs that are ACKNOWLEDGED or PARTIALLY_FILLED after the reconcile part and shown open and cancellable |
| AskedAgain.StalePassReaches | kis_ai_scalper/pipeline/order_management.py:75-219 | In a pass without one, exactly the orders that are due are asked for |
| ApprovedEntries.ExecuteApprovedEntry | kis_ai_scalper/pipeline/auto_trade.py:551-641 | If this call consumed the approval its steps are exactly those of the submission, and otherwise there are none; a consumed request then ends EXECUTED or FAILED as the submission went. With terms that no longer hold the broker is not called, and a request still APPROVED stays so |
| ApprovedEntries.OneSubmissionPerApproval | kis_ai_scalper/storage/database.py:1174-1229 | In any run of callers, operators and restarts a request leads to at most one submission; before it the run itself has a move that approved the request and a later one that consumed it, both strictly before its expiry, and it has no other submission of the request |
| LedgerRuns.EveryRunKeeps | kis_ai_scalper/storage/database.py:387-773 | After any sequence of ledger transactions with any arguments: fills have unique ids and known orders, counts are within their requests, taken-in fills are distinct recorded ones, and each symbol has at most one open position, the average-cost holding of what was taken in; and if no status update of the run writes a count or average the fills do not have, each order's count and average are those of its fills |
| LedgerRuns.ExecuteKeepsTables | kis_ai_scalper/storage/database.py:387-773 | Every single transaction, accepted or refused, keeps the fills, the applications and the positions consistent and the counts within their requests |
| LedgerRuns.ExecuteKeepsIff | kis_ai_scalper/storage/database.py:387-773 | It keeps the agreement of counts and averages with the fills as well if and only if it is not a written status update that says otherwise |
| LedgerRuns.UpdateKeepsIff | kis_ai_scalper/storage/database.py:486-537 | A written status update keeps that agreement if and only if it leaves count and average out or repeats those of the order's fills |
| LedgerRuns.RunKeepsIff | kis_ai_scalper/storage/database.py:387-773 | Counts and averages agree with the fills all along a run if and only if none of its status updates says otherwise |
| LedgerRuns.UpdateCanMisstate | kis_ai_scalper/storage/database.py:486-537 | A run in which one does: a claimed order with a count written over it and no fill |
| LedgerRuns.AverageIsMean | kis_ai_scalper/storage/database.py:539-638 | The recorded count is the sum of the order's fills, at most what was requested, and the recorded average is their quantity-weighted mean |
| LedgerRuns.FillOnce | kis_ai_scalper/storage/database.py:539-638 | A fill id recorded once is a no-op ever after, and no accepted fill exceeds its order |
| LedgerRuns.MaterializeOnce | kis_ai_scalper/storage/database.py:640-773 | A successful call takes in every fill of the order exactly once and changes only positions and applications; a second call returns 0 and changes nothing |
| LedgerRuns.MaterializeTakesAll | kis_ai_scalper/storage/database.py:640-773 | After a successful call each fill of the order is among those taken in |
| LedgerRuns.OpenQuantityIsNet | kis_ai_scalper/storage/database.py:640-773 | A symbol's open quantity is what its taken-in fills bought less what they sold |
| LedgerRuns.OpenPositionIsHolding | kis_ai_scalper/storage/database.py:640-773 | There is one open position per symbol; its quantity is that net and its entry price the average cost of the replayed fills |
| PositionTerms.LadderOfOpening | kis_ai_scalper/storage/database.py:640-773 | Over any run of transactions each position has the stop, take and holding time of the one call that opened it, and has stood in the table with the same identity, instant and terms ever since |
| PositionTerms.MaterializeFrames | kis_ai_scalper/storage/database.py:640-773 | Through a whole call every old row keeps its terms, a closed one every column, a row that was closed has the instant of a sale taken in and the close reason, and every other row is new under the plan given, around the price of a purchase taken in |
| PositionTerms.TakeInTouches | kis_ai_scalper/storage/database.py:679-773 | One fill opens one row under an unused key or moves the one open row of its symbol: a purchase adds to its quantity, a sale takes off and sets the exit number and, when nothing is left, the closing columns; every other column and row stays |
| PositionTerms.TakenInIff | kis_ai_scalper/storage/database.py:679-773 | A sale is taken in exactly when the open position covers it; a purchase exactly when there is an open position, or the ladder brackets its price and the new key and signal are unused |
| LedgerRuns.TakenInTableOrder | kis_ai_scalper/storage/database.py:671-677 | Fills are taken in by instant and id |
| AverageCost.AverageIsPurchaseMean | kis_ai_scalper/storage/database.py:722-734 | For one further purchase: the new average is the mean of all BUY prices if and only if nothing was sold since opening or the new price equals the average |
| EntryPrice.EntryIsPurchaseMean | kis_ai_scalper/storage/database.py:722-734 | In every ledger with the invariant the entry price of an open position is the quantity-weighted mean of the BUY fills since it was opened when no sale among them precedes a purchase, and more generally when each purchase after a sale was made at the average of the moment |
| EntryPrice.MeanThroughoutIffSteady | kis_ai_scalper/storage/database.py:722-734 | Over every history of taken-in fills the entry price stays that mean all along if and only if each purchase after a sale since opening was made at the average of the moment |
| EntryPrice.PurchaseKeepsMeanIff | kis_ai_scalper/storage/database.py:722-734 | Step by step: one more BUY keeps it the mean if and only if nothing was sold since opening or it is made at the average |
| EntryPrice.MeanLostAfterPartialSale | kis_ai_scalper/storage/database.py:722-734 | A run from the empty ledger where it is not: 2 bought at 10, 1 sold, 1 bought at 20 leave entry price 15 and purchase mean 40/3 |
| AverageCost.SoldKeepsAverage | kis_ai_scalper/paper/report.py:33-39 | Selling never moves the average cost, and selling everything leaves no cost behind |
| LedgerInvariant.InsertFillInOrder | kis_ai_scalper/storage/database.py:671-677 | Fills keep the order of (filled_at, fill_id) the materialisation query asks for |
| LedgerInvariant.TakeInKeeps | kis_ai_scalper/storage/database.py:679-770 | Taking in one fill moves the holding of its symbol by that fill and no other symbol's, or fails |
| EntryPlans.ReconciledPositionHasPlan | kis_ai_scalper/pipeline/broker_reconciliation.py:260-277 | A position opened by a pass has the decision's stop and take, bracketing the first fill's price, and its holding time or 900 seconds |
| EntryPlans.NotifiedPositionHasPlan | kis_ai_scalper/pipeline/fill_notice_reconciliation.py:239-262 | A position opened by a notice has the whole recorded plan, which was complete and ordered |
| Database.Database.ClaimOrderIntent | kis_ai_scalper/storage/database.py:387-430 | One transaction: the new row exactly when the id is free, nothing otherwise, and the tables as they were when it raises |
| Database.Database.MarkOrderSubmitting | kis_ai_scalper/storage/database.py:432-444 | A known order becomes SUBMITTING with its error cleared, and no other column or row changes; an unknown one is reported and a blank id raises, with every table as it was |
| Database.Database.RecordOrderSubmission | kis_ai_scalper/storage/database.py:446-464 | A known order becomes ACKNOWLEDGED under its broker number, fills and average untouched; blank ids raise with every table as it was |
| Database.Database.MarkOrderUnknown | kis_ai_scalper/storage/database.py:466-484 | A known order becomes UNKNOWN with the error noted, broker number and fills untouched; a blank id or error raises with every table as it was |
| Database.Database.UpdateBrokerOrderStatus | kis_ai_scalper/storage/database.py:486-537 | Omitted columns are preserved and a count above the request leaves the row alone |
| Database.Database.ApplyBrokerFill | kis_ai_scalper/storage/database.py:539-638 | The insert is rolled back when the roll-up would exceed the order |
| Database.Database.TakeInFill | kis_ai_scalper/storage/database.py:679-770 | The position change of one fill, or its refusal, as `PositionTerms.TakeInTouches` states column by column |
| Database.Database.MaterializeOrderFills | kis_ai_scalper/storage/database.py:640-773 | All unapplied fills are taken in, in order of instant and id, or every table is as it was |
| ReconcileTheorems.PassRefinesBroker | kis_ai_scalper/pipeline/broker_reconciliation.py:45-198 | After a pass every known order the snapshot shows, selected or not, has the broker's cumulative count and average exactly, and nothing was raised |
| ReconcileTheorems.CleanPassTakesAll | kis_ai_scalper/pipeline/broker_reconciliation.py:260-285 | A pass with nothing left to explain has taken every recorded fill in; each symbol's open quantity is BUY less SELL fills |
| ReconcileTheorems.RerunChangesNothing | kis_ai_scalper/pipeline/broker_reconciliation.py:45-198 | Running such a pass again on the same snapshot at whatever instant takes up no fill and changes no fill, application or position row and no column of an order but `updated_at` of the selected ones; the tables are the same outright if and only if nothing is selected or the instant is the same |
| ReconcileTheorems.RerunMovesTheStamp | kis_ai_scalper/pipeline/broker_reconciliation.py:45-198 | A clean pass whose rerun does move the stamp of a working order |
| PassTruth.RowsTruth | kis_ai_scalper/pipeline/broker_reconciliation.py:81-167 | Over truthful records the loop raises nothing, loses no fill, keeps the ledger behind the broker and sales covered, and leaves each row level with its record |
| ReconcileTruth.RowTruth | kis_ai_scalper/pipeline/broker_reconciliation.py:97-167 | One row over truthful records: level with the record and stamped, or untouched when there is none |
| TruthfulBroker.IncrementIsExact | kis_ai_scalper/pipeline/broker_reconciliation.py:241-257 | The price derived from two cumulative averages is positive and accounts for exactly the money the broker added |
| TruthfulBroker.AdoptFillsTruth | kis_ai_scalper/pipeline/broker_reconciliation.py:121-140 | Newly reported shares become one new fill whose value brings the ledger to the broker's notional |
| TruthfulBroker.AdoptingMirrors | kis_ai_scalper/pipeline/broker_reconciliation.py:121-140 | With that fill recorded the order's count and average are the broker's and the ledger still mirrors it |
| TruthfulBroker.RestFillIdInjective | kis_ai_scalper/pipeline/broker_reconciliation.py:124 | A cumulative count names a fill of an order uniquely |
| Reconciliation.ReconcileBrokerState | kis_ai_scalper/pipeline/broker_reconciliation.py:45-198 | The selected rows are dealt with in table order; the report has their counters and exactly these reasons, each once and in this order: those of the rows, the broker's orders no row is about, and the account's mismatches or its absence. A broker order is named if and only if a record with its number has shares remaining or is unfilled or partly filled and no selected row carries the number. There are no reasons if and only if the rows gave none, no such record exists and every symbol's open quantity equals the account's; a failed order query touches no row |
| SilentPass.ForeignOrderIsNamed | kis_ai_scalper/pipeline/broker_reconciliation.py:169-176 | An unfinished broker order that a true snapshot shows and no selected row is about always leaves its number to explain |
| Reconciliation.ReconcileOrder | kis_ai_scalper/pipeline/broker_reconciliation.py:97-167 | One row leaves the ledger, the reasons and any escaping exception that the row's specification says, on the columns as they were read |
| Reconciliation.ComparePositions | kis_ai_scalper/pipeline/broker_reconciliation.py:183-196 | The mismatches come in order of symbol, and name exactly the symbols, of all there are, whose quantities differ |
| Reconciliation.OrderedRows | kis_ai_scalper/pipeline/broker_reconciliation.py:81-94 | The rows once each, in the order of creation and id |
| Reconciliation.Finish | kis_ai_scalper/pipeline/broker_reconciliation.py:288-309 | Both flags are raised exactly when a reason is left, each reason is reported once, and no reason is lost or added |
| CancelOnce.AcknowledgedCancelIsLast | kis_ai_scalper/pipeline/order_management.py:127-206 | Once a cancel request was acknowledged no later stale-order pass asks for that order again, whatever work comes between and whatever records the parser returns |
| CancelOnce.PendingUntilFinished | kis_ai_scalper/pipeline/order_management.py:307-347 | From CANCEL_PENDING until finished an order stays CANCEL_PENDING through any passes, and neither the stale-order passes nor the operator's cancel-all ask for it again |
| CancelOnce.EveryRunAveraged | kis_ai_scalper/storage/database.py:387-773 | Its starting condition, positive recorded averages, holds in every ledger any sequence of transactions leads to |
| CancelOnce.WorkSettles | kis_ai_scalper/pipeline/broker_reconciliation.py:142-161 | Any single piece of supervisor work leaves an order that was CANCEL_PENDING in CANCEL_PENDING or a terminal status, exceptions included |
| CancelOnce.RowsSettle | kis_ai_scalper/pipeline/broker_reconciliation.py:142-161 | The same for a reconcile pass over any records the parser can produce |
| CancelOnce.ManageAsks | kis_ai_scalper/pipeline/order_management.py:75-219 | A stale-order pass asks at most once per order, only for orders it found working, and never for one with a marker |
| CancelOnce.MarkedIffAcknowledged | kis_ai_scalper/pipeline/order_management.py:176-206 | A request leaves a marker if and only if it was acknowledged; otherwise the order is UNKNOWN |
| CancelOnce.UnansweredCancelIsRetried | kis_ai_scalper/pipeline/order_management.py:3-5 | The module's promise never to retry a cancellation is false for unanswered requests: a three-pass history in which one is sent twice |
| AskedAgain.AskedAgainIff | kis_ai_scalper/pipeline/order_management.py:127-206 | For every order, snapshot and policy: after a cancel request the next reconcile and stale-order pass over a true snapshot ask for the order again if and only if the broker did not acknowledge the request, the snapshot shows the order open and cancellable, and it is still stale; an acknowledged request is never repeated |
| AskedAgain.PassAsksIffDue | kis_ai_scalper/pipeline/order_management.py:127-206 | Over a true snapshot a stale-order pass asks for exactly the listed orders that are working, without a marker, stale, and shown open and cancellable |
| AskedAgain.RequestLeaves | kis_ai_scalper/pipeline/order_management.py:176-206 | After a whole pass an order that was asked for has a marker if and only if the broker acknowledged it, and otherwise is UNKNOWN |
| OrderManagement.ManageStaleOrders | kis_ai_scalper/pipeline/order_management.py:75-219 | The open rows are dealt with in table order on the statuses they were read with; a failed query blocks entries and touches no order |
| OrderManagement.ManageOrder | kis_ai_scalper/pipeline/order_management.py:127-206 | One row leaves the ledger, the markers, the requests sent and any escaping exception that the row's specification says |
| FillNotices.HandledOnce | kis_ai_scalper/pipeline/fill_notice_reconciliation.py:61-171 | In any run of notices one that came in once with a valid instant changes no row when it comes in again, except that a recorded fill never taken in may be taken in then |
| FillNotices.NoticesAddNoOrder | kis_ai_scalper/pipeline/fill_notice_reconciliation.py:61-171 | No run of notices adds or loses an order, and each order's count is the sum of its fills and within its request |
| FillNotices.NoticeGrows | kis_ai_scalper/pipeline/fill_notice_reconciliation.py:61-285 | A notice only acknowledges, rejects, or adds shares to the one order it names; it forgets no fill and keeps the ledger's invariant |
| NoticeTakeIn.AppliedTakesIn | kis_ai_scalper/pipeline/fill_notice_reconciliation.py:61-171 | Whenever a notice is answered as applied, exactly one fill was recorded, with its quantity, price and instant; its order has nothing left to take in; the number answered is that of the fills taken in, and each symbol's open quantity moved by their signed total |
| NoticeTakeIn.AppliedIff | kis_ai_scalper/pipeline/fill_notice_reconciliation.py:61-171 | It is answered so if and only if it comes in time, names one order it agrees with, its fill is recordable and the take-in succeeds |
| NoticeTakeIn.StatusNoticeAnswers | kis_ai_scalper/pipeline/fill_notice_reconciliation.py:174-224 | What an acceptance or a rejection is answered with for every status, with and without fills, and that only status, stamps and error move |
| FillNotices.ApplyFillNotice | kis_ai_scalper/pipeline/fill_notice_reconciliation.py:61-171 | The one matching order is updated, or both flags are raised and the reply is a block; `NoticeTakeIn` says which reply comes when |
| FillNotices.ApplyAccepted | kis_ai_scalper/pipeline/fill_notice_reconciliation.py:174-202 | A BUY or SELL acceptance moves only an order without fills that was not cancelled, unknown or finished, and only to ACKNOWLEDGED |
| FillNotices.ApplyRejected | kis_ai_scalper/pipeline/fill_notice_reconciliation.py:205-224 | A rejection moves only an order without fills that is neither unknown nor finished, and only to REJECTED |
| FillNotices.ApplyFilled | kis_ai_scalper/pipeline/fill_notice_reconciliation.py:118-171 | A fill is recorded and taken in, or stays recorded when it cannot be taken in; the reply is the number taken in |
| ServiceLeases.IntervalsAreDisjoint | kis_ai_scalper/storage/database.py:844-908 | Over any run with a clock that does not run back, the intervals granted to different owners never overlap |
| ServiceLeases.GrantsDoNotOverlap | kis_ai_scalper/storage/database.py:844-874 | Between grants to different owners the first has run out or its owner called again |
| ServiceLeases.GrantStands | kis_ai_scalper/storage/database.py:844-898 | Until it expires a granted lease is its owner's, whatever others call |
| ServiceLeases.LostLeaseStaysLost | kis_ai_scalper/storage/database.py:876-898 | An owner that lost the lease can neither renew nor release it until it acquires it again |
| ServiceLeases.GuardNeedsGrant | kis_ai_scalper/execution/guarded_submitter.py:184-193 | The guard passes for an owner exactly while the row is a grant of its own that has not expired, and for at most one owner |
| ServiceLeases.LeaseTable.AcquireServiceLease | kis_ai_scalper/storage/database.py:844-874 | The row changes exactly when it is free, expired or the owner's; other leases are untouched |
| ServiceLeases.LeaseTable.RenewServiceLease | kis_ai_scalper/storage/database.py:876-898 | Only an unexpired lease of the owner is renewed |
| ServiceLeases.LeaseTable.ReleaseServiceLease | kis_ai_scalper/storage/database.py:900-908 | Only the owner's lease is released |
| Approvals.ConsumedOnce | kis_ai_scalper/storage/database.py:1199-1215 | A request is consumed at most once in any run |
| Approvals.ConsumedAfterApproval | kis_ai_scalper/storage/database.py:1174-1215 | A consumption follows an approval, both strictly before the recorded expiry |
| Approvals.NeverBack | kis_ai_scalper/storage/database.py:1096-1229 | No call takes a request back to an earlier stage, removes it or moves its expiry, and a finished one never changes again |
| Approvals.RecordedExpiryStands | kis_ai_scalper/storage/database.py:1096-1137 | A newly recorded request is PENDING and expires, in every later state, when its caller said or two minutes later |
| Approvals.DecisionStands | kis_ai_scalper/storage/database.py:1174-1229 | A refused request is DENIED and a finished one EXECUTED or FAILED as it went, in every later state |
| Approvals.ApprovalTable.RecordApprovalRequest | kis_ai_scalper/storage/database.py:1096-1137 | A known id is left as it is |
| Approvals.ApprovalTable.ResolveApprovalRequest | kis_ai_scalper/storage/database.py:1174-1197 | An overdue pending request expires instead of being resolved |
| Approvals.ApprovalTable.ConsumeApprovalRequest | kis_ai_scalper/storage/database.py:1199-1215 | An overdue approved request expires instead of being consumed |
| Approvals.ApprovalTable.FinishApprovalRequest | kis_ai_scalper/storage/database.py:1217-1229 | Only a request being consumed is finished |
| Approvals.ApprovalTable.ExpireApprovalRequests | kis_ai_scalper/storage/database.py:1159-1168 | Exactly the overdue pending and approved requests expire, and their number is returned |
| ExitPolicy.QuantityConserved | kis_ai_scalper/execution/exit_policy.py:184-335 | Over every run and chain of replacements: fills of closed orders plus current filled plus remaining are the original quantity |
| ExitPolicy.RequotesBounded | kis_ai_scalper/execution/exit_policy.py:212-335 | Replacement intents number at most `max_requotes`, cancels at most one more |
| ExitPolicy.ReplacedOnlyAfterConfirmation | kis_ai_scalper/execution/exit_policy.py:294-335 | Before each replacement, and since the one before it, the broker confirmed the order cancelled or rejected |
| ExitPolicy.ObservationAdopted | kis_ai_scalper/execution/exit_policy.py:230-292 | Stated quantities are adopted exactly when consistent with the request; otherwise the order goes to review |
| ExitPolicy.SellPlanHolds | kis_ai_scalper/execution/exit_policy.py:360-374 | A planned price is the greatest valid tick at or below the bid, within the permitted slippage; a plan is refused for no other reason |
| KrxMarketRules.BuyIsGreatest | kis_ai_scalper/broker/kis_market_rules.py:40-50 | A buy price rounds to the greatest valid price at or below it, across band edges; it fails exactly below one won |
| KrxMarketRules.SellIsLeast | kis_ai_scalper/broker/kis_market_rules.py:40-50 | A sell price rounds to the least valid price at or above it, across band edges, and never fails |
| KrxMarketRules.RoundsByTable | kis_ai_scalper/broker/kis_market_rules.py:22-50 | A buy rounds to the greatest price of the exchange's table at or below it, a sell to the least at or above it, the table written out band by band |
| KrxMarketRules.ValidIsInTable | kis_ai_scalper/broker/kis_market_rules.py:53-61 | A whole price passes the validity check exactly when it stands in that table |
| KrxMarketRules.NormalizeIdempotent | kis_ai_scalper/broker/kis_market_rules.py:40-61 | Rounding a rounded price, either way, leaves it, and it passes the validity check |
| KrxMarketRules.NormalizeMonotone | kis_ai_scalper/broker/kis_market_rules.py:40-50 | A higher price never rounds to a lower one, nor a buy above a sell |
| KrxMarketRules.WholePrices | kis_ai_scalper/broker/kis_market_rules.py:53-61 | A price is valid exactly when it is a whole number of its ticks |
| KrxMarketRules.RiskPlanHolds | kis_ai_scalper/ai/decision.py:428-443 | For every price the plan fails if and only if the price is below 2; otherwise stop < entry < take are valid ticks, reward is at least 1.6 times the risk, and the risk at least 0.8% of entry and less than a tick more, with stop highest and take lowest possible |
| KrxMarketRules.PlanSurvivesApproval | kis_ai_scalper/pipeline/auto_trade.py:585-590 | The prices of a normalised plan pass the approval's second rounding unchanged |
| FifoLots.FifoConserves | kis_ai_scalper/ops/performance.py:111-152 | Per symbol the lots left are bought less sold, and proceeds, cost of what was sold and gross profit are those of the rows less the lots left |
| FifoLots.FailsIffOversold | kis_ai_scalper/ops/performance.py:129-132 | For well-formed rows the matching fails if and only if some prefix sells more of a symbol than it bought |
| FifoOrder.FirstInFirstOut | kis_ai_scalper/ops/performance.py:111-152 | Written out share by share, what a symbol's matched pieces cost followed by the lots left is its purchases in row order, and what the pieces went for is its sales in row order: the k-th share sold is matched with the k-th bought |
| FifoOrder.SaleTakesFirst | kis_ai_scalper/ops/performance.py:129-152 | One sale takes the first shares of the queue, each at the sale's price and time, and leaves the rest in order |
| FifoLots.SaleConserves | kis_ai_scalper/ops/performance.py:129-152 | One sale succeeds exactly when enough is held and takes out exactly what it sells |
| Performance.ReportAddsUp | kis_ai_scalper/ops/performance.py:111-174 | Net is gross less costs, the sum of the outcomes, wins plus losses, and the sum over strategies |
| Performance.CostsFollowRates | kis_ai_scalper/ops/performance.py:135-138 | Costs are the buy rate on what the matched shares cost and the sell rate on what they sold for |
| Performance.BuildPerformanceReport | kis_ai_scalper/ops/performance.py:97-174 | The loop over queues and accumulators computes the first-in-first-out pieces of the sorted rows, and raises exactly when they cannot be matched or a rate is negative |
| Performance.MatchLots | kis_ai_scalper/ops/performance.py:129-152 | The inner loop over the oldest lots matches the sale and keeps every running total |
| Performance.MaxDrawdown | kis_ai_scalper/ops/performance.py:188-196 | The result is the largest fall of the running total from any earlier value |
| Performance.Summarize | kis_ai_scalper/ops/performance.py:154-174 | Win rate, averages and profit factor are the quotients they are named for |
| TradeRows.SortingSorts | kis_ai_scalper/ops/performance.py:117 | Rows are ordered by time and id, and rows in that order stay as they are |
| PortfolioSnapshot.DailyRealizedPnl | kis_ai_scalper/risk/portfolio_snapshot.py:92-180 | A figure is given exactly when both flags were cleared today and not after now, every row is at or before the earlier clearing and the matching succeeds; it is the day's part of the first-in-first-out net |
| PortfolioSnapshot.SellPlain | kis_ai_scalper/risk/portfolio_snapshot.py:158-177 | The second matcher's queue of bare lots gives the net of the first matcher's pieces |
| PortfolioSnapshot.DailyAgreesWithReport | kis_ai_scalper/risk/portfolio_snapshot.py:128-180 | The day's figure is the sum of the report's outcomes from that day's sales |
| PortfolioSnapshot.DaysAddUpToNet | kis_ai_scalper/risk/portfolio_snapshot.py:128-180 | Over all days with sales the figures add up to the report's net profit |
| PaperReport.RealizedIsCashFlow | kis_ai_scalper/paper/report.py:57-73 | Per symbol, for any rows: held is bought less sold, and realized is sales less purchases plus the cost of what is held; for positive quantities and prices nothing held costs nothing |
| PaperReport.RealizedBySymbol | kis_ai_scalper/paper/report.py:57-73 | The realized total is the sum over the symbols |
| PaperReport.AgreesWithFifo | kis_ai_scalper/paper/report.py:57-73 | Average cost and FIFO accept the same histories, hold the same shares, and agree on the profit of every flat symbol |
| PaperReport.BuildPaperReport | kis_ai_scalper/paper/report.py:42-89 | The loop reports the replay of the sorted rows, and raises exactly when that oversells |
| PaperLedger.CompareWithReport | kis_ai_scalper/paper/ledger.py:73-183 | The report over the stored rows of any ledger's fills shows the ledger's own positions, average costs and realized profit |
| PaperLedger.PaperProfit | kis_ai_scalper/paper/ledger.py:139-161 | Realized profit is sales less purchases plus held cost, and with nothing held the FIFO gross profit |
| PaperLedger.PaperLedger.SubmitOrder | kis_ai_scalper/paper/ledger.py:82-103 | A sale of more than is held is stored as rejected, a repeated id returns what is stored or raises, and the positions stay those of the journal |
| PaperLedger.PaperLedger.FillOrder | kis_ai_scalper/paper/ledger.py:105-137 | A new fill is accepted exactly when order and position have room, a repeated one changes nothing; positions and profit stay those of the journal replayed |
| PaperLedger.PaperLedger.ApplyFill | kis_ai_scalper/paper/ledger.py:139-161 | The position change is the replay's |
| PaperLedger.PaperLedger.OpenOrders | kis_ai_scalper/paper/ledger.py:172-176 | The open orders are exactly those not refused with shares left, and an open BUY takes any fill of what is left |
| UsageBudget.BudgetHolds | kis_ai_scalper/ai/reliable.py:91-165 | Over any interleaving with days that do not run back: reserved is the sum of outstanding estimates, daily reserved of today's, calls are within both limits on every day, and cost plus reserved exceeds a limit by no more than settlements exceeded estimates |
| UsageBudget.CostsAreSettled | kis_ai_scalper/ai/reliable.py:91-165 | In every state of every run the process cost is the sum of what the settlements of the run cost, and the daily cost that of those whose reservation was made on the day |
| UsageBudget.GrantedIff | kis_ai_scalper/ai/reliable.py:91-110 | A reservation is granted if and only if one more call is within both call limits, and what was settled, what is reserved and the estimate together are within both cost limits |
| UsageBudget.StepAccounted | kis_ai_scalper/ai/reliable.py:91-165 | Every call keeps the reservation accounts |
| UsageBudget.UsageBudget.ReserveCall | kis_ai_scalper/ai/reliable.py:91-110 | A reservation is made within all four limits after rolling the day, or refused naming the first one exceeded |
| UsageBudget.UsageBudget.SettleCall | kis_ai_scalper/ai/reliable.py:112-127 | The actual cost is counted even where it then complains; an unknown token changes nothing |
| UsageBudget.UsageBudget.CancelCall | kis_ai_scalper/ai/reliable.py:129-136 | The reservation is given back once |
| UsageBudget.UsageBudget.RollDay | kis_ai_scalper/ai/reliable.py:154-165 | The daily figures start anew with what is outstanding for the new day |
| UsageBudget.Decide | kis_ai_scalper/ai/decision.py:234-319 | With the budget to itself: attempts go on exactly while they time out or meet a transient status with their call made, at most `max_retries + 1` of them; the budget is that of the attempts made one after the other, each counting one call but for a last one refused; the last gives the verdict, and no reservation is left |
| UsageBudget.Try | kis_ai_scalper/ai/decision.py:237-317 | With the budget to itself one attempt makes exactly the calls of its case and closes the reservation it made, also when settling complains and when it is cancelled twice; another is asked for exactly when the call was made, it timed out or met a transient status, and it was not the last |
| UsageBudget.VerdictMeans | kis_ai_scalper/ai/decision.py:237-317 | A decision comes exactly from a call made and a usable answer whose cost is within the limits, a transport error exactly from an attempt that could be repeated |
| UsageLoops.NothingLeaks | kis_ai_scalper/ai/decision.py:234-319 | However the calls of any number of retry loops on one budget interleave: each outstanding reservation is that of one attempt under way, each attempt still waiting has its reservation, and with no attempt under way nothing is reserved |
| UsageLoops.LimitsHold | kis_ai_scalper/ai/reliable.py:91-165 | Interleaved loops keep the call and cost limits that single calls do |
| UsageLoops.AloneIsAttempted | kis_ai_scalper/ai/decision.py:237-317 | Without others in between, the acts of an attempt are the loop body's calls |
| MinuteBars.BatchEqualsStreaming | kis_ai_scalper/market/completed_bars.py:117-156 | On a chronological stream read back in any order, the batch has a bar for a completed minute inside the window exactly when the streaming builder has, and it is the same bar |
| MinuteBars.BatchOrderIndependent | kis_ai_scalper/market/completed_bars.py:124-156 | The bars do not depend on the order the rows are read in |
| MinuteBars.StreamingMatches | kis_ai_scalper/market/bar_builder.py:16-36 | A chronological stream is accepted, and the builder's bars are exactly those of its minutes |
| MinuteBars.MinuteIsOhlc | kis_ai_scalper/market/bar_builder.py:16-32 | A minute's bar opens at its first tick, closes at its last, and its high and low are attained extremes |
| MinuteBars.StreamConserves | kis_ai_scalper/market/bar_builder.py:16-36 | Every streamed bar has low <= open, close <= high, and together they hold the volume of the stream |
| MinuteBars.BatchConserves | kis_ai_scalper/market/completed_bars.py:124-156 | The same for every batch bar and the ticks it counts |
| MinuteBars.BuildBars | kis_ai_scalper/market/bar_builder.py:8-36 | Running a builder over a stream and flushing it gives the specified bars, or raises with it |
| MinuteBars.MinuteBarBuilder.Update | kis_ai_scalper/market/bar_builder.py:16-32 | One tick extends or replaces the bar, or is refused and changes nothing |
| MinuteBars.MinuteBarBuilder.Flush | kis_ai_scalper/market/bar_builder.py:34-36 | The bar under construction is handed out and forgotten |
| MinuteBars.MaterializeCompletedBars | kis_ai_scalper/market/completed_bars.py:88-163 | The fetch loop gives the aggregates whatever the batch size, and raises exactly for one that is not positive |

## Left out

- HTTP, WebSocket, decryption, token files, configuration and environment reading are parameters or absent.
- Telegram, command-line output, notification history, status and audit rows: presentation, no order state.
- SQLite itself, write-ahead logging and busy timeouts: a transaction is atomic by construction here.
- ISO text of instants, time zones and offsets: instants are numbers on one clock.
- Floating point and `round(..., 10)`: money is exact.
- The exchange calendar: whether the market is open and entries are allowed is part of each pass's input.
- Mixing both fill channels in one run, and interleaving a trading step inside a supervisor pass: the code does not keep the ledger claims there.
- The strategy of the entry decision and the checks before an approved entry is consumed: they are the event `VetEntry` and the flag `termsHold`.
- The exit reason of `_maybe_exit_position` and the price check behind it: a position is read and a price given, or not.
- Broker answers with a blank order number that is not empty: the row stays SUBMITTING, as after a crash.
- `record_approval_request` with a status other than PENDING: nothing in the service passes one.
- Order prices in cancel requests, and the bar key kept with a marker.
- Strategy names are taken as already stripped of blanks; `save_bar` and the padding of the tick query are not modelled.
- `execution/state_machine.py`, `market/health.py`, `risk/risk_engine.py`, `execution/idempotency.py`, `strategies/candidate.py`, `execution/position_manager.py`, `broker/kis_rate_limit.py` and the indicators: single-branch or table-lookup claims that would only add easy members.
- NeverShort.NeverSoldShort: counts orders the service placed; shares the account holds from elsewhere are not part of this model.
- The texts of `last_error`: an order set aside carries one fixed text for each of the two callers.
- Reuse of broker order numbers from one day to the next.
- UsageBudget.Decide: interrupts that are not exceptions leave the reservation outstanding, as in the code, and are not modelled.
