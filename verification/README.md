# Order settlement engine

The project models how a store of game credits settles its orders: the rows of
orders, payments and recharges, the Bigo recharge requests and their retries, the
coupon and influencer ledger, the cached sales metrics, and the events that move them
(order creation, Bravive webhooks and manual polls, expiry sweeps, Bigo answers, retry
timers and metric recalculations).

| module | what it holds |
|---|---|
| `Schema`, `Options`, `Sums`, `Calendar` | the rows, sums over tables, days and months |
| `RescodeText`, `BigoApi` | the error text with its code, the signed request with its backup host |
| `RetryQueue` | the recharge rows, timers, calls under way, and what every run of them keeps |
| `RetryClock` | when retries are due and how far apart sends are |
| `Discount`, `CouponLedger`, `Expiry`, `Metrics` | prices, double-entry books, sweeps, aggregates |
| `Engine` | every handler from its transactions, and `Step`/`Run` over whole handlers |
| `Coherence`, `Replay`, `LazyExpiry`, `CouponRules`, `UsageLimits` | results about runs of atomic handlers |
| `Interleaving`, `Bookkeeping`, `Races`, `CreationRaces` | the same transactions interleaved one by one |
| `Atomicity` | runs of atomic handlers as special interleavings |
| `StatusTexts`, `Checkout`, `MonthBooks`, `MetricsMeaning` | from texts, requests and rows to rows, without the functions in between |
| `Storage`, `BigoServices`, `OrderServices`, `UserCleanup`, `MetricsServices`, `BraviveServices`, `Notices`, `Banners` | the services in their own step-by-step form, proved against those functions |

There are two levels. In `Engine` a webhook, poll or timer is one atomic step. In
`Interleaving` an APPROVED notice is a handler whose first transaction, dispatch, Bigo
answer, second transaction, coupon confirmation and metrics update are separate
actions, order creation is a validation and a later insertion, the expiry loop is a
query and later writes, and other handlers, polls, sweeps and retries may run between
any two of them; only the check for a used `bu_orderid` together with the row it creates
is atomic, as the unique column makes it. `Atomicity.AtomicRunsAreInterleavings` connects the two.

Conventions: money is in cents and percentages in hundredths of a percent; instants
are milliseconds on a fixed-offset clock; tables are sequences and a row's id is its
position, since no settlement row is ever deleted; a lookup by key takes the first
match. The journal of postings, the list of completions and the log of sends are history
that the code does not store; they are written beside the rows so that statements about
whole runs can be made, and nothing reads them. The calls under way stand for the
requests whose answers the code awaits. A timer does not fire before it is due.

What the proofs say about the code's own promises:

- A refund leaves the payment approved, so its replays are not absorbed: each one
  decrements the coupon again (`Replay.ReplayIsAbsorbed` gives the exact condition).
- A refund does not ask whether the coupon usage was ever confirmed
  (`Replay.RefundOfUnpaidOrder`).
- Confirmations book under today's month and reverts under the order's creation month;
  a revert without a month row leaves the coupon decremented, and that is the only way
  the books come apart (`Bookkeeping.BooksAgreeUnlessUncovered`).
- A usage limit is compared with confirmed uses only, so it can be exceeded
  (`UsageLimits.LimitStep` gives the exact condition).
- A successful retry marks only the Bigo row, never the order.
- Status coherence holds for atomic handlers and survives interleaving exactly as long
  as two races are absent (`Races.CoherentUnlessLate`).
- Nothing repeats a coupon check when an order is inserted or revived
  (`CreationRaces.ClashStep`, `CouponRules.RevivedOrdersClash`).
- Giving the same banner index twice deletes a neighbour unless nothing later is kept.
- Every error of a signed request carries the "Network error: " prefix, errors reported
  by Bigo included; the code is read back through it.
- A stored percentage of 0 selects the percentage branch, because a Decimal is an
  object; the fixed amount of such a coupon is ignored.

Where code and text disagree the code is followed: docs/DASHBOARD_METRICS.md describes
metrics that are incremented order by order, the code recalculates the rows; comments
in getRetryDelay speak of seconds, its caller waits minutes.

## Model

| member | source | states |
|---|---|---|
| `RescodeText.RescodeRoundTrip` | src/bigo/bigo.service.ts:377-430 | the code parsed from a printed Bigo error, behind any prefix without an opening parenthesis, is the printed rescode if and only if that rescode is not negative, for every original message |
| `RescodeText.CodeInText` | src/bigo/bigo.service.ts:378-384 | the leftmost parenthesised run of digits is the code, whatever digits or parentheses follow it |
| `RescodeText.DigitsRoundTrip` | src/bigo/bigo.service.ts:382-429 | parsing the decimal digits of a number gives the number back |
| `BigoApi.LastHostDecides` | src/bigo/bigo.service.ts:200-247 | a signed request is delivered exactly when the host asked last replied 0; another non-negative reply is heard as that code; a transport failure that does not quote Bigo is heard as 500001 |
| `BigoApi.RebuildIsIdentity` | src/bigo/bigo-retry.service.ts:275-301 | rebuilding a stored body and stamping a seqid restores the body exactly when it held only dto fields and that seqid |
| `BigoServices.BigoService.MakeSignedRequest` | src/bigo/bigo.service.ts:184-248 | the outcome and the number of posts of the primary and backup attempts, with the error wrapping |
| `BigoServices.BigoService.DiamondRecharge` | src/bigo/bigo.service.ts:65-133 | first request: the dto is stamped in place; a used order number changes nothing and throws; otherwise one row is created, sent, and marked by the answer |
| `BigoServices.BigoService.DiamondRechargeAgain` | src/bigo/bigo.service.ts:65-101 | with a seqid: the dto is stamped with that seqid, one request is sent, and no row is created or changed |
| `BigoServices.BigoRetryService.AddToRetryQueue` | src/bigo/bigo-retry.service.ts:54-111 | the row, its timer and its schedule after a refusal: retryable codes within three attempts wait, everything else fails |
| `BigoServices.BigoRetryService.ProcessSpecificRetry` | src/bigo/bigo-retry.service.ts:113-230 | one retry from the timer to its answer, through the rebuilt dto, is the queue transition the theorems are about |
| `BigoServices.BigoRetryService.OnModuleDestroy` | src/bigo/bigo-retry.service.ts:335-339 | every timer is dropped and no row changes |
| `RetryQueue.RunKeepsInv` | src/bigo/bigo-retry.service.ts:54-243 | every run of sends, answers and timers keeps: timers are exactly the RETRY_PENDING rows with attempts 1..3 and the stored retry time, SUCCESS and FAILED rows have none, the budgets hold, every send equals the stored body, order numbers are distinct |
| `RetryQueue.StepKeepsTimers` | src/bigo/bigo-retry.service.ts:78-129 | one step keeps the agreement of the timer map, the calls under way and the row statuses |
| `RetryQueue.StepKeepsBudgets` | src/bigo/bigo-retry.service.ts:35-111 | one step keeps, for every row, sends = attempts (+1 unless waiting), at most two posts per answer, and the waiting bounds for its attempts |
| `RetryQueue.StepKeepsRequests` | src/bigo/bigo-retry.service.ts:147-162 | one step keeps every logged send of a row equal to its stored body, and one row per order number |
| `RetryQueue.EverySendIsTheFirst` | src/bigo/bigo-retry.service.ts:147-162 | in every reachable state any two sends of one row carried the same body and seqid |
| `RetryQueue.OneRowPerOrder` | src/bigo/bigo.service.ts:74-95 | in every reachable state a bu_orderid has at most one row |
| `RetryQueue.RetryBudget` | src/bigo/bigo-retry.service.ts:35-111 | in every reachable state a row has made at most four signed requests and eight posts, and one that failed at the fourth has waited between 44 and 180 minutes |
| `RetryQueue.StepLowersMeasure` | src/bigo/bigo-retry.service.ts:113-243 | every step leaves a row unchanged or lowers a measure on attempts and phase; finished rows never change |
| `RetryQueue.ChangesAreBounded` | src/bigo/bigo-retry.service.ts:113-243 | over any run a row changes at most as often as its measure, seven times in its life |
| `RetryQueue.EveryRowEnds` | src/bigo/bigo-retry.service.ts:113-230 | whatever Bigo answers, four exchanges end a row, as SUCCESS or FAILED exactly as read off the answers |
| `RetryQueue.WaitsExactly` | src/bigo/bigo-retry.service.ts:44-111 | until its end a row waits exactly the minutes that the answers call for, attempt by attempt |
| `RetryQueue.WaitBoundsAreTight` | src/bigo/bigo-retry.service.ts:18-52 | four internal errors wait exactly 44 minutes and four rate limits exactly 180 |
| `RetryClock.FirstAnswerSchedules` | src/bigo/bigo-retry.service.ts:78-110 | a retryable refusal of the first request puts the row and its timer exactly 1 800 000 ms (7212012) or 180 000 ms (500001) after the refusal; any other code fails the row |
| `RetryClock.RetryAnswerSchedules` | src/bigo/bigo-retry.service.ts:78-110 | the same for the answers to retries, with 3 600 000 and 5 400 000 ms or 780 000 and 1 680 000 ms, up to three retries |
| `RetryClock.PendingIsDue` | src/bigo/bigo-retry.service.ts:78-110 | in every reachable state a pending row is due that long after the refusal which scheduled it |
| `RetryClock.FourthSendIsLate` | src/bigo/bigo-retry.service.ts:35-111 | a row failing at its fourth request sent it at least its scheduled waits after its first, which add up to between 2 640 000 and 10 800 000 ms, if the clock does not run backwards |
| `RetryQueue.LastReplyDecidesRow` | src/bigo/bigo.service.ts:97-126 | from the reply of the host asked last to the row status: 0 SUCCESS, retryable RETRY_PENDING, any other non-negative code FAILED |
| `CouponLedger.ConfirmKeepsBalance` | src/order/order.service.ts:1049-1096 | confirming keeps both books balanced: every coupon counter is the signed sum of its postings and an influencer's coupon sales less monthly rows are minus the unbooked reverts |
| `CouponLedger.RevertKeepsBalance` | src/order/order.service.ts:1098-1147 | reverting keeps the same balance, also when it stops half-way because a month has no row |
| `CouponLedger.MonthSum` | src/order/order.service.ts:995-1043 | a month update moves the sum of that influencer's rows by the amount and of no other's |
| `CouponLedger.ConfirmAppends` | src/order/order.service.ts:1060-1093 | confirming appends postings of that order at its stored price only |
| `CouponLedger.RevertAppends` | src/order/order.service.ts:1110-1143 | reverting appends postings of that order at its stored price only, and changes the books exactly when the order has a usage of a known coupon |
| `CouponLedger.RevertDrift` | src/order/order.service.ts:1024-1037 | a revert moves an influencer's coupon sales and monthly rows apart by exactly the price when the influencer has no row for the month, and not at all otherwise |
| `CouponLedger.ConfirmDrift` | src/order/order.service.ts:1049-1096 | a confirmation never moves them apart |
| `MonthBooks.ConfirmBooksMonth` | src/order/order.service.ts:1008-1043 | a confirmation adds the price to the influencer's month it is booked under, creating that month's row if there is none, and to the coupon, and moves no other month of anyone |
| `MonthBooks.RevertBooksMonth` | src/order/order.service.ts:1008-1043 | a revert is booked exactly when the influencer has a row for the month, and then takes the price off that month and no other |
| `MonthBooks.ConfirmThenRevert` | src/order/order.service.ts:1049-1147 | confirming and reverting under one month restores every month and the coupon, and the revert is booked |
| `MonthBooks.ConfirmedInItsMonth` | src/order/order.service.ts:1085-1135 | a refund of an order confirmed in its own creation month is booked in that month, whatever is interleaved in between |
| `CouponLedger.CountByOrder` | src/order/order.service.ts:1072-1082 | a coupon's use count is confirms less reverts summed over the orders, and its sales the same number times each order's price |
| `CouponLedger.CountersCountStandingOrders` | src/order/order.service.ts:1049-1147 | with at most one confirm per order, timesUsed is the number of confirmed, unreverted orders if and only if no order has more reverts than confirms; then the sales are their total and neither counter is negative |
| `OrderServices.OrderService.UpdateInfluencerMonthlySales` | src/order/order.service.ts:995-1043 | adds to the first matching row, creates a row for a non-negative amount, throws for a negative amount without a row |
| `OrderServices.OrderService.ConfirmCouponUsage` | src/order/order.service.ts:1049-1096 | the loop over usages books coupon and month together or, on an error, restores both tables |
| `OrderServices.OrderService.RevertCouponUsage` | src/order/order.service.ts:1098-1147 | the loop over usages stops at the first error and keeps what it wrote, the coupon decrement included |
| `Discount.DiscountIsNearest` | src/order/order.service.ts:1335-1340 | the percentage discount is within half a cent of exact, ties upwards |
| `Discount.DiscountSplitsAmount` | src/order/order.service.ts:1335-1352 | discount plus final equals the order amount for every amount if and only if the percentage is at most 100 |
| `Discount.FinalBounds` | src/order/order.service.ts:1344-1352 | the final amount lies between zero and the order amount |
| `Discount.FinalIsMonotone` | src/order/order.service.ts:1335-1352 | a dearer order never costs less after the discount, for every coupon |
| `Engine.PriceFlows` | src/order/order.service.ts:667-695 | the price stored with an order is the quoted final amount, within one cent of the offer, and it adds up with the discount to the list price |
| `Checkout.CouponDecision` | src/order/order.service.ts:1211-1333 | a coupon is accepted exactly when it is active, unexpired, below its limit, above its minimum and free of the first-purchase and one-time conflicts, at its final amount; a refusal names a condition that fails |
| `Checkout.UnknownCoupon` | src/order/order.service.ts:1187-1209 | a title that no undeleted coupon of the store has is refused as not found |
| `Checkout.CreationDecision` | src/order/order.service.ts:667-731 | a request becomes an order exactly when its quote is accepted, the offered price is within a cent, and its number is free |
| `Checkout.EveryOrderWasRequested` | src/order/order.service.ts:845-931 | every order of every run equals one of its requests field by field, within a cent of the offered price |
| `Checkout.CreatedAsAsked` | src/order/order.service.ts:845-931 | a created order carries the request's fields, its coupon's final amount, and starts CREATED with payment and recharge pending |
| `Discount.FinalByKind` | src/order/order.service.ts:1335-1352 | what is left to pay by a percentage, by a fixed amount up to the whole price, and without either |
| `Engine.CostIsNearest` | src/bravive/bravive.service.ts:442-444 | the total cost sent to Bigo is within half a cent of 8.8 cents per diamond, ties upwards |
| `OrderServices.OrderService.CheckAndExpireOrders` | src/order/order.service.ts:1423-1476 | the set update expires exactly the selected overdue orders and returns how many changed |
| `UserCleanup.UserCleanupService.ExpireUnpaidOrders` | src/user/user-cleanup.service.ts:80-152 | the find-then-loop form, run at one moment, is the set update over everything, and counts the orders it writes |
| `Expiry.LoopIsSweep` | src/user/user-cleanup.service.ts:88-139 | find-then-loop equals the set update at one moment |
| `Expiry.SweptExactly` | src/order/order.service.ts:1428-1463 | a sweep expires exactly the CREATED, unpaid orders older than 24 hours of the given store, ids and day, as far as each is given |
| `Expiry.StaleLoop` | src/user/user-cleanup.service.ts:118-132 | against a table that moved on after the query, the loop still equals the set update exactly when every listed order is still overdue or already EXPIRED |
| `LazyExpiry.LazyEqualsEager` | src/order/order.service.ts:1423-1476 | over any run of webhooks, polls, retries and sweeps, sweeping on the way and at the end gives the same selected orders, ledger, Bigo rows and completions as sweeping only at the end |
| `LazyExpiry.RunsAgree` | src/bravive/bravive.service.ts:252-371 | during such runs the eager and the lazy state differ only in overdue orders that the eager one has expired |
| `Metrics.GroupMeaning` | src/metrics/metrics.service.ts:298-374 | a product has a row exactly when it was ordered in the month, with the sum of its completed prices and its number of orders |
| `Metrics.DaysMakeTheMonth` | src/metrics/metrics.service.ts:123-293 | daily sales and orders over a month's days add up to the monthly row |
| `Metrics.StatusesPartitionTheMonth` | src/metrics/metrics.service.ts:217-262 | completed, expired, refunded and open orders partition the month; with and without coupon partition the completed ones |
| `Metrics.ProductsMakeTheMonth` | src/metrics/metrics.service.ts:298-374 | the product rows add up to the monthly row, up to orders without a product |
| `Metrics.PercentagesSumTo100` | src/metrics/metrics.service.ts:611-627 | in a month with sales the percentages sum to 100 if and only if no sale lacks a product |
| `Metrics.RecalculationIsExact` | src/metrics/metrics.service.ts:26-51 | recalculating leaves exactly the from-scratch day, month and product rows, and recalculating again changes nothing |
| `Metrics.ProductsGrow` | src/metrics/metrics.service.ts:331-374 | a product once ordered in a month stays among its products, so upserts leave no stale row |
| `MetricsServices.MetricsService.RecalculateDailyMetrics` | src/metrics/metrics.service.ts:123-182 | the counting and reducing loop writes the aggregate of the day over the whole order table, and no other row |
| `MetricsServices.MetricsService.RecalculateMonthlyMetrics` | src/metrics/metrics.service.ts:187-293 | the seven counters of the loop and the count of confirmed new customers are the aggregates of the month |
| `MetricsServices.MetricsService.CountNewCustomers` | src/metrics/metrics.service.ts:247-257 | the number of users of the store who joined in the window and confirmed their address |
| `MetricsServices.MetricsService.RecalculateMonthlyByProductMetrics` | src/metrics/metrics.service.ts:298-374 | the grouping loop and the upserts write the month's product aggregates |
| `MetricsServices.MetricsService.UpdateMetricsForOrder` | src/metrics/metrics.service.ts:57-118 | nothing unless the order exists and is COMPLETED; otherwise the rows of its creation day and month |
| `MetricsServices.MetricsService.RecalculateStoreMetrics` | src/metrics/metrics.service.ts:26-51 | first the sweep of the store up to the date, then the three recalculations over the swept table |
| `MetricsMeaning.DayRowCounts` | src/metrics/metrics.service.ts:135-166 | the day row counts the orders of that store created on that day and adds up the prices of the COMPLETED ones |
| `MetricsMeaning.MonthRowCounts` | src/metrics/metrics.service.ts:196-257 | the month row, column by column: the store's orders created in the month, the COMPLETED, EXPIRED and REFOUNDED ones, those with and without a coupon, and the confirmed new users |
| `MetricsMeaning.ProductRowCounts` | src/metrics/metrics.service.ts:307-352 | a product has a row exactly when one of the store's orders of the month is for it, and the row counts those |
| `MetricsMeaning.OtherStoresDoNotCount` | src/metrics/metrics.service.ts:135-142 | changing orders of other stores leaves a store's day, month and product rows as they are |
| `MetricsMeaning.RefreshCounts` | src/metrics/metrics.service.ts:26-51 | from every reachable state of any interleaving a refresh stores rows that count exactly so |
| `MetricsMeaning.TallyCounts` | src/metrics/metrics.service.ts:57-118 | the update after a completed order stores such rows for its store, creation day, creation month and product |
| `Engine.PollIsWebhook` | src/bravive/bravive.service.ts:84-217 | from every state a poll of APPROVED, REJECTED or CANCELED gives exactly the state of that webhook, and any other poll changes nothing |
| `BraviveServices.BraviveService.HandleWebhook` | src/bravive/bravive.service.ts:252-371 | lookup, absorption of the target status and the switch over the handlers give the engine's webhook transition on all tables |
| `BraviveServices.BraviveService.CheckAndUpdatePaymentStatus` | src/bravive/bravive.service.ts:84-217 | the poll gives the engine's poll transition, and reports an update exactly when the mapped status differs from the payment's |
| `BraviveServices.BraviveService.HandleApprovedPayment` | src/bravive/bravive.service.ts:396-564 | first transaction, dispatch, second transaction, coupon and metrics, each conditional on the previous |
| `BraviveServices.BraviveService.FinishDelivery` | src/bravive/bravive.service.ts:478-564 | after a delivery: completed and recharged, the coupon confirmed under today's month, the metrics rows updated |
| `BraviveServices.BraviveService.HandleRejectedOrCanceledPayment` | src/bravive/bravive.service.ts:576-625 | payment and recharge rejected, order EXPIRED, all else unchanged |
| `BraviveServices.BraviveService.HandleRefundedPayment` | src/bravive/bravive.service.ts:631-649 | order REFOUNDED and coupon reverted, payment and recharge unchanged |
| `BraviveServices.BraviveService.HandleChargebackPayment` | src/bravive/bravive.service.ts:651-701 | payment and recharge rejected, order REFOUNDED, coupon reverted |
| `StatusTexts.ApprovedText` | src/bravive/bravive.service.ts:330-340 | the text "APPROVED" in any case, by webhook or poll, for an unapproved payment leaves the payment approved; with something to send and a delivery the order is COMPLETED, recharged by a fulfilling row and its coupon confirmed under today's month, otherwise it is left PROCESSING and nothing else moves |
| `StatusTexts.RejectedText` | src/bravive/bravive.service.ts:342-349 | "REJECTED" and "CANCELED", by webhook or poll, leave payment and recharge rejected and the order EXPIRED, and change nothing else |
| `StatusTexts.RefundedText` | src/bravive/bravive.service.ts:351-353 | "REFUNDED" leaves the order REFOUNDED with payment and recharge kept and the coupon reverted under the creation month; a poll does nothing |
| `StatusTexts.ChargebackText` | src/bravive/bravive.service.ts:355-357 | "CHARGEBACK" leaves payment and recharge rejected, the order REFOUNDED and the coupon reverted; a poll does nothing |
| `StatusTexts.OtherText` | src/bravive/bravive.service.ts:359-370 | every other text, or none, leaves all tables as they were, for a poll also the two above |
| `StatusTexts.RepeatedText` | src/bravive/bravive.service.ts:314-325 | a text whose target the payment has reached changes nothing |
| `StatusTexts.UnknownPayment` | src/bravive/bravive.service.ts:262-300 | any text for an id that no payment has changes nothing |
| `StatusTexts.PollReport` | src/bravive/bravive.service.ts:92-155 | a poll reports an update exactly when the text maps to a payment status other than the current one |
| `StatusTexts.DeliveredIsCounted` | src/bravive/bravive.service.ts:551-560 | right after a delivery the day, month and product rows of the order's store count exactly that store's orders |
| `Notices.CaseDoesNotMatter` | src/bravive/bravive.service.ts:302-312 | any two spellings that differ in the case of letters only are the same notice |
| `Notices.UpperIsCaseless` | src/bravive/bravive.service.ts:302-312 | two texts have one upper-case form if and only if they differ in the case of letters only |
| `Coherence.StatusesCohere` | src/bravive/bravive.service.ts:314-701 | in every state of every run of atomic events: PROCESSING is paid and pending, COMPLETED is paid and recharged, payment and recharge are rejected together and only when EXPIRED or REFOUNDED, and an approved recharge has a SUCCESS row that asks for the order |
| `Coherence.ExactlyNine` | src/bravive/bravive.service.ts:396-701 | a triple of payment, order and recharge status is that of some order in some run if and only if it is one of the nine |
| `Coherence.StepKeepsCoherence` | src/bravive/bravive.service.ts:252-371 | every event keeps all orders within the nine triples and approved recharges delivered |
| `Races.ActionKeepsNine` | src/bravive/bravive.service.ts:481-541 | with transactions interleaved, an action keeps all orders within the nine triples if and only if it is neither a completion after the payment stopped being approved nor a stale EXPIRED write to a paid order |
| `Races.NineUnlessLate` | src/bravive/bravive.service.ts:405-541 | an interleaving stays within the nine triples throughout if and only if no such action occurs in it |
| `Races.ApprovedMeansDelivered` | src/bravive/bravive.service.ts:460-541 | under any interleaving an order with an approved recharge has a SUCCESS row under its number |
| `Races.RechargedAsOrdered` | src/bravive/bravive.service.ts:440-456 | under any interleaving an order with an approved recharge has a SUCCESS row under its number whose request, and every request sent for it, asks for the order's diamonds, for its bigoId, in BRL, at 8.8 cents a diamond to the nearest cent |
| `Races.HandlersSendOrders` | src/bravive/bravive.service.ts:440-456 | every request sent for the row that a handler awaits asks for that handler's order in the same way |
| `Engine.DispatchAsks` | src/bravive/bravive.service.ts:440-451 | what is dispatched for an order asks for exactly that |
| `Races.CoherentUnlessLate` | src/bravive/bravive.service.ts:405-541 | every order is coherent throughout an interleaving, in its triple and its delivery, if and only if neither race occurs |
| `Races.ExecKeepsDelivery` | src/bigo/bigo.service.ts:97-113 | every action keeps each waiting handler on an unanswered row of its own, and each handler past the answer on a delivered order |
| `Races.RejectedButDelivered` | src/bravive/bravive.service.ts:405-625 | a REJECTED notice between Bigo's answer and the second transaction leaves a COMPLETED order with a rejected payment |
| `Races.PaidButExpired` | src/user/user-cleanup.service.ts:88-132 | an order paid between the expiry loop's query and its write ends EXPIRED with an approved payment |
| `Replay.ReplayIsAbsorbed` | src/bravive/bravive.service.ts:314-325 | the same webhook twice in a row changes nothing the second time if and only if it is not a refund of an unrejected payment with a coupon usage |
| `Replay.RefundRevertsAgain` | src/bravive/bravive.service.ts:631-649 | a repeated refund transaction changes nothing exactly when the order has no usage of a known coupon |
| `Replay.RefundOfUnpaidOrder` | src/order/order.service.ts:1098-1147 | a reachable state in which refunding an order that was never paid leaves timesUsed at -1 and a sales total of -1000 cents with no monthly row |
| `Replay.RejectionIsFinal` | src/bravive/bravive.service.ts:314-391 | once a payment is rejected, no run without an APPROVED for it changes its statuses, postings or completions |
| `CouponRules.OneTimeStep` | src/order/order.service.ts:1262-1333 | a step keeps one-time coupons unique among live orders if and only if it does not approve a dead order with a live rival |
| `CouponRules.FirstPurchaseStep` | src/order/order.service.ts:1243-1260 | a step keeps first-purchase coupons unique among a user's unexpired orders of a store if and only if it does not take an order with such a rival out of EXPIRED |
| `CouponRules.OneTimeCouponsStayUnique` | src/order/order.service.ts:1243-1333 | a run keeps a one-time coupon to one live order per bigoId and per user throughout if and only if no step meets such a rival |
| `CouponRules.FirstPurchaseStaysUnique` | src/order/order.service.ts:1243-1333 | the same for first-purchase coupons |
| `CouponRules.RevivedOrdersClash` | src/bravive/bravive.service.ts:396-437 | a reachable run in which an expired order is paid after its coupon was used again, so that a one-time and first-purchase coupon stands on two live orders |
| `CreationRaces.ClashStep` | src/order/order.service.ts:860-931 | with validation and insertion apart, an action keeps one-time coupons unique if and only if it does not insert or revive an order beside a live rival |
| `CreationRaces.UniqueUnlessClash` | src/order/order.service.ts:676-931 | an interleaving keeps one-time coupons unique throughout if and only if no action in it does so |
| `CreationRaces.FirstClashStep` | src/order/order.service.ts:1243-1260 | likewise for first-purchase coupons: an action keeps them unique if and only if it does not insert an order, or take one out of EXPIRED, beside another |
| `CreationRaces.FirstUniqueUnlessClash` | src/order/order.service.ts:676-931 | an interleaving keeps first-purchase coupons unique throughout if and only if no action in it does so |
| `CreationRaces.BothSucceed` | src/order/order.service.ts:676-931 | two requests validated before either is inserted both get a one-time, first-purchase coupon |
| `CouponRules.CreateKeepsUnique` | src/order/order.service.ts:860-931 | a created order never clashes with an existing one over a one-time or first-purchase coupon |
| `UsageLimits.LimitStep` | src/order/order.service.ts:1227-1230 | a step keeps every coupon within maxUses if and only if it does not deliver an order whose coupon has no use left |
| `UsageLimits.LimitsKeptUnlessOverused` | src/order/order.service.ts:1227-1230 | a run keeps every coupon within maxUses throughout if and only if no step delivers an order whose coupon has no use left |
| `UsageLimits.LimitIsExceeded` | src/order/order.service.ts:1227-1230 | a reachable state in which a coupon with maxUses 1 has been used twice, because both orders were validated before either was confirmed |
| `Interleaving.AtMostOnce` | src/bravive/bravive.service.ts:405-477 | under any interleaving an order number has at most one Bigo row, the completing transaction of an order runs at most once and only with such a row, and each coupon of the order is confirmed at most once |
| `Interleaving.ConfirmedWithCompletion` | src/bravive/bravive.service.ts:478-548 | under any interleaving the known coupon an order carries has been confirmed exactly as often as the order was completed, once no handler stands between the two |
| `Interleaving.BooksBalance` | src/order/order.service.ts:995-1147 | under any interleaving the coupon counters are the signed sums of their postings and the influencers' books differ by the unbooked reverts |
| `Bookkeeping.AgreementStep` | src/order/order.service.ts:1024-1037 | an action keeps the books of all influencers in agreement if and only if it is not a refund or chargeback of a positive amount of an influencer without a row for the order's month |
| `Bookkeeping.BooksAgreeUnlessUncovered` | src/order/order.service.ts:1024-1147 | the books agree throughout an interleaving if and only if no such action occurs in it |
| `Interleaving.CouponCounts` | src/order/order.service.ts:1049-1147 | under any interleaving timesUsed is the number of confirmed, unreverted orders if and only if no order has more reverts than confirms; then the sales are their total and neither counter is negative |
| `Interleaving.QueueIsSound` | src/bigo/bigo-retry.service.ts:54-243 | the queue invariant holds in every state of the whole engine under any interleaving |
| `Interleaving.RetriesKeepTime` | src/bigo/bigo-retry.service.ts:78-129 | both hold of every row under any interleaving of the whole engine |
| `Interleaving.RefreshIsExact` | src/metrics/metrics.service.ts:26-51 | from every reachable state a refresh leaves the day, month and product rows equal to the aggregates of the swept table, and a second refresh changes nothing if and only if no selected order has become overdue since |
| `Interleaving.ExecKeepsSound` | src/bravive/bravive.service.ts:396-701 | every single transaction keeps the queue, ledger, at-most-once and metrics invariants together |
| `Atomicity.HandlerRunsThrough` | src/bravive/bravive.service.ts:396-564 | the separate transactions of an APPROVED notice, run without interruption, are the atomic handler |
| `Atomicity.EventIsUninterrupted` | src/bravive/bravive.service.ts:252-371 | every atomic event is the uninterrupted run of its transactions |
| `Atomicity.AtomicRunsAreInterleavings` | src/bravive/bravive.service.ts:252-371 | every run of atomic events is one of the interleavings, so the results above hold for it too |
| `Banners.DescendingSpliceKeeps` | src/store/store.service.ts:258-303 | batch deletion leaves exactly the unselected banners in their order, ignoring invalid indices, if and only if no position is given twice while a later one is kept |
| `Banners.DistinctIndicesDeleteExactly` | src/store/store.service.ts:296-303 | in particular for pairwise distinct indices |
| `Banners.EveryIndexIsJudged` | src/store/store.service.ts:262-273 | every index is either valid or reported invalid, as often as it was given |
| `Banners.UploadedInOrder` | src/store/store.service.ts:382-389 | the successful uploads are kept in their order, and nothing else |
| `Banners.StoreService.RemoveMultipleBanners` | src/store/store.service.ts:245-326 | the error cases, the counts, and the exact condition under which the stored list is the unselected banners; never above five |
| `Banners.StoreService.RemoveBanner` | src/store/store.service.ts:195-243 | a valid index removes that banner and keeps the order of the others; an invalid one changes nothing |
| `Banners.StoreService.AddBanner` | src/store/store.service.ts:130-193 | one banner more exactly when fewer than five are stored and the upload succeeds |
| `Banners.StoreService.AddMultipleBanners` | src/store/store.service.ts:328-410 | only the files that fit into the free slots are uploaded, and the successes are appended; never above five |
| `Calendar.MonthWindow` | src/metrics/metrics.service.ts:187-215 | an instant lies between the first and last millisecond of a month exactly when that is its month |
| `Calendar.DayInMilliseconds` | src/metrics/metrics.service.ts:127-132 | a day is the 86 400 000 milliseconds from its midnight on |
| `Calendar.MonthsOfTheYear` | src/metrics/metrics.service.ts:187-195 | months have their Gregorian lengths |
| `Calendar.YearInDays` | src/metrics/metrics.service.ts:187-195 | years have 365 or 366 days by the Gregorian rule |

## Left out

- HTTP, signing, encryption, tokens, e-mail, server-sent events and storage: Bravive and Bigo are the notices and answers that arrive, whatever they are.
- Prisma mechanics and database failures: tables are sequences, transactions are atomic, and order numbers, bu_orderids and metrics keys are unique.
- Precheck log rows and the disable endpoint, whose retries create fresh rows; the termination results are about rs_recharge rows.
- The wording of error messages beyond the code they carry, response bodies, update timestamps and QR codes, which no modelled branch reads.
- Rescodes that are missing, fractional or beyond 2^53; a rescode is any integer.
- Floating point: prices and discounts are exact cents with halves rounded up.
- Order creation's checks of user, package, payment method and Bigo precheck, its five-second duplicate lookup and its five attempts at a fresh order number; the number is an input, and a taken one is an error.
- Negative list prices.
- Coupon and influencer administration during a run: a coupon's terms are fixed once the run starts.
- Configuration: order expiration is 24 hours, the dollar rate is 5.5 and retries follow the built-in delays.
- Daylight saving and time zones: the offset in src/utils/date.util.ts:33-42 cancels, so the cut-off is now minus the hours.
- The dashboard's images and names, and the bookkeeping of the metrics cron; any change of the user table is one event.
- The dispute handler's timestamp and the automatic restart of stuck retries, which is commented out in the source.
- How late a timer actually fires: never before it is due, otherwise at any time.
- RetryClock.FourthSendIsLate: takes it that the clock does not run backwards between the notes of one row.
- Locale rules of upper-casing beyond ASCII.
- Collisions of generated seqids; they are non-empty and otherwise arbitrary.
- MetricsServices.MetricsService.RecalculateMonthlyMetrics: the query for users is one snapshot with the query for orders.
- LazyExpiry.LazyEqualsEager: excludes order creation between the sweeps, because first-purchase and one-time validation does read EXPIRED.
