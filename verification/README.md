# Verified core of the marketplace backend

A Dafny model of the six parts of the backend that hold real invariants, with proofs of what each keeps over
every run: the watermark search index, the transactional outbox and its dead letters, the expiring Redis lock
with the two protocols built on it (webhook deduplication, idempotency keys), checkout with its stock ledger and
the order life cycle, escrow and payouts with the balance and the ledger, and the deal, contract and forecast
logic.

`dafny verify dfyconfig.toml` checks everything.

## How to read it

One module per component. A table is a `map` or a `seq` of rows, and a component is a `State` with one `Action`
for each thing that can happen next. `Step` is total: an action that cannot happen changes nothing. `Run` folds
`Step` over any sequence of actions, so a theorem about `Run` is about every interleaving and every run.

* `RedisLock`, `WebhookDedup`, `Idempotency`, `Outbox` and `SearchIndex` take one step per awaited call. Any
  call may throw, any process may die between two calls, and time may pass between any two steps.
* `Checkout`, `Orders`, `Deals`, `Contracts` and `Finance` take one step per service method. Where a call in it can
  throw half way, the action says which one, and the step which of the writes were made. `Transfers`,
  `Balances`, `Payers` and `Withdrawals` prove what follows from `Finance`.
* Each machine's calls are also told from outside: when a call is accepted, which rows it writes and what is in them, and
  which call brings about each status, by the fields of the state alone and not by the machine's own functions.
* Beside each machine stands a class whose methods do what the services do, with their loops and in their order
  of writes. Each is proved to take the machine's step (`ensures View() == Step(old(View()), ...)`).
* Where a claim does not always hold, the theorem names the call that breaks it, by the guard of the branch that
  does, and proves both directions: from a state that has the property, this call and no other one loses it. Or it
  names the states from which the property can still be lost. `Env` flags remain where the assumption is about
  timing or about what a service may do at all; such a theorem says that all runs have the property with the flag,
  and that some run has not without it.

## What turned out not to hold as stated

The code is modelled as it is. In these places it does less than its documentation or its shape suggests.

* **Overlapping syncs** of one collection can leave a stale document below the cursor, by an upsert that puts an
  outdated version over a document that shows its row, and in no other way (`SearchIndex.AgreesUnlessSpoilt`,
  `SearchIndex.DisagreesIff`). Incremental syncs never mend it: it stays until its row is written again or a full sync
  begins (`SearchIndex.OverlapLeavesStaleDocument`, `SearchIndex.StuckRun`). The reindex endpoint and the schedule share
  no lock.
* **PUBLISHED can become FAILED**: the dead-letter listener writes without looking at the status. It takes a last
  attempt whose write of PUBLISHED committed and threw; or reads that throw, and a job that is live, or forgotten by
  `removeOnComplete` while a poll or the fast path still holds the row's id (`Outbox.PublishedCanFailIff`,
  `Outbox.PublishedBecomesFailed`).
* **The poller is not a net for every pending row**: docs/EVENT_FLOW.md and docs/adr/0002-domain-events-outbox.md
  call it the safety net, but a row whose job failed for good keeps its job id taken, so adding it again does
  nothing (`Outbox.DeliverableIff`).
* **A CHARGE row can be lost for good**: it is written after the transaction, and every retry returns at the status
  check (`WebhookDedup.ChargeReachableIff`, `WebhookDedup.ChargeCanBeLost`).
* **A payment can be committed twice** by a delivery that read it as not settled and commits after its lock ran out
  and another delivery committed (`WebhookDedup.UnsoundStepIff`, `WebhookDedup.CanTurnUnsoundIff`). A request's
  handler can complete twice in the same way, or because its answer could not be saved
  (`Idempotency.ExpiredLockRunsTwice`, `Idempotency.FailedSaveRunsTwice`).
* **A refund request** is checked against what was processed and not against what is pending, so that several can be
  approved beyond the subtotal (`Orders.UncoveredIff`, `Orders.DecisionsSafeIff`, `Orders.TwoPendingOverRefund`).
* **A cancelled order can move again** through a refund still pending or a shipment, and then be cancelled and
  restocked a second time (`Orders.StaysCancelledIff`, `Orders.RestockedOnceIff`).
* **A transfer can be made twice**: `createTransfer` is called without an idempotency key, so when its answer is lost,
  or writing the split's row throws, the split stays PENDING and can be released again
  (`Transfers.TransferredAgainIff`, `Balances.TransferredTwice`).
* **A payment's money can go both ways**, back to the payer and on to the recipient: after a refund whose answer or
  rows were lost, or after a transfer lost in the same way when the share was read before a fee still pending, for the
  splits are read in no stated order (`Transfers.PaidBothWaysIff`, `Transfers.OneWayRun`,
  `Balances.TransferredAndRefunded`).
* **Balance and ledger part** when a transfer is not recorded, when Stripe fails a payout at once, when a withdrawal
  cannot be marked as failed, when a failed payout is reported otherwise later, or when the compensating row throws;
  the retry never repairs the last one (`Balances.DisagreesIff`, `Balances.LostCompensationStays`).
* **A PDF that fails** leaves a version the event history does not know, and under a partially signed contract a
  latest version without a signature (`Contracts.HistoryIff`, `Contracts.CountStepIff`).
* **Rising months can be called a decline** when their mean is negative, because the slope is taken relative to the
  mean (`Prediction.GrowthCalledDownIff`, `Prediction.NegativeGrowthIsCalledDown`). Its only caller passes sums of order
  subtotals.

## Model

| member | source | states |
|---|---|---|
| RedisLock.InvRun | src/common/locking/redis-lock.service.ts:7-59 | in every run of any clients and keys, each unexpired hold is exactly what the store keeps for its key, and no two holds share a token |
| RedisLock.MutualExclusion | src/common/locking/redis-lock.service.ts:21-28 | in every run at most one client per key holds an unexpired lock |
| RedisLock.StaleReleaseIsHarmless | src/common/locking/redis-lock.service.ts:7-36 | whenever a client releases, however late, the entry another client still holds stays as it is |
| RedisLock.BodyRunsOnlyAsHolder | src/common/locking/redis-lock.service.ts:42-59 | the body starts only right after the store granted the lock to this client alone, and is left only towards the release or by a crash |
| RedisLock.AcquiredIff | src/common/locking/redis-lock.service.ts:21-28 | in every run a client that asks gets the lock if and only if no unexpired entry is stored; the entry then runs for the whole TTL, and no other key is touched |
| RedisLock.WholeSection | src/common/locking/redis-lock.service.ts:42-59 | taking a free lock, the body and the release, however long the body took, leave the key free and, if the TTL sufficed, the store without it |
| RedisLock.ReleaseFrees | src/common/locking/redis-lock.service.ts:30-36 | the release of a client that still holds the key frees it |
| RedisLock.LockComesFree | src/common/locking/redis-lock.service.ts:21-28 | with or without a release, in every later run: once the deadline has come, what the key holds, if anything, is not this client's entry |
| RedisLock.RedisLockService.Acquire | src/common/locking/redis-lock.service.ts:21-28 | succeeds if and only if no unexpired entry is stored, and then stores exactly the token with its expiry |
| RedisLock.RedisLockService.Release | src/common/locking/redis-lock.service.ts:30-36 | deletes the entry if and only if it is unexpired and carries the caller's token |
| RedisLock.RedisLockService.WithLock | src/common/locking/redis-lock.service.ts:42-59 | skipped without effect while the key is held; otherwise the body's own outcome, thrown or returned, with the key free again; if the release throws, that replaces the outcome and the entry stays until it expires; no other key is touched |
| WebhookDedup.InvRun | src/payments/services/webhook.service.ts:32-81 | while no lock runs out on a delivery that has still to commit, every run keeps one such delivery at a time, one delivery between its commit and its CHARGE row, and what each delivery knows at its stage |
| WebhookDedup.LockTakenIff | src/payments/services/webhook.service.ts:52-55 | a delivery past its first check takes the lock for thirty seconds if it is free, and ends otherwise |
| WebhookDedup.RecordedEventIsSkipped | src/payments/services/webhook.service.ts:47-58 | once the event is recorded, a delivery that checks ends before the lock, or right after taking it |
| WebhookDedup.FaultLeadsToRelease | src/common/locking/redis-lock.service.ts:42-59 | any call that throws under the lock writes nothing and leads to the release; only a release that throws keeps the entry |
| WebhookDedup.WritesIff | src/payments/services/webhook.service.ts:55-134 | which call of which delivery writes the status, the outbox row, the CHARGE row and the record, and that nothing else does |
| WebhookDedup.SoundIffTtlRespected | src/payments/services/webhook.service.ts:47-134 | if no lock runs out on a delivery that has still to commit, in every run the payment enters SUCCEEDED at most once, exactly with its one outbox row of the right amount, and is charged at most once; without that assumption some run breaks it |
| WebhookDedup.WeakRun | src/payments/services/webhook.service.ts:62-134 | what every run keeps with any timing: the payment is SUCCEEDED exactly if it has an outbox row, the rows carry its amount, and a single commit has at most one CHARGE row |
| WebhookDedup.UnsoundStepIff | src/payments/services/webhook.service.ts:98-118 | with any timing, from a sound state: the step that breaks soundness is the commit of a delivery while the payment is already SUCCEEDED, and no other |
| WebhookDedup.CanTurnUnsoundIff | src/payments/services/webhook.service.ts:91-118 | with any timing, a sound state can still turn unsound if and only if the payment is not SUCCEEDED, or a delivery that read it so has still to commit |
| WebhookDedup.ExpiredLockCommitsTwice | src/payments/services/webhook.service.ts:52-78 | from every state with the payment not settled, a run in which the lock runs out and two deliveries both commit |
| WebhookDedup.ChargeReachableIff | src/payments/services/webhook.service.ts:98-133 | with any timing, once SUCCEEDED the CHARGE row can still appear if and only if it is there already, or a delivery past its commit is alive before writing it, or one that read the payment before has still to commit |
| WebhookDedup.ChargeCanBeLost | src/payments/services/webhook.service.ts:118-133 | a run that records the event as processed with the payment SUCCEEDED and no CHARGE row |
| WebhookDedup.WebhookService.CommitTransaction | src/payments/services/webhook.service.ts:102-118 | the status and the outbox row are written in one step |
| WebhookDedup.WebhookService.HandleLocked | src/payments/services/webhook.service.ts:55-81 | the locked function run without interruption: the event is recorded and the lock freed, a settled payment is untouched, and any other gets SUCCEEDED, one outbox row and one CHARGE row of its amount |
| Idempotency.EveryAnswerIsTheSavedOne | src/common/idempotency/idempotency.interceptor.ts:45-75 | in every run, even with expired locks and failed saves, every successful answer is the one saved body and goes to the saved path |
| Idempotency.OneAnswerStep | src/common/idempotency/idempotency.interceptor.ts:45-75 | each step keeps that, and never replaces a saved body |
| Idempotency.AtMostOnceIff | src/common/idempotency/idempotency.interceptor.ts:36-76 | in every run the handler completes at most once, if and only if no critical part outlives the TTL and saving never fails |
| Idempotency.CompletesAgainIff | src/common/idempotency/idempotency.interceptor.ts:45-72 | with any timing and any faults, from any state: the handler can complete once more if and only if nothing is saved or a request is at its handler |
| Idempotency.ExpiredLockRunsTwice | src/common/idempotency/idempotency.interceptor.ts:36-43 | a run in which the lock expires under a slow handler and a second request completes it again |
| Idempotency.FailedSaveRunsTwice | src/common/idempotency/idempotency.interceptor.ts:61-72 | a run in which saving throws after the handler completed and the retry completes it again |
| Idempotency.LockTakenIff | src/common/idempotency/idempotency.interceptor.ts:36-43 | the lock is taken for ten seconds if it is free, and the request is told of the conflict otherwise |
| Idempotency.FaultAndLock | src/common/idempotency/idempotency.interceptor.ts:45-76 | a handler or a save that throws answers with the error and gives the lock back; a lookup or a release that throws leaves it to expire |
| Idempotency.ReplayIff | src/common/idempotency/idempotency.interceptor.ts:49-59 | a known key answers with the saved body if and only if the path is the saved one, and with a conflict otherwise |
| Idempotency.WritesIff | src/common/idempotency/idempotency.interceptor.ts:61-72 | which call counts as a completion and which one saves, under the request's own path; a saved row stays |
| Idempotency.FailedHandlerLeavesKeyReusable | src/common/idempotency/idempotency.interceptor.ts:61-75 | after a handler threw, in every later run in which none completes, as soon as the lock is free the next request with the key reaches the handler |
| Idempotency.NothingKeptRun | src/common/idempotency/idempotency.interceptor.ts:61-75 | in every run in which no handler completes, nothing is saved and nobody has anything to save |
| Idempotency.IdempotencyInterceptor.Intercept | src/common/idempotency/idempotency.interceptor.ts:25-77 | an uninterrupted request: conflict while the key is locked; otherwise the handler's answer, saved; or the saved answer for the same path and a conflict for another; the lock is free afterwards |
| Outbox.InvRun | src/events/outbox.processor.ts:26-82 | every interleaving of fast path, poller, attempts and listener keeps the invariant tying each row's status to its job and its number of hand-offs |
| Outbox.DeliveryBounds | src/common/queue/job-options.constant.ts:8-13 | in every run an event is handed to the bus at most three times, and a PUBLISHED one at least once |
| Outbox.ExactDelivery | src/events/outbox.processor.ts:48-81 | if the writes of an attempt never fail: a PENDING row was handed over only by the attempt under way, a PUBLISHED one exactly once; a FAILED one never, unless a published row could be dead-lettered, and after three counted attempts if nothing else throws |
| Outbox.HandedOverIff | src/events/outbox.processor.ts:38-66 | an event is handed to the bus if and only if an attempt loads its row while PENDING and its type is known |
| Outbox.PublishedIff | src/events/outbox.processor.ts:68-71 | a row becomes PUBLISHED if and only if an attempt's write of it commits, whether or not it then throws |
| Outbox.DeadLetteredIff | src/events/outbox-dead-letter.listener.ts:19-35 | a row becomes FAILED if and only if the listener hears of its dead job, and never PENDING again |
| Outbox.CountedIff | src/events/outbox.processor.ts:72-80 | a failed attempt is counted by the write in the catch and by nothing else |
| Outbox.FailedWriteIsCaught | src/events/outbox.processor.ts:68-80 | a write of PUBLISHED that throws leads into the catch of the same attempt |
| Outbox.ThirdThrowIsFinal | src/common/queue/job-options.constant.ts:8-13 | an attempt that throws is retried after the first and the second time, and the job is dead after the third |
| Outbox.EnqueuedIff | src/events/outbox-publisher.service.ts:40-62 | a row without a job gets one if and only if its fast path runs or a poll that read it adds it |
| Outbox.PollReadsIff | src/events/outbox-publisher.service.ts:51-58 | a poll reads at most one hundred rows, all PENDING and committed at least ten seconds ago |
| Outbox.YoungRowsAreLeft | src/events/outbox-publisher.service.ts:51-58 | whatever runs in the ten seconds after a row's commit, no poll can read it |
| Outbox.PublishedCanFailIff | src/events/outbox-dead-letter.listener.ts:19-35 | from every reachable state, a PUBLISHED row can still become FAILED if and only if its job is dead or on its last attempt although the write of PUBLISHED committed; or reads can throw and its job is live; or reads can throw, its job is or can be forgotten, and a poll or the fast path still holds its id; otherwise it stays PUBLISHED in every run |
| Outbox.FailedIsFinal | src/events/outbox-dead-letter.listener.ts:19-35 | FAILED never changes in any run, whatever fails |
| Outbox.PublishedBecomesFailed | src/events/outbox-dead-letter.listener.ts:19-35 | a run from the start in which a published row turns FAILED |
| Outbox.PollerDelivers | src/events/outbox-publisher.service.ts:51-71 | from any state, a pending row without a job can be delivered by way of the poller alone |
| Outbox.DeliverableIff | src/events/outbox-publisher.service.ts:40-71 | a pending row can still become PUBLISHED if and only if its last attempt is not lost: the job id of a dead job stays taken |
| Outbox.LostForGood | src/common/queue/job-options.constant.ts:8-13 | after a lost last attempt, no run ever publishes the row or hands the event over again |
| Outbox.OutboxServices.EnqueuePendingBatch | src/events/outbox-publisher.service.ts:51-71 | the loop over the rows read: exactly those without a job get one, nothing else changes |
| SearchIndex.InvStep | src/search/reindex.service.ts:73-109 | with one sync at a time every step of writers, clock and syncer keeps the invariant, and the cursor never goes back |
| SearchIndex.InvRun | src/search/reindex.service.ts:26-152 | so does every run, wherever a sync is broken off |
| SearchIndex.AgreesIffExclusive | src/search/reindex.service.ts:41-109 | if syncs never overlap, in every run each row older than the cursor has exactly its projected document and the index holds no foreign id; if they may, some run breaks it |
| SearchIndex.AgreesUnlessSpoilt | src/search/reindex.service.ts:73-152 | however syncs overlap and break off, in every run in which no upsert puts an outdated version over a document that shows its row, each row older than the cursor has exactly its projected document |
| SearchIndex.OnlyProjectionTells | src/search/reindex.service.ts:94-147 | the projection of a product, brand or drop is the one document each of whose fields is the row's own, with the empty text for a missing description |
| SearchIndex.EveryFieldShown | src/search/reindex.service.ts:88-152 | in every such run each row older than the cursor has a document that says, field by field, what the row says now, and no document is without a row |
| SearchIndex.DisagreesIff | src/search/reindex.service.ts:88-152 | from every such run, a step ends the agreement if and only if it is such an upsert for a row below the cursor; saving a cursor never does |
| SearchIndex.StuckRun | src/search/reindex.service.ts:41-86 | a row below the cursor that is shown wrongly and that no sync under way will reach stays so in every run without a write of it and without a full sync |
| SearchIndex.OverlapLeavesStaleDocument | src/search/reindex.service.ts:88-109 | a run of two overlapping syncs, the older one dying after its upserts, that ends in such a state |
| SearchIndex.IncrementalEqualsFull | src/search/reindex.service.ts:73-109 | upserting the rows at or after any cursor the index agrees with gives the projection of the whole table, the same as from the epoch |
| SearchIndex.OlderStay | src/search/reindex.service.ts:88-109 | a sync leaves the documents of rows older than its cursor as they were |
| SearchIndex.UndisturbedSync | src/search/reindex.service.ts:26-65 | with no other sync under way, an undisturbed incremental sync from a state that agrees, and a full one from any state, ends with the whole projection and the cursor at the start time |
| SearchIndex.ReindexService.SyncCollection | src/search/reindex.service.ts:88-152 | the loop upserts exactly the rows read, counts them and saves the start time; every row read then has a document that says what it says, field by field, and the documents of older rows stay; from the epoch, or from the cursor of an index that agrees below it, exactly the rows of the table have such documents |
| SearchIndex.ReindexService.ReindexAll | src/search/reindex.service.ts:26-35 | from any index, also one that disagrees with the table: afterwards exactly the rows of the table have a document, and each says what its row says, field by field |
| SearchIndex.ReindexService.ReindexIncremental | src/search/reindex.service.ts:41-65 | upserts the rows read from the stored cursor and counts them; if the index agreed below the cursor, exactly the rows of the table then have documents, field by field |
| Checkout.BrandsDistinctAndComplete | src/orders/services/checkout.service.ts:60-65 | the grouping's keys are distinct and are exactly the brands of the lines |
| Checkout.BrandsInOrder | src/orders/services/checkout.service.ts:60-65 | the keys stand in the order in which their brands first appear in the cart |
| Checkout.OfBrandInOrder | src/orders/services/checkout.service.ts:60-65 | a group is the lines at the places of its brand, every place once and in cart order |
| Checkout.RegroupKeepsLines | src/orders/services/checkout.service.ts:60-74 | grouping by any distinct brands that cover the lines keeps their multiset |
| Checkout.DeductIff | src/orders/services/checkout.service.ts:95-119 | the check-and-decrement loop succeeds if and only if each variant's total fits, then takes exactly the totals and leaves nothing negative |
| Checkout.PrecheckSuffices | src/orders/services/checkout.service.ts:52-58 | with one line per variant, passing the first loop means the transaction's check cannot fail in whatever order it visits the lines |
| Checkout.CheckoutSucceedsIff | src/orders/services/checkout.service.ts:26-130 | a checkout succeeds if and only if the cart is not empty and each line alone fits the stock; otherwise nothing at all changes |
| Checkout.OneOrderPerBrand | src/orders/services/checkout.service.ts:67-94 | the orders have distinct brands, one for every brand of the cart, each with exactly that brand's lines in cart order and their total |
| Checkout.OrdersFollowCatalog | src/orders/services/checkout.service.ts:38-94 | told by cart and catalog alone: the orders have distinct brands, one for each brand the catalog gives a variant of the cart; a variant stands in an order if and only if it is of its brand; every line carries the variant's number and name, its override or else the product's price, and the cart's quantity |
| Checkout.CheckoutPartitionsCart | src/orders/services/checkout.service.ts:67-127 | the new orders' lines are the cart's as a multiset, the cart is empty, older orders are untouched |
| Checkout.CheckoutAgreesWithCartPage | src/orders/mappers/order.mapper.ts:22-44 | the new orders' subtotals sum to the total the cart page reported |
| Checkout.PageShowsLines | src/orders/mappers/order.mapper.ts:22-44 | the cart page shows, item by item, the line a checkout would order |
| Checkout.CheckoutEffect | src/orders/services/checkout.service.ts:95-119 | each variant loses exactly what the SALE rows add up to |
| Checkout.CheckoutTakesCart | src/orders/services/checkout.service.ts:95-119 | each variant's stock falls by what was in the cart |
| Checkout.TransactionEffect | src/orders/services/checkout.service.ts:67-127 | working brand by brand fails exactly when deducting all grouped lines in one go fails, and otherwise writes the same stock, movements and orders |
| Checkout.RestockUndoesCheckout | src/orders/services/checkout.service.ts:132-160 | restocking the orders of one checkout in any order gives back the whole stock map and a zero net movement for every variant |
| Checkout.StepKeepsValid | src/products/services/stock.service.ts:23-60 | every cart, stock, variant, checkout and restock step keeps: one line per variant, known variants only, stock equal to opening plus movements and not negative |
| Checkout.Run | src/products/services/product-variants.service.ts:29-105 | so every run of those steps from an empty shop does |
| Checkout.StockIsLedger | src/products/services/stock.service.ts:37-57 | at any moment of any run a variant's stock is its opening stock plus the sum of its movements, and not negative |
| Checkout.StockAmountIs | src/products/services/stock.service.ts:23-60 | what every call leaves in stock of every variant: the stated quantity on creation, the sum after an adjustment unless negative, less the cart after a checkout, plus the order after a restock, and unchanged otherwise |
| Checkout.VariantCallsIff | src/products/services/product-variants.service.ts:29-105 | when creating, updating and adjusting succeed, with which refusal otherwise, and what they write to catalog and ledger |
| Checkout.CartAmountIs | src/orders/services/cart.service.ts:45-102 | what every call leaves of every variant in every cart: adding adds up, updating replaces, removing, clearing and a checkout take it away |
| Checkout.CartCallsIff | src/orders/services/cart.service.ts:29-115 | when a call on a cart succeeds: an unknown or inactive variant and an item not in the cart are not found, and nothing changes |
| Checkout.OrdersStay | src/orders/services/checkout.service.ts:76-94 | no call changes or removes an order, and only a checkout adds one |
| Checkout.StepBooks | src/orders/services/checkout.service.ts:111-159 | for every call, order and variant: SALE rows are booked for exactly what is newly ordered, RETURN rows for exactly what a restock gives back, and no adjustment is booked on an order |
| Checkout.SalesAreOrders | src/orders/services/checkout.service.ts:95-119 | in every run the SALE rows of an order sum, for every variant, to minus what it ordered |
| Checkout.Shop.AddItem | src/orders/services/cart.service.ts:29-67 | adds to the variant's one line or makes it |
| Checkout.Shop.Adjust | src/products/services/stock.service.ts:23-60 | one movement row and the absolute stock write, or nothing if it would go negative |
| Checkout.Shop.EachFits | src/orders/services/checkout.service.ts:52-58 | the first loop passes if and only if every line alone fits the stock |
| Checkout.Shop.GroupByBrand | src/orders/services/checkout.service.ts:60-65 | the loop over the insertion-ordered map yields the brands in order of first appearance and each brand's lines in cart order |
| Checkout.Shop.SellLines | src/orders/services/checkout.service.ts:95-119 | succeeds if and only if deducting the lines does, and appends one SALE row per line |
| Checkout.Shop.SellByBrand | src/orders/services/checkout.service.ts:67-127 | the transaction commits stock, movements and orders together or none of them |
| Checkout.Shop.Checkout | src/orders/services/checkout.service.ts:26-130 | the whole method takes the machine's step, and leaves everything as it was unless it succeeds |
| Checkout.Shop.RestockOrder | src/orders/services/checkout.service.ts:132-160 | adds each line back and appends one RETURN row per line; an unknown order is ignored |
| Orders.RefundStatusAgrees | src/orders/services/refunds.service.ts:85-117 | in every run, through both the approval and the webhook: PARTIALLY_REFUNDED means 0 < processed < subtotal, REFUNDED means processed >= subtotal, PENDING_PAYMENT means no refund, shipment or restock yet, FULFILLED and COMPLETED mean there is a shipment |
| Orders.PaidOrCancelledIff | src/orders/services/webhook.service.ts:62-102 | from every reachable order: PAID if and only if payment succeeds while it is awaited; CANCELLED if and only if the payment then fails, or somebody cancels before COMPLETED and REFUNDED; each cancellation restocks exactly once and nothing else does |
| Orders.ShippedIff | src/orders/services/shipments.service.ts:35-113 | FULFILLED if and only if a paid order is shipped; COMPLETED if and only if its last undelivered shipment is delivered |
| Orders.RefundedIff | src/orders/services/webhook.service.ts:104-152 | REFUNDED or PARTIALLY_REFUNDED if and only if a pending refund is paid out, by approval or webhook, that reaches the subtotal or does not |
| Orders.RefundRowsIff | src/orders/services/refunds.service.ts:42-136 | a refund row appears if and only if an allowed request fits, keeps its amount, and is decided once, PROCESSED or REJECTED |
| Orders.ShipmentRowsIff | src/orders/services/shipments.service.ts:35-97 | a shipment row appears if and only if a paid or fulfilled order is shipped, and changes only as reported |
| Orders.RefusedIff | src/orders/services/refunds.service.ts:42-150 | with which outcome each call is refused, and that it then changes nothing |
| Orders.FirstDecision | src/orders/services/webhook.service.ts:62-102 | whatever else is tried before, the first of success, failure and cancellation settles a placed order: PAID, or CANCELLED with one restock |
| Orders.RestockedPerCancellation | src/orders/services/orders.service.ts:86-100 | in every run the stock goes back exactly as often as the order is cancelled |
| Orders.DecisionsSafeIff | src/orders/services/refunds.service.ts:85-117 | no sequence of approvals, rejections and refund webhooks refunds more than the subtotal, if and only if processed and pending together do not exceed it |
| Orders.UncoveredIff | src/orders/services/refunds.service.ts:42-65 | from a state in which they do not, a call makes them exceed it if and only if it is an accepted request whose amount fits beside what is processed but not beside what is pending as well |
| Orders.NeverOverRefunded | src/orders/services/refunds.service.ts:31-117 | so in every run without such a request no more than the subtotal is refunded |
| Orders.OneAtATimeSuffices | src/orders/services/refunds.service.ts:31-68 | a request made while none is pending is never one |
| Orders.TwoPendingOverRefund | src/orders/services/refunds.service.ts:46-65 | a run in which two pending requests refund twice the subtotal |
| Orders.StaysCancelledIff | src/orders/services/shipments.service.ts:73-117 | a cancelled order stays cancelled in every run, if and only if it has no pending refund and no shipment |
| Orders.QuietIsFrozen | src/orders/services/webhook.service.ts:62-152 | such a quiet cancelled order never changes in any way |
| Orders.UnpaidCancellationIsFinal | src/orders/services/orders.service.ts:78-103 | whichever action cancels an order awaiting payment, it is restocked exactly once and nothing changes it afterwards |
| Orders.RestockedOnceIff | src/orders/services/orders.service.ts:86-100 | after a cancellation the stock is never given back again in any run, if and only if every refund that could still be processed uses up the subtotal |
| Orders.PaidFirst | src/orders/services/webhook.service.ts:62-78 | in every run, an order that is shipped, has a refund, or is in any status but PENDING_PAYMENT and CANCELLED has had its payment succeed |
| Orders.CanBeFulfilledIff | src/orders/services/shipments.service.ts:35-113 | some run fulfils an order if and only if it has a shipment or was neither cancelled nor refunded yet |
| Orders.OrderServices.RequestRefund | src/orders/services/refunds.service.ts:31-68 | refused before payment or beyond subtotal less processed, otherwise one PENDING row |
| Orders.OrderServices.ApproveRefund | src/orders/services/refunds.service.ts:85-117 | a pending refund is processed and the status follows the aggregate; any other is a conflict |
| Orders.OrderServices.HandleRefundProcessed | src/orders/services/webhook.service.ts:104-152 | the webhook's path to the same rows and the same status |
| Orders.OrderServices.UpdateShipmentStatus | src/orders/services/shipments.service.ts:73-117 | writes the shipment's status, and completes the order if this one was delivered and all others are |
| Fees.FeeConserves | src/payments/services/payments.service.ts:313-317 | for every amount and percentage from 0 to 100, fee and share are non-negative, sum to the amount, and the fee is within one half of the exact one |
| Fees.SharesNonNegativeIff | src/payments/services/payments.service.ts:313-317 | fee and share are non-negative for all amounts, if and only if the percentage is between 0 and 100 |
| Finance.InvRun | src/payments/services/payments.service.ts:37-121 | every run keeps: two splits per payment that add up to it, one payment per subject, each payment worth its subject, payouts of positive amounts |
| Finance.EscrowConserved | src/payments/services/payments.service.ts:313-344 | in every run, whatever fails, a payment's two splits are non-negative and sum to it, and none is RELEASED while another is REFUNDED |
| Finance.PaymentsMatchSubjects | src/payments/services/payments.service.ts:93-120 | in every run a payment is worth its order's subtotal or its deal's total value; with a split released, the order has been shipped, or the deal is COMPLETED whatever happens to it later |
| Payers.OrderPaidIff | src/payments/services/payments.service.ts:41-78 | a payment for an order is made if and only if the order awaits payment, has none yet and Stripe answers: at its subtotal, with a fee within one half of its percentage and the rest for the recipient |
| Payers.DealPaidIff | src/payments/services/payments.service.ts:84-120 | a payment for a deal is made if and only if the deal is active, has a value and no payment yet: at that value, for its creator |
| Payers.PaymentStatusIff | src/payments/services/webhook.service.ts:91-134 | how every call changes a payment's status, and that its other fields never change |
| Payers.ReleasedIff | src/payments/services/payments.service.ts:150-215 | if nothing throws, a release pays out if and only if the payment succeeded and its order is FULFILLED or COMPLETED or its deal COMPLETED: pending splits become RELEASED, and a share still due is transferred and recorded once |
| Payers.RefundedIff | src/payments/services/payments.service.ts:217-257 | if nothing throws, a refund returns the payment if and only if it succeeded and neither split is RELEASED: payment and splits become REFUNDED, and the ledger gets the whole amount |
| Payers.ExcessStep | src/payments/services/payments.service.ts:217-257 | a payer's CHARGE and REFUND transactions stay level with the payments that stand at every call but a refund whose ledger row is lost, and then differ by its amount |
| Payers.ChargesAreStanding | src/payments/services/payments.service.ts:228-257 | in every run a payer's CHARGE and REFUND transactions sum to minus the payments that stand, less the refunds whose row was lost: a payment refunded leaves nothing |
| Payers.OrderIsPaidOut | src/payments/services/payments.service.ts:37-215 | from any tables a new order can be placed, paid, shipped and paid out: the recipient is sent the subtotal less the fee |
| Finance.MoneyServices.CreatePaymentRows | src/payments/services/payments.service.ts:304-348 | one payment row with a fee split and a recipient's split |
| Finance.MoneyServices.ReleasePayment | src/payments/services/payments.service.ts:150-215 | the guards and the loop over the splits, in whatever order they are read and broken off where a call throws, take the machine's step |
| Finance.MoneyServices.ReleaseSplit | src/payments/services/payments.service.ts:165-211 | one turn of the loop: skip, or transfer, row write and ledger row in this order, up to the call that throws, whether or not it took effect |
| Finance.MoneyServices.Refund | src/payments/services/payments.service.ts:217-261 | refused once any split is released; otherwise Stripe, then payment and splits together, then the ledger row, up to the call that throws |
| Finance.MoneyServices.WithdrawFunds | src/payouts/services/payouts.service.ts:36-123 | the guards on amount and balance, the PENDING row, and either the linked payout with its ledger row or FAILED, with every way the calls and the error path can throw |
| Finance.MoneyServices.UpdatePayoutStatus | src/payouts/services/webhook.service.ts:80-117 | an unlinked or unchanged payout is ignored; a failure gives the amount back in the ledger, unless recording throws after the status is written |
| Withdrawals.WithdrawnIff | src/payouts/services/payouts.service.ts:47-87 | whatever throws: a withdrawal pays out if and only if the account is active and the amount asked for, or without one the whole balance, is positive, at least the minimum and at most the balance; then exactly that amount |
| Withdrawals.StripeStatusIs | src/payouts/services/payouts.service.ts:173-186 | which of Stripe's statuses gives which row status |
| Withdrawals.RowIs | src/payouts/services/payouts.service.ts:80-122 | the payout row and the ledger row as far as the calls got: linked and recorded where they did, FAILED by the catch if something threw and it could write, else Stripe's status once linked and PENDING before |
| Withdrawals.WithdrawTakes | src/payouts/services/payouts.service.ts:54-110 | if nothing throws: one linked payout and one PAYOUT transaction of the amount; the balance falls by it unless Stripe answers failed or canceled, and no other user's moves |
| Withdrawals.EventIff | src/payouts/services/webhook.service.ts:80-117 | an event is taken if and only if the payout is linked and in another status, and changes that row's status, with a compensating row for a failure |
| Withdrawals.FailedWithdrawalReturns | src/payouts/services/webhook.service.ts:80-117 | a withdrawal under way that fails in the end leaves every balance and ledger sum as before it |
| Transfers.ResumesIff | src/payments/services/payments.service.ts:163-214 | a release broken off anywhere and run again, the splits read in any order each time, leaves the same splits as one never broken off, one more transfer exactly if a transfer was lost, no ledger row for the share exactly if recording threw, and otherwise the same state |
| Transfers.ToldOnceIff | src/payments/services/payments.service.ts:165-211 | from a state in which Stripe was told of exactly the released recipients' splits, once each, a call ends that if and only if it is a release whose transfer took effect and whose answer or row write was lost |
| Transfers.TransferredOnce | src/payments/services/payments.service.ts:165-211 | so in every run without such a release, whatever else throws, no split is transferred twice |
| Transfers.ToldRun | src/payments/services/payments.service.ts:150-261 | what every run keeps, whatever throws and in whatever order splits are read: a split Stripe was told of is a recipient's, its order was shipped or its deal is COMPLETED, and its payment is SUCCEEDED unless the split is REFUNDED |
| Transfers.ToldIsRefundedIff | src/payments/services/payments.service.ts:217-248 | from every reachable state, a split Stripe was told of is refunded in some run if and only if neither its row nor the fee's is RELEASED |
| Transfers.TransferredAgainIff | src/payments/services/payments.service.ts:150-215 | from every reachable state, a split Stripe was told of is transferred again in some later run if and only if its row is PENDING |
| Transfers.LostTransferIsRepeated | src/payments/services/payments.service.ts:179-200 | after every release that loses a transfer some run makes it again |
| Transfers.ReturnsShownIff | src/payments/services/payments.service.ts:237-248 | from a state in which Stripe returned exactly the payments whose share is REFUNDED, a call ends that if and only if it is a refund that took effect and whose answer or rows were lost |
| Transfers.OneWayRun | src/payments/services/payments.service.ts:150-261 | in every run in which no refund is lost, and no transfer of a share that was read before a pending fee, no payment's money is both returned to the payer and transferred to the recipient |
| Transfers.BooksRun | src/payments/services/payments.service.ts:150-261 | what every run keeps, whatever throws, about the rows of a payment and what Stripe was told of it |
| Transfers.PaidBothWaysIff | src/payments/services/payments.service.ts:150-261 | from every reachable state, some run returns a payment's money and transfers its share too, if and only if both are done, or the share is PENDING, and the refund is made or the fee is PENDING too, and the transfer is made or the order or deal can still be fulfilled |
| Transfers.LostRefundIsReleased | src/payments/services/payments.service.ts:217-248 | after every lost refund, whatever fault lost it, some run pays the recipient as well, if the share is PENDING and the order or deal can still be fulfilled |
| Balances.GapStep | src/payouts/services/balance.service.ts:10-45 | every call, whatever throws in it, moves every user's balance from their ledger by exactly the stated amount |
| Balances.GapRun | src/payouts/services/balance.service.ts:10-45 | in every run the balance differs from the TRANSFER and PAYOUT transactions by exactly the sum of those amounts |
| Balances.DisagreesIff | src/payouts/services/webhook.service.ts:80-117 | from agreement for all users, a call ends it if and only if it is an unrecorded release of a non-zero share, a withdrawal failed by Stripe or after its ledger row but recorded, or standing but unrecorded, or an event on a payout already failed or one whose compensation throws |
| Balances.OverdrawnIff | src/payouts/services/payouts.service.ts:54-78 | a call makes a user's balance negative if and only if it reports a failed payout as paid and its amount is no longer available |
| Balances.InitHolds | src/payments/services/payments.service.ts:37-78 | the empty tables satisfy everything the theorems about all runs start from |
| Balances.BalanceEqualsLedger | src/payouts/services/balance.service.ts:10-45 | in every run without a call that ends the agreement, each user's available money equals the sum of their TRANSFER and PAYOUT transactions and is not negative |
| Balances.LostCompensationStays | src/payouts/services/webhook.service.ts:86-116 | when the compensating row throws, the balance exceeds the ledger by the amount, and the same event sent again any number of times changes nothing |
| Balances.UnlinkedPayoutStays | src/payouts/services/payouts.service.ts:80-122 | a payout row that was never linked keeps its status in every run |
| Balances.UnrecordedTransfer | src/payments/services/payments.service.ts:190-210 | a run in which recording the transfer throws after the split was released |
| Balances.FailureAtCreation | src/payouts/services/payouts.service.ts:82-110 | a run in which a payout answered as failed is recorded as taken |
| Balances.PaidAfterFailure | src/payouts/services/webhook.service.ts:80-117 | a run in which a payout reported failed is later reported paid |
| Balances.TransferredTwice | src/payments/services/payments.service.ts:179-185 | a run in which a lost answer makes a second transfer, with no database call ever throwing |
| Balances.TransferredAndRefunded | src/payments/services/payments.service.ts:165-248 | a run in which the share is read before the fee, the answer to its transfer is lost, and the payer is refunded after that |
| Deals.DealInvariant | src/deals/services/proposals.service.ts:33-147 | in every run: at most one PENDING proposal, an ACCEPTED one exactly if the deal was ever activated and then only one, none while NEGOTIATING, nobody decides their own proposal, every split absent or summing to 100, and the terms are the opening terms overridden by the accepted proposal |
| Deals.OpenedIff | src/deals/services/deals.service.ts:57-87 | a deal is opened if and only if its split is valid, with one proposal that anybody but its author may accept |
| Deals.StatusGraph | src/deals/services/proposals.service.ts:73-147 | which call moves a deal to ACTIVE, COMPLETED and CANCELLED, from which status and by whom; NEGOTIATING never comes back |
| Deals.ProposalsIff | src/deals/services/proposals.service.ts:21-147 | when a proposal is added, superseded, accepted and rejected, and by whom; its author and terms never change |
| Deals.AcceptedTermsWin | src/deals/services/proposals.service.ts:84-96 | in every run each term of a deal is the accepted proposal's where it has one, and the opening one otherwise |
| Deals.RefusedIff | src/deals/services/proposals.service.ts:116-147 | with which outcome each call is refused, and that it then changes nothing |
| Deals.CompletableIff | src/deals/services/deals.service.ts:142-183 | some run completes a deal if and only if it was not cancelled |
| Deals.TermsFrozen | src/deals/services/deals.service.ts:142-183 | once negotiation is over the terms never change in any run, and a completed or cancelled deal stays exactly as it is |
| Deals.AssertValidSplit | src/deals/services/deals.service.ts:211-227 | accepts if and only if both shares are absent, or both present and summing to 100 |
| Deals.DealServices.CreateProposal | src/deals/services/proposals.service.ts:21-56 | supersedes the pending proposals and appends the new one as PENDING, or refuses without effect |
| Deals.DealServices.AcceptProposal | src/deals/services/proposals.service.ts:73-99 | decides the proposal, merges its terms into the deal and activates it, or refuses without effect |
| Contracts.ExecutedIsFullySigned | src/contracts/services/signatures.service.ts:37-101 | in every run, however PDFs fail: EXECUTED means the latest version has one signature of each party by two different people, no superseded version has both, and versions are numbered 1 to n |
| Contracts.SignAcceptedIff | src/contracts/services/signatures.service.ts:37-101 | a creator's or owner's signature is accepted if and only if the contract awaits signatures or has one and their party has not signed the latest version; the first makes it PARTIALLY_SIGNED, the second EXECUTED |
| Contracts.StrangerCannotSign | src/contracts/services/signatures.service.ts:37-50 | nobody else signs |
| Contracts.CallAcceptedIff | src/contracts/services/contracts.service.ts:162-255 | when a new version, sending and voiding are accepted, and what they write to status, versions and history |
| Contracts.TwoSignaturesExecute | src/contracts/services/signatures.service.ts:37-101 | the two signatures, in either order, execute a contract that was sent |
| Contracts.ExecutableIff | src/contracts/services/signatures.service.ts:37-101 | from every reachable contract, some run executes it if and only if it is executed already, or is not voided and its creator is not its owner |
| Contracts.FinalIsFrozen | src/contracts/services/contracts.service.ts:322-326 | an EXECUTED or VOIDED contract never changes in any run |
| Contracts.CountStepIff | src/contracts/services/contracts.service.ts:162-198 | if the latest version carries as many signatures as the status says, a call ends that if and only if it is a new version whose PDF fails while the contract is PARTIALLY_SIGNED |
| Contracts.CountRunIff | src/contracts/services/signatures.service.ts:51-101 | so the count follows the status all along a run if and only if the run has no such call |
| Contracts.HistoryIff | src/contracts/services/contracts.service.ts:78-198 | in every run the event history replays to the status, to all signatures, and to all versions but exactly those whose PDF failed, the first one included; it tells everything if and only if none did |
| Contracts.HistoryBegins | src/contracts/services/contracts.service.ts:78-107 | in every run the history of a contract whose first PDF was rendered begins with its creation, and no event is taken back |
| Contracts.FailedPdfLeavesUnsigned | src/contracts/services/contracts.service.ts:328-342 | a run in which a failing PDF leaves a partially signed contract with an unsigned latest version |
| Contracts.ContractServices.AddVersion | src/contracts/services/contracts.service.ts:162-198 | the new version, and the status and event written only if the PDF was rendered |
| Contracts.ContractServices.SignContract | src/contracts/services/signatures.service.ts:28-104 | one signature per party on the latest version, the second one executing the contract |
| Prediction.Denominator | src/ai/utils/revenue-prediction.util.ts:26-37 | for two months or more the denominator is n(n^2 - 1)/12 and positive, so the guard against zero never acts |
| Prediction.SlopeIsLeastSquares | src/ai/utils/revenue-prediction.util.ts:30-38 | no line whatsoever has a smaller squared error than the one with this slope through the means |
| Prediction.GrowthHasSlope | src/ai/utils/revenue-prediction.util.ts:30-38 | a history that never falls has slope >= 0 |
| Prediction.DeclineHasSlope | src/ai/utils/revenue-prediction.util.ts:30-38 | a history that never rises has slope <= 0 |
| Prediction.LineIsRecovered | src/ai/utils/revenue-prediction.util.ts:26-38 | a history a + b i has slope exactly b |
| Prediction.ScalingKeepsTrend | src/ai/utils/revenue-prediction.util.ts:38-45 | multiplying any history by any factor other than zero keeps the trend |
| Prediction.GrowthIsForecast | src/ai/utils/revenue-prediction.util.ts:38-51 | a non-negative history that never falls is never called down, and last month followed by the forecast never falls |
| Prediction.GrowthKeepsLast | src/ai/utils/revenue-prediction.util.ts:47-51 | in whole amounts no forecast month is below the last one |
| Prediction.DeclineIsForecast | src/ai/utils/revenue-prediction.util.ts:38-51 | a non-negative history that never rises is never called up, and last month followed by the forecast never rises |
| Prediction.NeverNegativeIff | src/ai/utils/revenue-prediction.util.ts:12-51 | no forecast month is negative, except exactly when a single negative month is repeated as it is |
| Prediction.GrowthCalledDownIff | src/ai/utils/revenue-prediction.util.ts:38-45 | a history with positive slope is called down if and only if its mean is negative and the slope exceeds the threshold times its magnitude |
| Prediction.NegativeGrowthIsCalledDown | src/ai/utils/revenue-prediction.util.ts:38-45 | the months -3, -2 are such a history |
| Prediction.TrendIff | src/ai/utils/revenue-prediction.util.ts:38-45 | for a positive mean the trend is up if and only if the slope exceeds a twentieth of it, and down if and only if it falls below minus that |
| Prediction.NoMeanNoTrend | src/ai/utils/revenue-prediction.util.ts:38 | for a mean of zero the trend is flat |
| Prediction.ForecastFollowsLine | src/ai/utils/revenue-prediction.util.ts:47-51 | the i-th forecast month is the whole number nearest to the last month plus i times the slope, or zero below it |
| Prediction.LineIsContinued | src/ai/utils/revenue-prediction.util.ts:26-51 | a history a + b i of whole amounts is forecast to go on as exactly that line, down to zero |
| Prediction.ShortHistory | src/ai/utils/revenue-prediction.util.ts:12-24 | no months are forecast as zero, one month is repeated, and both are flat |
| Prediction.PredictRevenue | src/ai/utils/revenue-prediction.util.ts:8-54 | the source's loops and branches compute the forecast the lemmas are about |

## Left out

- Who may call what: roles and participant checks, except that nobody decides their own proposal and that a signer is
  resolved to a party.
- Controllers, validation, guards, mail, storage, sockets, metrics; the bounds the DTOs put on quantities and amounts
  are taken as given.
- Typesense, the PDF renderer and the event handlers themselves: each call succeeds or fails, in any order.
- BullMQ beyond job ids, attempts and its kept sets: one active worker per job, no stalled-job recovery, no worker that
  dies inside an attempt without failing it; event replay, which changes no row.
- In `Finance` a payment's success is one step with its CHARGE row; how that row can be lost is the subject of
  `WebhookDedup`.
- Races between the reads and the writes of one method in `Checkout`, `Orders`, `Deals`, `Contracts` and `Finance`: the
  code does not guard them, and each method is one step here.
- Database calls that throw between two writes of one method of `Checkout`, `Orders`, `Deals` and `Contracts`. A write
  that commits and throws all the same is modelled in `Outbox`, `Finance`, `Transfers` and `Balances` only.
- Several currencies, conversion to minor units, floating-point error: one currency, integers for money, exact reals
  for the fee percentage and the forecast.
- Timestamps, reasons, messages and metadata that no branch reads; rows that are deleted; a brand changing owner.
- The service methods with a single branch and a single write are verified against their machine's step too, but have
  no row above.
- RedisLock.RedisLockService.WithLock: the body is its outcome and its duration, and nobody else acts meanwhile; the
  interleaved protocol is the machine of the same module.
- SearchIndex.AgreesIffExclusive: the three collections are three instances of one machine, told apart by their rows;
  a deployment without a search client, where every sync returns at once, is not modelled.
- WebhookDedup.SoundIffTtlRespected: one event of one payment; the other event types, and other writers of the same
  payment, are not modelled.
- Outbox.PollerDelivers: what one further poll can do; that polls keep happening is up to the scheduler. The limit of
  one hundred rows a poll is kept as a bound, fairness among more rows is not stated.
- Finance.MoneyServices.WithdrawFunds: a payout Stripe made although its answer was lost is a row marked FAILED here as
  in the code; what Stripe then holds against the user is not tracked.
- Orders.RestockedOnceIff: counts how often the stock is given back; what one restock does to the stock is proved in
  `Checkout`.
