# The order lifecycle of the kitchen service, as one verified step system

A client places an order with the kitchen service. The service stores it and leaves an outbox row; the
relay publishes that row; the restaurant's own process reads it, cooks, and reports statuses on a topic;
one consumer carries those statuses back into the orders. Meanwhile clients cancel, partners move
statuses and change menus, processes restart, and every call may fail. This project models all of that
and proves what holds in every run.

`dafny verify dfyconfig.toml` checks everything.

## How it is built

| module | what it is |
|---|---|
| `Common`, `Text`, `Int64` | results and errors, trimming, signed 64-bit words |
| `Statuses` | the transition table and what a legal history can look like |
| `Menu`, `Pricing` | the menu table with its batch upsert; pricing an order and its second check under locks |
| `Tables` | the tables, the atomic effect of every transaction, the invariant that ties them together |
| `Store`, `Isolation`, `StoreRuns`, `StoreEffects`, `Progress` | any number of transactions, statement by statement, with row locks and private row versions; why every interleaving is serial; what single steps do; why status updates and checked order creations are never blocked |
| `Relay`, `Drain` | one tick of the outbox relay with any number of workers; how fast ticks drain the outbox |
| `StatusTopic`, `Kitchen`, `KitchenRuns` | what pipelines can put on the status topic; the restaurant's process at the granularity of single map, WaitGroup, context and broker operations |
| `KitchenPaths`, `KitchenCancels`, `KitchenShutdowns` | what that process can always still do; exactly what cancels prevent, and what shutdowns cost |
| `Pipelines` | one pipeline, statement by statement, among everything the others do |
| `Delivery` | what the consumer makes of the messages about one order |
| `Platform`, `PlatformRuns`, `Guarantees` | store, relay, topics, restaurant and consumer together; the main theorems over all runs |
| `Causes` | the answers of the services by their causes, and what they store by columns, read off the rows |
| `Calls`, `Answers`, `Origins` | whoever may change a status can; what clients are told; who asked for what is stored |
| `Completion`, `Fulfilment` | what the whole platform can always still do: the consumer catches up, orders are completed |
| `FirstOrder`, `Republishing` | a run from nothing to one order; when and how the relay publishes a message twice |
| `Repository`, `Services`, `Queries`, `Workers`, `Restaurant` | the same operations in the form they are written in: loops, arrays changed in place, objects with fields, transactions that roll back, each proved against the functions above |

A run is any sequence of steps; a step that is not possible in a state leaves it as it is. Transactions
follow READ COMMITTED with `FOR UPDATE` and `FOR SHARE` row locks: a statement sees committed rows and its
own, a lock is held to the end, a commit lays the private row versions over the tables. Whatever is
nondeterministic outside the program is a choice of the run: which step comes next, when a transaction
aborts, whether a commit is acknowledged, how many copies a publish appends and whether it then reports
an error, when messages are delivered and how often, when processes stop and restart.

Assumptions: the three topics are different; ids and uuids are fresh; orders are created through
`OrderService.CreateOrder`, hence with status `created`; there is one status consumer, as `cmd/api/main.go`
starts it, which may read the partitions of its topic in any order; a message published by a call is
appended before the call returns.

Where the functions of the program are: `CanTransition` is `Statuses.CanTransition`. Each transaction of the
repository appears three times: as one atomic function in `Tables` (`SetStatus`, `PlaceOrder` and `CreateOrder`,
`UpsertMenu`, `MarkProcessed`), as a sequence of steps in `Store` (from `DoLockOrder` to `DoCommit`), and as a method of
`Repository.Repo`. The loops of `OrderService.CreateOrder` are `Pricing.QuoteFor` and `Services.Price`; the checks of the
services are `Tables.PlaceCheck`, `CancelCheck` and `PartnerCheck`. `outboxWorkers` is `Relay.Do` (its pool), `Platform`
(its rows and messages) and `Workers.Tick`; `ordersWorkers` is `Platform.DoConsume` with the transaction it starts, and
`Workers.Consume`; the two pollers and `processOrder` are `Kitchen.Do`, `Pipelines.Next` and `Restaurant.Process`.

## What is not true of the code, and what is

- "A noted cancel keeps an order from being cooked" fails between two map operations: `KitchenCancels.CancelledOrderCooks`
  is a run in which it does, and `KitchenCancels.NotedCancelSilencesIff` says exactly in which states a noted order can
  still be mentioned, over all runs. The stored status is right all the same (`Guarantees.EndToEnd`).
- "A handled cancel keeps an order from starting again" fails in two ways. A cancel that finds the order in progress is not
  noted (`restaurant-example/main.go:340-344`): `KitchenCancels.RevokedOrderCanStart`, with `CallingPreventsStartIff` for
  the exact condition. And the order poller can overtake a cancel between its lookup and its note:
  `KitchenCancels.OvertakenCancel`, with `NotingPreventsStartIff`. Seen from the lookup, `KitchenCancels.HandlingIsSureIff`:
  a cancel is sure to prevent a start only when none was possible anyway.
- "The total is the sum" fails when 64-bit words wrap: `Tables.TotalCanWrap` and `Tables.QuantityCanWrap` are orders that
  are accepted and stored with a wrong total, and `Pricing.TotalExactWhenBelow`, `Pricing.QuantityExactWhenBelow` and
  `Tables.StoredTotalExactWhenBelow` give the exact conditions.
- "A dropped update is made good by later ones" fails on accepted, cooking (`Delivery.DropCanStick`);
  `Delivery.DropIsHarmlessIff` is the exact condition for one update, `Delivery.RankLossIsHarmlessIff` for all of one status.
- "A message is published once" fails: the row locks of the fetch end with the statement that takes them
  (`internal/repository/repository.go:544`), and marking can fail after publishing. `Republishing.PublishedTwice` is such a
  run, `Republishing.ComesAgainIff` says from which states a message can come again.
- "A pipeline survives the end of polling", as a comment in `restaurant-example/main.go:313` has it, fails: the code derives
  the pipeline's context from the pollers' one. `KitchenShutdowns.ShutdownCutsOff` is a run that a shutdown cuts off;
  exactly the pipelines past their last wait survive (`KitchenShutdowns.ShutdownStopsShortIff`), and without a new
  shutdown or cancel a wait is lost exactly as `KitchenShutdowns.WaitCanBeCutIff` says.

## Model

The rows down to `Workers.Consume` are the main results; below them stand, module by module, the facts they rest
on, and at the end small ones about words, texts and rows.

| member | source | states |
|---|---|---|
| `Guarantees.EndToEnd` | cmd/api/main.go:88-132 | In every run of the whole platform, with the status topic read order by order in any interleaving, again and again, an order that no partner touched is cancelled if a cancel was committed, which then found it created or accepted; otherwise it has the last status of the longest pipeline prefix consumed so far, or, if the consumer dropped an update of it, that or an earlier one |
| `Completion.ConsumerCanCatchUp` | cmd/api/main.go:99-126 | From every reachable state in which the consumer has no message under way and nobody holds the row of the order, a run without an abort reads all that the topic has about the order and drops nothing; the order then has the furthest status its pipelines sent, unless it was cancelled, had an update dropped or was moved by a partner |
| `Fulfilment.OrderCanComplete` | cmd/api/main.go:24-132 | From every reachable state, an order that is neither rejected nor cancelled can be completed by a run without an abort, through relay, restaurant and consumer, whatever was lost, dropped or restarted before |
| `Fulfilment.CancelCanBeNoted` | restaurant-example/main.go:318-350 | From every reachable state, a run without an abort brings the cancel of a cancelled order into cancelledOrders |
| `Guarantees.EveryRunIsSerial` | internal/repository/repository.go:453-529 | In every run the committed tables are those of the logged atomic operations executed one after the other, with the same answers: no lost update, no partial transaction |
| `StoreRuns.EveryRunIsSerial` | internal/repository/repository.go:191-314 | The same for the store alone, from any sound state: every interleaving of status updates, order creations, menu upserts and marks, split into statements, equals a serial run |
| `Guarantees.AuditInEveryRun` | internal/repository/repository.go:470-501 | Whatever statuses arrive, known or not, the audit trail starts at (NULL, created), chains, and ends in the stored status; its statuses are one of the eight legal histories, listed out, so no status comes twice and no order is both cooked and cancelled |
| `Guarantees.OutboxAgreesInEveryRun` | internal/repository/repository.go:503-526 | In every run an order has exactly one created row repeating its stored items and total, and exactly one cancel row if it is cancelled and none otherwise; its total is the 64-bit sum over its items |
| `Statuses.LegalHistoryIff` | internal/domain/state_machine.go:5-33 | All legal histories: a history from created is legal exactly when it is a prefix of created, accepted, cooking, ready, completed, or created and rejected, or created and cancelled, or created, accepted, cancelled |
| `Guarantees.AtLeastOnce` | cmd/api/main.go:51-83 | Every processed row was published column by column, and every published message is a committed row and says what the tables say: the stored items and total of an order, or that it is cancelled |
| `Guarantees.NothingIsLost` | internal/repository/repository.go:557-561 | Outbox rows are never lost or changed, and processed never reverts |
| `Fulfilment.RowCanBeMarked` | cmd/api/main.go:63-79 | Every unprocessed row can be published and marked |
| `Republishing.ComesAgainIff` | cmd/api/main.go:63-79 | From every reachable state, some run publishes a message of the outbox once more if and only if its row is not marked yet or some worker still carries it unsent |
| `Republishing.PublishedTwice` | internal/repository/repository.go:531-561 | A run from an empty service with one order, every publish appending one copy, in which its created message is published twice: the mark fails and the row is fetched again |
| `StoreRuns.CancelAnswersAreFinal` | internal/domain/domain.go:156-178 | nil or "already cancelled" means cancelled in all later states, "invalid transition" means past cancelling in all later states, hence never cancelled, under concurrent updates and double cancels |
| `Answers.EveryCallIsAnswered` | internal/repository/repository.go:453-529 | Every cancel of a client that ends is answered once: an acknowledged commit with success, one without acknowledgement and an abort with the database error, a missing order and a refusal with the answer that is logged, by the status of the row |
| `Answers.OnlyCallsAreAnswered` | internal/domain/domain.go:156-178 | Clients are told something only then, or at once by the checks, with the error whose cause holds |
| `Answers.SuccessWasDone` | internal/repository/repository.go:528 | In every run a cancel answered with success is in the log of what was done |
| `StoreRuns.StoredOrdersAreStable` | internal/repository/repository.go:237-287 | No later upsert or status change alters the owner, restaurant, total or items of a stored order |
| `Origins.OrdersWereRequested` | internal/domain/domain.go:55-132 | In every run a stored order was requested by its owner (the trimmed user of the request) from its restaurant, and holds the requested dishes in order of first occurrence with the summed quantities |
| `Origins.TransitionsWereAsked` | internal/domain/domain.go:156-220 | In every run each transition of the audit trail was asked for: a cancel by the owner of the order, any status by its own restaurant, or by a message of the status topic |
| `Origins.CancelledByOwner` | internal/domain/domain.go:166-168 | An order is cancelled only after a cancel request of its owner, unless its restaurant or the topic asked for it |
| `Isolation.PlaceCommitIsAtomic` | internal/repository/repository.go:191-314 | Optimistic pricing is linearizable: the committed order is the one an atomic CreateOrder produces at the commit point |
| `Isolation.CommitIsAtomic` | internal/repository/repository.go:453-529 | A commit does to the tables of that moment exactly what the atomic operation does to them |
| `Isolation.UpsertCommitIsAtomic` | internal/repository/repository.go:166-189 | A committed batch, written row by row, is the atomic batch upsert |
| `Progress.LockedCanFinish` | internal/repository/repository.go:460-528 | From every reachable state a status transaction that has its row lock can run to its end by steps of its own alone, with the effect of the atomic operation |
| `Progress.PlacingCanFinish` | internal/repository/repository.go:237-313 | Once its prices are checked under lock, an order creation can run to its end by steps of its own alone: the order is placed, unless its total or a line cannot be stored, and then nothing is |
| `KitchenRuns.ReachableKitchen` | restaurant-example/main.go:204-316 | In every reachable state the keys of activeOrders are exactly the orders somebody works on, at most one worker each; the topic shows each order a concatenation of prefixes; the WaitGroup counts live pollers, live pipelines and the one about to be spawned |
| `KitchenCancels.NotedCancelSilencesIff` | restaurant-example/main.go:299-347 | In every reachable state, no run of the process sends another message about a noted order exactly when the poller is not about to start it with a live context and no pipeline of it is publishing, waiting, or yet to look at a live context |
| `KitchenCancels.CancelledOrderCooks` | restaurant-example/main.go:304-347 | A run in which the cancel of an order is noted and the order is accepted and cooked |
| `KitchenCancels.CanStartIff` | restaurant-example/main.go:299-314 | When a new pipeline of an order can still appear: the poller is about to start it, or it is not noted and the poller still runs |
| `KitchenCancels.HandlingIsSureIff` | restaurant-example/main.go:340-347 | A cancel message that is about to be looked up prevents every later start, however its handling interleaves with all others, exactly when nothing could start the order before: the poller has not decided to start it, and it is noted or the poller has stopped |
| `KitchenCancels.NotingPreventsStartIff` | restaurant-example/main.go:347 | Noting an order prevents every later start exactly when the poller has not decided to start it by then |
| `KitchenCancels.CallingPreventsStartIff` | restaurant-example/main.go:340-344 | Calling the cancel function of an order in progress prevents every later start exactly when the poller has not decided to start it and it was noted before, or the poller has stopped |
| `KitchenCancels.RevokedOrderCanStart` | restaurant-example/main.go:340-344 | A run in which a cancel finds its order in progress and is handled, and the order can be started again |
| `KitchenCancels.OvertakenCancel` | restaurant-example/main.go:304-347 | A run in which nobody had decided to start the order when its cancel was looked up, the cancel is noted, and the order is accepted afterwards |
| `KitchenShutdowns.WaitCanBeCutIff` | restaurant-example/main.go:268-275 | While nobody shuts the process down and no further cancel of its order is read, a waiting pipeline can lose its wait or a later one exactly when its context is over already or the cancel poller is about to end it |
| `KitchenShutdowns.ShutdownCutsOff` | restaurant-example/main.go:308-314 | A run in which a shutdown cuts the wait of a pipeline: the order is accepted, never cooked, and the process ends |
| `KitchenShutdowns.ShutdownStopsShortIff` | restaurant-example/main.go:219-275 | When every publish succeeds and no cancel comes in, the process can end a pipeline short of completed exactly when it has not passed its last wait |
| `Pipelines.ReturnsHavingSent` | restaurant-example/main.go:204-266 | With any steps of the pollers, the other pipelines and a shutdown before each of its statements, a pipeline returns after at most 8 of them and has sent exactly the copies of its publishes up to the last one it gets to |
| `Pipelines.SentIff` | restaurant-example/main.go:224-265 | A status is among them exactly when a copy was appended and the pipeline gets to it: its context lives at the first look, every publish before succeeds, and every wait before elapses or finds the context alive |
| `KitchenPaths.ShutdownCanEnd` | restaurant-example/main.go:433-440 | From every reachable state after a shutdown some continuation, without another message, brings the WaitGroup to zero |
| `KitchenRuns.SilenceAfterWait` | restaurant-example/main.go:433-440 | Once it is zero, no status message is ever sent again by the process |
| `StatusTopic.ChainedMeansPrefixes` | restaurant-example/main.go:224-265 | The local form of what pipelines send is equivalent to being a concatenation of stuttering prefixes of accepted, cooking, ready, completed |
| `Delivery.PipelinesLeadToFurthest` | cmd/api/main.go:116 | Whatever pipelines sent about a new order, consuming it ends at the furthest status |
| `Delivery.RedeliveryIsHarmless` | cmd/api/main.go:99-123 | Consuming any part of it again, in any order, changes nothing |
| `Delivery.DropIsHarmlessIff` | cmd/api/main.go:110-125 | Dropping one update of what pipelines sent about an order leaves its final status as it is if and only if a status at least as far came before, or the same status comes again at a place from which on the furthest status is still reached |
| `Delivery.DropCanStick` | cmd/api/main.go:110-125 | Without its accepted, an order stays created although cooking follows |
| `Relay.MarkedWereSent` | cmd/api/main.go:51-83 | Whatever fails and however workers interleave, a tick marks only rows of its batch that it has sent, and loses none |
| `Relay.CleanTickDrains` | cmd/api/main.go:51-83 | Without failures, when all workers have returned, the whole batch and nothing else is marked: if and only if there is at least one worker or nothing to do |
| `Relay.TickCanEnd` | cmd/api/main.go:57-83 | A tick cannot hang: from each of its states a bounded number of steps lets wg.Wait return |
| `Drain.DrainsInCeil` | cmd/api/main.go:37-83 | n unprocessed rows are drained after exactly ceil(n / 50) clean ticks, not earlier |
| `Drain.SentInTime` | internal/repository/repository.go:536-542 | With later-stamped arrivals, a row with k rows ahead of it is sent within floor(k / 50) + 1 ticks |
| `Pricing.StaleQuoteIsCurrent` | internal/repository/repository.go:199-235 | A quote from an old menu passes the second check if and only if pricing against the current menu gives that very quote |
| `Pricing.QuoteMeaning` | internal/domain/domain.go:80-113 | When a quote succeeds, which lines it has (distinct ids in first-occurrence order, summed quantities, current prices), and its total as the 64-bit word of the plain sum over the raw request |
| `Pricing.GroupingConserves` | internal/domain/domain.go:83-113 | Merging repeated positions conserves the sum of price times quantity, exactly |
| `Pricing.TotalExactWhenBelow` | internal/domain/domain.go:93-106 | The total is the exact sum if and only if that sum is below 2^63 |
| `Tables.StoredTotalExactWhenBelow` | migrations/000001_init_schema.up.sql:49-57 | The stored total is the exact sum over the stored items if and only if that sum is below 2^63 |
| `Tables.TotalCanWrap` | internal/domain/domain.go:106 | Four of a dish at 2^62 cents are stored with a total of 0, with success, where the sum is 2^64 |
| `Tables.QuantityCanWrap` | internal/domain/domain.go:90 | Three valid positions that add up to 2^64 + 5 are stored as quantity 5 at five times the price, with success |
| `Menu.UpsertAllMerges` | internal/repository/repository.go:175-186 | A batch of distinct keys is a simultaneous merge: each of its keys is found with its one position, all others as before |
| `Menu.BatchIsStored` | internal/repository/repository.go:175-178 | After any batch, every position that no later one repeats is in a row of its restaurant column by column: external id, name, price and availability; in the row that had the name, if there was one |
| `Menu.UpsertOrderIrrelevant` | internal/repository/repository.go:180-182 | The order of the batch does not matter to what lookups show |
| `Restaurant.Process.ProcessOrder` | restaurant-example/main.go:204-266 | With anything the others do between its statements, the method takes exactly its statements, has sent what it gets to when it returns, and leaves neither itself nor a live context behind |
| `Services.OrderService.CreateOrder` | internal/domain/domain.go:55-132 | Others may change menus and orders after the menu was read: the order is then what the atomic operation places on the tables of that later moment, column by column, or nothing is stored and, if the database did not fail, the answer has its cause in the rows (Causes) |
| `Repository.Repo.CreateOrder` | internal/repository/repository.go:191-314 | The tables are those of the atomic insert and the caller's order carries its ids, also when only the acknowledgement of the commit is lost; otherwise nothing is stored, and the answer says which check or constraint failed. They stay sound if the total of the order is the sum of its lines |
| `Workers.Consume` | cmd/api/main.go:99-126 | The consumer loop folds into the orders exactly the messages that were received, in order, and leaves out none whose update did not fail in the database |
| `StoreRuns.StepKeeps` | internal/repository/repository.go:453-529 | Every single statement, commit, abort or mark of any transaction keeps the invariant and changes the tables by at most one logged atomic operation |
| `Isolation.CommitUndisturbing` | internal/repository/repository.go:205-217 | What one transaction has locked or read under lock is untouched by the commit of any compatible one |
| `Isolation.QuoteIsCurrent` | internal/repository/repository.go:199-235 | When an order commits, the quote made from the old menu read is what pricing against the current menu gives |
| `StoreEffects.CommitOnOrders` | internal/repository/repository.go:483-492 | What the commit of each kind of transaction makes of the rows of orders, entirely |
| `StoreEffects.StatusTxEnds` | internal/repository/repository.go:460-479 | A status transaction ends by an abort, by a commit, or with an answer that is only given when the transition is impossible |
| `Calls.OwnerCanCancel` | internal/domain/domain.go:156-178 | The owner of a created or accepted order whose row nobody holds can cancel it |
| `Calls.PartnerCanMove` | internal/domain/domain.go:196-220 | Its restaurant can move such an order along every transition |
| `Progress.StatusCanFinish` | internal/repository/repository.go:453-529 | A status transaction runs from its start to its end by steps of its own alone, as soon as its row is free or missing, and leaves the other transactions as they are |
| `Fulfilment.RowCanBeSent` | cmd/api/main.go:63-72 | Every row of the outbox can be on its topic, column by column |
| `Fulfilment.CanBeCooked` | restaurant-example/main.go:204-316 | A new process of the restaurant sends all four statuses of an order that it is told of |
| `Tables.SetStatusKeeps` | internal/repository/repository.go:453-529 | The atomic status update keeps audit trail, items, totals and outbox in agreement for every order |
| `Tables.PlaceOrderKeeps` | internal/repository/repository.go:237-313 | So does storing an order |
| `Tables.UpsertMenuKeeps` | internal/repository/repository.go:166-189 | So does a batch upsert, which leaves all orders alone |
| `Tables.MarkProcessedKeeps` | internal/repository/repository.go:557-561 | So does marking a row |
| `Tables.CancelledWhileEarly` | internal/domain/state_machine.go:5-24 | The trail of a cancelled order ends with the cancel, taken from created or accepted |
| `Statuses.TransitionClimbs` | internal/domain/state_machine.go:5-33 | Every allowed transition strictly climbs a rank bounded by 4 |
| `Statuses.HistoryIsShortAndSimple` | internal/domain/state_machine.go:5-33 | A legal history has at most five entries and visits no status twice |
| `Statuses.CancellableFrom` | internal/domain/domain.go:172-174 | Cancelling is allowed from created and accepted and from nothing else |
| `Statuses.CookingExcludesCancelled` | internal/domain/state_machine.go:5-33 | No legal history contains both cooking and cancelled |
| `Statuses.Names` | internal/domain/models.go:7-30 | Exactly the seven texts are named statuses |
| `Causes.PlaceCheckByCause` | internal/domain/domain.go:55-113 | Each refusal of an order before it is written has its cause in the rows, and without a cause there is none: empty request or blank user, unknown restaurant, inactive restaurant, a quantity that is not positive, the first dish that the restaurant has no row of or does not sell |
| `Causes.RecheckByCause` | internal/repository/repository.go:224-235 | The same for the second check: the first dish whose row is gone, not available any more, or has another price |
| `Causes.FitsMeansStorable` | migrations/000001_init_schema.up.sql:49-73 | The CHECKs let an order in exactly when every summed quantity is a word from 1 to 2^31-1 and the total a word that is not negative |
| `Causes.PlacedByColumns` | internal/repository/repository.go:237-313 | A stored order column by column: owner, restaurant, status, total, items at the prices of the locked rows, one row of the trail, one message |
| `Causes.SetStatusByCause` | internal/repository/repository.go:453-529 | The atomic status update by its causes: missing order, same status, one of the seven transitions, cancelled before, any other |
| `Causes.CancelCheckByCause` | internal/domain/domain.go:156-175 | The check of a cancel by its causes: blank user or bad id, missing order, not the owner, cancelled, past cancelling |
| `Causes.PartnerCheckByCause` | internal/domain/domain.go:196-217 | The check of a partner by its causes: bad ids or unknown status, missing order, another restaurant, cancelled, same status, no such transition |
| `Causes.WholeMenu` | internal/repository/repository.go:150-164 | The menu of a restaurant is all its rows, available or not |
| `Pricing.FirstOccurrencesAreDistinct` | internal/domain/domain.go:83-91 | The deduplicated ids are distinct and are exactly the requested ones |
| `Pricing.FirstOccurrencesKeepOrder` | internal/domain/domain.go:83-91 | They stand in the order in which they are first met |
| `Pricing.FirstProblemIsFirst` | internal/domain/domain.go:96-104 | The reported menu error is that of the first problematic id |
| `Pricing.QuantityExactWhenBelow` | internal/domain/domain.go:90 | A line carries the exact summed quantity if and only if that is below 2^63 |
| `Pricing.ExactWithinBounds` | internal/domain/domain.go:90-106 | Nothing wraps when every summed quantity is at most 2^31-1 and lines times highest price is at most 2^32 |
| `Pricing.RevalidateMeaning` | internal/repository/repository.go:224-235 | The second check passes exactly when every line's row exists, is available and has the quoted price |
| `Menu.UpsertIdempotent` | internal/repository/repository.go:175-178 | Sending the same batch again changes nothing |
| `Menu.OthersStay` | internal/repository/repository.go:175-178 | Rows whose name the batch does not mention stay as they are |
| `Menu.NothingElse` | internal/repository/repository.go:175-178 | A new row has a name of the batch |
| `Menu.UpsertKeepsIdsAndOthers` | internal/repository/repository.go:175-178 | Existing rows keep their ids and other restaurants are untouched |
| `Menu.OverlayIsUpsertAll` | internal/repository/repository.go:180-186 | Row versions collected statement by statement, laid over the table, are the batch upsert |
| `Relay.StepsWork` | cmd/api/main.go:63-79 | Every effective worker step strictly decreases the work that is left |
| `Drain.FetchExists` | internal/repository/repository.go:531-555 | There always is a batch: the oldest unprocessed rows, up to the limit |
| `Drain.PoolTicks` | cmd/api/main.go:37-83 | What a pool of any size makes of a batch is a clean tick |
| `StatusTopic.NoGaps` | restaurant-example/main.go:224-265 | The next status is at most one step ahead of the furthest so far |
| `KitchenRuns.StepKeeps` | restaurant-example/main.go:204-350 | Every single map, WaitGroup, context or broker operation keeps that, in any interleaving, with restarts |
| `KitchenRuns.DeferredLookupFinds` | restaurant-example/main.go:206-213 | The deferred lookup of a pipeline always finds its own entry |
| `KitchenRuns.AddIsNeverAtZero` | restaurant-example/main.go:312 | The WaitGroup is never incremented at zero |
| `KitchenRuns.NobodyLeft` | restaurant-example/main.go:433-436 | The counter is zero exactly when both pollers and all pipelines are gone |
| `Delivery.EachOrderReceives` | cmd/api/main.go:99-126 | The fold over the topic gives every order its own messages in order, and touches nothing else |
| `Delivery.UpdateReceives` | internal/repository/repository.go:470-479 | One update moves the order if the table allows it and otherwise leaves all orders alone |
| `Delivery.ConsumedToFurthest` | cmd/api/main.go:99-126 | Fed with what pipelines sent, the fold takes a new order to the furthest status |
| `Delivery.RankLossIsHarmlessIff` | cmd/api/main.go:116-123 | Losing every message of one rank is harmless if and only if no pipeline got that far |
| `Delivery.MessageSettles` | cmd/api/main.go:110-123 | A message, new or read again, received or dropped, keeps its order at the furthest status seen, or not beyond it once an update was dropped |
| `PlatformRuns.StepKeeps` | cmd/api/main.go:24-132 | Every step of the platform keeps the combined invariant of store, relay, topics, restaurant and consumer |
| `PlatformRuns.EndingReceives` | cmd/api/main.go:116-123 | However the transaction of a message ends, the message was received entirely or dropped; it is dropped only by an abort |
| `Repository.Repo.UpdateOrderStatus` | internal/repository/repository.go:453-529 | All or nothing under a failure of any call: tables and answer are those of the atomic update, spelled out by causes and columns, or the database error is answered and nothing changed, or everything did because only the acknowledgement of the commit was lost |
| `Repository.Repo.Recheck` | internal/repository/repository.go:224-235 | The loop answers the first position that does not hold any more |
| `Repository.Repo.SelectMenuRows` | internal/repository/repository.go:199-222 | The locked rows are all that the second check needs |
| `Repository.Repo.InsertItems` | internal/repository/repository.go:267-287 | The loop fills in the caller's order in place with consecutive fresh ids, leaves its lines alone, and inserts exactly those rows |
| `Repository.Repo.WriteOrder` | internal/repository/repository.go:237-313 | Order, items, audit row and outbox row are stored together or not at all, whatever total the order carries; success is answered exactly when they are and the commit is acknowledged, and the tables stay sound if the total is the sum |
| `Repository.Repo.SendBatch` | internal/repository/repository.go:173-186 | The statements of a batch, in order, give the batch upsert |
| `Repository.Repo.UpsertMenuItems` | internal/repository/repository.go:166-189 | Any batch, also with repeated positions, is stored entirely, column by column, or not at all: not if a price is negative or the restaurant does not exist; an unacknowledged commit stores it and answers the error |
| `Repository.Repo.MarkOutboxEventProcessed` | internal/repository/repository.go:557-561 | Exactly the row with that id is marked, unless the call fails; an unacknowledged one marks it and answers the error |
| `Repository.Repo.GetMenuByRestaurantID` | internal/repository/repository.go:150-164 | Exactly the rows of the restaurant, each once, available or not, in whatever order |
| `Repository.Repo.InsertAll` | internal/repository/repository.go:237-310 | The inserts, statement by statement on a private copy, are the atomic insert, and the caller's order carries its ids |
| `Services.Dedup` | internal/domain/domain.go:80-91 | The dedup loop: it fails exactly on a quantity that is not positive, otherwise ids in first-occurrence order with wrapped sums |
| `Services.Price` | internal/domain/domain.go:75-113 | Both loops together compute the quote, errors included, in 64-bit arithmetic throughout |
| `Services.Tidy` | internal/domain/domain.go:244-259 | The loop rewrites the caller's slice in place up to the first refused position and not beyond, and refuses exactly what is unacceptable |
| `Services.TidiedIsValid` | internal/domain/domain.go:244-259 | A batch that passes has distinct keys and no negative price |
| `Services.OrderService.CancelOrder` | internal/domain/domain.go:156-178 | Read off the row of the order: who may not cancel is told why and nothing changes, in particular anybody but the owner; otherwise the outcome is the atomic cancel on the tables as they are by then, a cancel of somebody else in between being answered with success |
| `Services.PartnerService.UpdateOrderStatus` | internal/domain/domain.go:196-220 | The same for the partner: anybody but the restaurant of the order is denied; otherwise the atomic update on the later tables, except that a target of cancelled already reached is answered with success |
| `Services.PartnerService.UpsertMenu` | internal/domain/domain.go:239-263 | A batch with a blank name or id, a negative price or an id twice is refused without effect on the tables, the caller's slice tidied up to the first unacceptable position; any other is stored entirely or not at all, every position in a row of the restaurant with its trimmed id and name, its price and its availability, and no other row is touched |
| `Services.CancelLater` | internal/domain/domain.go:156-178 | What the update does on tables that have moved on since the check passed |
| `Queries.GroupItems` | internal/repository/repository.go:383-386 | The map holds for every order exactly its item rows, in their order |
| `Queries.Join` | internal/repository/repository.go:388-393 | Every order gets exactly its own items, those without any get none |
| `Queries.GetOrders` | internal/repository/repository.go:350-451 | Exactly the orders of the user, or of the restaurant and with the status if one is given, each once, newest first, as stored when the orders were selected, with exactly its stored items, although others may commit before the items are selected |
| `Queries.JoinConserves` | internal/repository/repository.go:383-393 | Every item row of a listed order is shown as often as it is stored, and no other |
| `Workers.Tick` | cmd/api/main.go:37-83 | The tick of one worker, with any outcome of every publish and mark, acknowledged or not: what is marked and what is sent |
| `Workers.MarkAllWorksOff` | cmd/api/main.go:63-79 | The tables after a tick differ exactly in the rows whose publish succeeded and whose mark took effect |
| `Workers.CleanTickDrains` | cmd/api/main.go:63-79 | Without failures the loop drains its batch as the pool does |
| `Workers.SucceededWasSent` | cmd/api/main.go:69-77 | What the loop marks it has sent |
| `Workers.ConsumeOne` | cmd/api/main.go:110-125 | One turn of the consumer: the message is received, whatever is answered, unless the database failed without effect, and then nothing changed |
| `Workers.AllPicked` | cmd/api/main.go:99-126 | Without failures that is the whole topic |
| `Pipelines.ReturnsOnce` | restaurant-example/main.go:204-266 | It returns once |
| `Pipelines.TurnsRun` | restaurant-example/main.go:204-266 | What it does turn by turn is a run of the step system |
| `Restaurant.Process.HandleCreated` | restaurant-example/main.go:299-314 | One created message, undisturbed, takes exactly the poller's steps of the step system |
| `Restaurant.Process.HandleCancelled` | restaurant-example/main.go:340-348 | One cancel message, undisturbed, takes exactly the cancel poller's steps |
| `Restaurant.Process.Deferred` | restaurant-example/main.go:205-213 | With anything the others do in between, the deferred load finds its own entry, which is deleted, its context is released and the counter lowered; undisturbed, nothing else changes |
| `Restaurant.Process.SleepContext` | restaurant-example/main.go:268-275 | The wait is cut exactly when the context is over and the select takes that case |
| `FirstOrder.FirstOrderPlaced` | internal/domain/domain.go:55-132 | From an empty service with an active restaurant, a menu upsert and a checkout, statement by statement, lead to a store with exactly one order and one outbox row |
| `KitchenCancels.CancelledFirstNeverStarts` | restaurant-example/main.go:299-310 | Once cancelledOrders holds an order that the poller is not just about to start, no pipeline for it starts in any run, however many duplicates arrive |
| `KitchenCancels.DoomedSendsNothing` | restaurant-example/main.go:219-222 | A pipeline whose context is cancelled before it looks never sends anything |
| `Int64.Wrap` | internal/domain/domain.go:106 | A wrapped number is in range and congruent modulo 2^64 |
| `Int64.WrapAgrees` | internal/domain/domain.go:106 | Two numbers wrap to the same word exactly when they are congruent |
| `Text.TrimSpaceCuts` | internal/domain/domain.go:56 | Trimming cuts spaces at both ends and nothing else |
| `Text.TrimSpaceEmpty` | internal/domain/domain.go:58 | A text trims to nothing exactly when it consists of spaces |
| `Text.TrimIdempotent` | internal/domain/domain.go:246-247 | Trimming again changes nothing |
| `Menu.KeysAreUnique` | migrations/000001_init_schema.up.sql:29-39 | (restaurant, external id) is unique |
| `Queries.ViewTotal` | internal/repository/repository.go:388-395 | The total an answer shows is the 64-bit sum over the items it shows |
| `PlatformRuns.RowKnown` | internal/repository/repository.go:503-526 | Every outbox row is about a stored order, its key and payload agree |
| `PlatformRuns.RelayMarks` | cmd/api/main.go:75-77 | Marking a published row keeps "processed rows were published" |
| `Statuses.ParseRender` | internal/domain/models.go:5-15 | Statuses are texts: parsing loses nothing, and two statuses are equal exactly when their texts are |

## Left out

- HTTP handlers, JSON, gRPC, the interceptor, generated code, error-to-status mapping, API keys, health polling, environment variables.
- Restaurants as data: they are an unchanging map from id to active flag.
- Timestamps, event ids, headers and payload encoding; `created_at` is kept as an abstract stamp of an outbox row, and of an order in `Queries`.
- Aborts the database decides on by itself (deadlock detection, lost connections) are one step that may happen to any transaction at any time; key-share locks of foreign keys are not modelled.
- Two menu upserts of one restaurant that name the same positions in opposite orders can wait for each other, and so can an upsert and an order creation that is still locking its menu rows; the database then aborts one, which is such a step. Progress of upserts, and of order creations before their second check, is therefore not claimed.
- Identity columns and uuids are one supply of fresh ids; ids are not bounded to 64 bits.
- An order creation that is refused because a price changed since the menu was read is not linearized: no moment needs to exist at which an atomic creation would be refused. It changes nothing.
- Repository.Repo.CreateOrder: after a failure the caller's order keeps whatever ids were filled in so far; the contract only says that its lines, total and the tables are unchanged.
- Repository.Repo.GetMenuByRestaurantID: the reported order of rows is arbitrary, as the query has no ORDER BY.
- Services.OrderService.CreateOrder: the method form lets others act at one moment, between reading the menu and the transaction that stores the order; how the statements of that transaction interleave with others is the subject of `Store`. The same holds for CancelOrder and the partner's UpdateOrderStatus.
- Restaurant.Process.HandleCreated: the two poll bodies are methods for a message that nothing disturbs; how their operations interleave with all others is the subject of `Kitchen`, where every interleaving is a run.
- In `Platform` a fetch takes one row at a time and any number may be under way, which covers batches of 50, any number of workers and of replicas; the limit of 50 and the channel are in `Relay` and `Drain`. With several replicas `SKIP LOCKED` may skip rows; `Drain` is about one replica.
- The offset of a status message is committed when it is read, before the update is made (`cmd/api/main.go:99-116`), so in `Platform` a failure or crash in between is an abort that drops the update; reading again happens after a rebalance only, and not for an order whose update is under way. A commit that becomes effective after the crashed consumer's successor has started reading is not considered.
- Partner updates are left out of the end-to-end theorem only, because they are a second source of statuses; the other theorems include them.
- More than one status consumer: the order of updates of one order would then not be kept by `ordersWorkers`.
- The loops of the two services of the API that wait on tickers and signals, and the timeouts of a shutdown.
