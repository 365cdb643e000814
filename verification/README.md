# Flash sale: a verified model

This project models a flash-sale backend and proves what it promises. A request passes an atomic Redis
admission script that takes a unit of stock, remembers the buyer and appends a message to the item's stream.
Stream consumers carry each message to an inventory service and then to an order service, at least once. The
order service writes an outbox row with each order; relays lease those rows and publish them to Kafka;
consumers turn them into notifications and into result projections. No transaction spans the stores. What
holds, holds as an invariant over every interleaving, redelivery, crash and lost answer, and is stated here
over all runs of two state machines.

How the files fit together:

- `Text`, `OrderNumbers`, `StreamMessages`, `OrderEvents`, `Messages`: texts, numbers and message formats with
  their round trips.
- `RedisSlot` with `RedisKeys`, `Inventory`, `Orders`, `OrderStore`, `Notifications`, `OutboxTable`, `RelayPass`,
  `ConsumerProcess`, `SyncAdmission`: one module per store or process. A store is a datatype with one function per
  script or transaction, and a class whose methods change the fields statement by statement and are proved equal to
  those functions.
- `Pipeline` is the machine from admission to result, over Redis, inventory, orders, consumers and calls in
  progress. `PipelineInvariant` states what it keeps: a core in every run, and a timed part when publishing comes
  before the start. `PipelineSteps`, `PipelineAdmission` and `PipelineServices` prove the core action by action,
  `PipelineRuns` lifts it to runs, `PipelineTimed` adds the timed part; `PipelineTheorems`, `PipelineResults`,
  `PipelinePatience` and `PipelineProgress` draw the conclusions. `LatePublish` shows what goes wrong when a
  publish comes late, and the exact condition under which it does not.
- `Delivery` is the machine from order to notification. It joins `OutboxRelay` (leases; proofs in
  `OutboxLeases`, conclusions in `OutboxTheorems`) and `Consumers` (offsets, retry topic, DLQ).
  `DeliveryContent` adds what the notifications say; `DeliveryProgress` and `ConsumerProgress` say when rows and
  partitions can move on. `EndToEnd` joins both machines on one order table.
- `StockModes` with `StockEnds`, `Drift`, `Breaker`, `Backoff`: the three stock modes as interleaved transactions, the
  drift report read while a sale goes on, the circuit breaker against its history, the two backoff loops.

An event whose guard does not hold changes nothing, so every sequence of events is a run and the theorems need
no scheduling assumption. The one assumption on the environment is named `Timely`: a preheat's publish
executes before its sale starts. Only what concerns stock, buyers and own reservations needs it, and those
theorems say so; nothing lost, success final, no payload conflict and the equality with one clean processing
hold in every run.

Places where the code does less than one might expect, each with its exact condition proved:

- A stream order number made at a negative time does not give its item back (`StreamOrderNoRoundTrip`); a
  synchronous one gives its time back exactly for positive times (`OrderNoRoundTrip`).
- A publish that executes late keeps every promise in every continuation exactly while the item's results hash
  is empty, which can be read before the call (`LatePublishExactly`). Otherwise, from every such state, a user
  who was admitted is admitted again (`RepublishDoublesPromise`) and more units are promised than exist
  (`RepublishOverpromises`); `LatePublishAdmitsTwice` is one such run in full.
- A second number of a user becomes a second order without a reservation, because the adapter drops the order
  number of the winner it is granted (`SecondNumberSecondOrder`); in timely runs nobody has a second number.
- After such a publish a request can be promised a unit that does not exist. It then goes to the DLQ without all
  its deliveries, exactly when no unit is left and neither its number nor its user holds one
  (`QueuedEndsExactly`, `DeadLettersWereTried`); in timely runs that never happens
  (`TimelyDeadLettersWereTried`, `AlwaysAUnit`).
- The largest attempt number in a Kafka header wraps round (`AttemptRises`), so one configuration exceeds its
  attempts (`ChainWithinAttempts`, at an input in `WrappedChain`).
- The RPC backoff doubles before it compares and can overflow (`BackoffExactly`, `UnguardedOverflow`); the
  outbox delay cannot (`RetryDelay`).
- A poison record without key or value can be neither committed nor forwarded and holds its partition up for good;
  every other record can be passed (`PartitionMovesExactly`).
- A half-open probe that ends in cancellation or an internal error keeps the breaker shut until something
  else is recorded (`ProbeDecides`, at an input in `CancelledProbeBlocks`).
- The pessimistic stock update relies on its row lock alone (`UnlockedOversells`).

`dafny verify dfyconfig.toml` checks the whole project.

## Model

| member | source | states |
|---|---|---|
| PipelineTheorems.StreamOrderIsReserved | internal/seckill/streamqueue/rpc_processor.go:71-95 | in every timely run each stream order has a reservation with its number and user, for the item its number names, and consists of one unit at the snapshot that reservation froze |
| PipelineTheorems.OneOrderPerUser | internal/seckill/redisgate/gate.go:71-117 | in every timely run a user has at most one order per item |
| PipelineTheorems.OrdersWithinStock | internal/seckill/mysqlrepo/reservation.go:62-131 | in every timely run orders of an item never outnumber its reservations, and these never outnumber the units on sale |
| PipelineTheorems.ReservedWithinStock | internal/seckill/mysqlrepo/reservation.go:84-131 | with no assumption on Redis or publishing: every unit is available or reserved, none twice, and a user holds at most one reservation of an item |
| PipelineTheorems.AcceptedIsNeverLost | internal/seckill/streamqueue/runtime.go:20-56 | in every run, however late a publish comes: from the moment the gate accepts a request, in every later state its number is a committed order, in the stream, or in the DLQ |
| PipelineTheorems.QueuedIsGenuine | internal/seckill/streamqueue/runtime.go:27-56 | in every run a message still in a stream has fewer recorded failures than deliveries allowed and is the encoding of a request the gate admitted for that item |
| PipelineTheorems.GateConserves | internal/seckill/redisgate/gate.go:71-133 | in every timely run an open gate's stock plus its buyers equals the item's initial stock at every step, and the buyers with their order numbers are exactly the admitted requests |
| PipelineTheorems.NeverRefused | internal/seckill/mysqlrepo/reservation.go:25-60 | an inventory call of an admitted request is never refused for stock, conflict or a missing item, in any timely run |
| PipelineTheorems.SucceededIsFinal | internal/seckill/seckill.go:347-369 | in every run a result reported SUCCEEDED is a committed order of the asking user and every later query answers SUCCEEDED, whatever failures are written meanwhile |
| PipelineResults.QueryAnswersExactly | internal/seckill/seckill.go:347-369 | what the result query answers, over every run and with any activity between its two reads: SUCCEEDED to the admitted user once the order is committed, otherwise the status last written for the number; nothing to anybody else, and nothing to him only if his request carries a time before 1970 |
| PipelineResults.ResultIsLastWritten | internal/seckill/streamqueue/runtime.go:27-56 | in every run the results hash holds, for each admitted number and under its user, what admission, final failure or first projection wrote last, and nothing else changes it |
| PipelineResults.AcceptedReadsQueued | internal/seckill/redisgate/gate.go:100-116 | from every state of every run, right after the gate accepts a request its user reads QUEUED |
| PipelineResults.ProjectedReadsSucceeded | internal/seckill/resultprojector/projector.go:22-43 | from every state of every run, projecting a stream order whose event is not in the ledger makes its user read SUCCEEDED from Redis, even after a FAILED; a repetition changes nothing |
| PipelineResults.AbandonedIsCounted | internal/seckill/streamqueue/runtime.go:255-291 | a call given up on, inventory or order, counts as one failure that is not terminal, under the code of its reason |
| PipelineResults.InvalidatedRefuses | internal/seckill/redisgate/gate.go:368-383 | after an item is invalidated the gate answers everybody, earlier buyers included, that it is not ready |
| PipelineTheorems.ProjectorNeverConflicts | internal/seckill/resultprojector/projector.go:22-82 | in every run the event of a committed stream order is not skipped, goes to the item its request was admitted for and never meets an owner or ledger conflict |
| PipelineTheorems.ReservationAsIfOnce | internal/seckill/mysqlrepo/reservation.go:25-60 | in every run, after any number of interleaved and repeated processings, the reservation equals that of one clean processing, up to its row number |
| PipelineTheorems.OrderAsIfOnce | internal/order/mysqlrepo/repository.go:33-118 | likewise the order, its lines and its whole outbox row, in every run |
| PipelineTheorems.InventoryNeverConflicts | internal/seckill/mysqlrepo/reservation.go:133-139 | in every run the inventory never answers a pipeline request with a conflict or a missing item |
| PipelineTheorems.OrderServiceNeverConflicts | internal/order/mysqlrepo/repository.go:45-62 | in every run an order request executed once more is created or replayed with its own order; never a payload conflict |
| PipelineTheorems.RunKeepsService | internal/seckill/mysqlrepo/reservation.go:25-131 | the inventory invariant holds in every run, timely or not, and reservations are permanent |
| PipelinePatience.DeadLettersWereTried | internal/seckill/streamqueue/runtime.go:255-299 | in every run each DLQ entry is an admitted request, and one with a positive time got there after exactly the allowed number of failures, or with the item sold out and nothing for its number or user |
| PipelinePatience.TimelyDeadLettersWereTried | internal/seckill/streamqueue/runtime.go:255-299 | in timely runs only after exactly the allowed number of failures |
| PipelineProgress.QueuedEndsExactly | internal/seckill/streamqueue/runtime.go:255-267 | from every state of any run one undisturbed processing of a queued message commits its order exactly when the inventory has a unit for it, and otherwise puts it into the DLQ with one failure more |
| PipelineProgress.QueuedCanComplete | internal/seckill/streamqueue/runtime.go:255-267 | from every state of a timely run a queued message can be carried to a committed order by ten undisturbed actions, without a DLQ entry, its own reservation standing |
| PipelineProgress.CrashedIsFetchedAgain | internal/seckill/streamqueue/runtime.go:184-267 | a crash loses nothing but the worker: its message is fetched again |
| PipelineProgress.PreheatOpens | internal/seckill/activity_service.go:101-123 | a preheat before the start, published at once, opens a gate with the stock there is and no buyer, which sells exactly in the sale's window |
| PipelineProgress.SecondNumberSecondOrder | cmd/seckill-orchestrator/adapters.go:44-47 | from every state of any run: a queued second number of a user who already holds a reservation becomes a second order, and that order has no reservation |
| PipelineProgress.AloneGrantsExactly | internal/seckill/mysqlrepo/reservation.go:25-60 | a call left alone is granted exactly when a unit is left or its number or user already holds one |
| PipelineProgress.AlwaysAUnit | internal/seckill/redisgate/gate.go:71-117 | in timely runs the inventory has a unit for every admitted request |
| PipelineProgress.RequestSucceeds | internal/order/order.go:130-139 | an order request of the pipeline is created or replayed whenever the server's clock is after 1970 |
| PipelineServices.RequestNeverConflicts | internal/order/mysqlrepo/repository.go:45-62 | under the core invariant, however often it is executed, a pipeline request meets its own order or none; never a payload conflict |
| PipelineRuns.RunKeepsCore | internal/seckill/streamqueue/rpc_processor.go:71-95 | the core invariant holds in every state of every run, with no assumption on publishing |
| PipelineTimed.RunKeepsInv | internal/seckill/redisgate/gate.go:71-133 | the whole invariant, with stock, buyers and own reservations, holds in every state of every timely run |
| PipelineRuns.RunLater | internal/order/mysqlrepo/repository.go:28-33 | items on sale are fixed; admissions and orders are permanent, in every run |
| PipelineAdmission.EnqueueKeepsCore | internal/seckill/redisgate/gate.go:71-117 | every step of the admission script, admitting or not, keeps the core invariant |
| PipelineSteps.FetchKeepsCore | internal/seckill/streamqueue/runtime.go:184-267 | fetching and decoding any message, any number of times, keeps the core invariant |
| PipelineSteps.ReceiveKeepsCore | internal/seckill/streamqueue/rpc_processor.go:77-82 | receiving any inventory answer keeps the core invariant |
| PipelineSteps.GrantFitsItem | cmd/seckill-orchestrator/adapters.go:28-48 | whichever reservation a grant names, the snapshot the adapter passes on is the frozen one of the request's item |
| PipelineTimed.GrantIsOwn | cmd/seckill-orchestrator/adapters.go:28-48 | in timely states, although the adapter drops the reservation's order number, a grant to an admitted request is that request's own reservation |
| PipelineTimed.PublishKeepsTimed | internal/seckill/redisgate/gate.go:119-133 | a publish before the start opens a gate that accounts for every unit |
| PipelineTimed.EnqueueKeepsTimed | internal/seckill/redisgate/gate.go:71-117 | an admission keeps stock plus buyers, one number per user and no more promises than units |
| PipelineTimed.ExecKeepsTimed | internal/seckill/streamqueue/rpc_processor.go:71-95 | every timely step keeps the timed part of the invariant |
| PipelineSteps.SuccessKeepsCore | internal/seckill/streamqueue/runtime.go:20-25 | reporting success keeps the core invariant, no request being lost by the removal of its message |
| PipelineSteps.FailureKeepsCore | internal/seckill/streamqueue/runtime.go:27-56 | reporting failure, counted or final, keeps the core invariant |
| PipelineSteps.ProjectKeepsCore | internal/seckill/resultprojector/projector.go:22-43 | projecting the event of any order keeps the core invariant |
| PipelineSteps.PublishKeepsCore | internal/seckill/redisgate/gate.go:119-133 | a publish at any time keeps the core invariant |
| PipelineSteps.InvalidateKeepsCore | internal/seckill/redisgate/gate.go:368-383 | invalidating an item at any time keeps the core invariant |
| PipelineSteps.LoadKeepsCore | internal/seckill/activity_service.go:101-123 | reading a stock figure for a preheat keeps the core invariant |
| PipelineSteps.FullStockBeforeStart | internal/seckill/activity_service.go:101-123 | a stock figure read before the start is the full initial stock |
| Pipeline.PublishedSells | internal/seckill/redisgate/gate.go:328-352 | a published hash sells exactly in its window and outlives it by five to five and a half minutes |
| Pipeline.GenerationNames | internal/seckill/redisgate/gate.go:338-338 | equal generations mean the same activity, stock version and end |
| PipelineServices.StatementKeepsCore | internal/seckill/mysqlrepo/reservation.go:25-131 | any statement of any inventory call, failing before or after its effect, keeps the core invariant |
| PipelineServices.ExecuteKeepsCore | internal/order/rpcserver/server.go:47-60 | executing an order request, with its answer delivered or lost, keeps the core invariant |
| LatePublish.LatePublishExactly | internal/seckill/activity_service.go:116-122 | from every reachable state, a publish of an earlier stock figure, however late, keeps one number per user and item and no more promises than units in every timely continuation if and only if the item's results hash is empty |
| LatePublish.RepublishDoublesPromise | internal/seckill/redisgate/gate.go:119-133 | for every state and every admitted request: after the publish the same user is admitted a second time under any unused number |
| LatePublish.RepublishOverpromises | internal/seckill/redisgate/gate.go:119-133 | for every state in which the item has sold: after the publish as many newcomers as there are units are all admitted, so more is promised than exists |
| LatePublish.UnsoldPublishIsHarmless | internal/seckill/activity_service.go:116-122 | while nothing of the item is admitted, a publish keeps every promise in every timely continuation |
| PipelineResults.ResultsShowAdmissions | internal/seckill/redisgate/gate.go:100-103 | the keys of an item's results hash are exactly the numbers ever admitted for it |
| LatePublish.NumberIsLeft | internal/seckill/seckill.go:418-429 | an unused order number can always be drawn: an item has fewer units than one time has numbers |
| LatePublish.BeforeStartIsSound | internal/seckill/activity_service.go:116-122 | before the start nothing of the item is admitted, so a timely publish is always harmless |
| LatePublish.BeforeStartNothingOnFile | internal/seckill/activity_service.go:116-119 | before the start the results are empty, so the clock check is enough for a publish that is in time |
| LatePublish.LatePublishAdmitsTwice | internal/seckill/activity_service.go:116-122 | a concrete run in which a delayed publish promises one unit twice to the same user |
| RedisSlot.ResultRoundTrip | internal/seckill/redisgate/gate.go:300-326 | a stored result is read back by its owner, with its exact status, and by nobody else |
| RedisSlot.OwnerTestIsExact | internal/seckill/resultprojector/projector.go:35-36 | the script's prefix comparison accepts exactly the stored owner |
| RedisSlot.FirstNumberComesBack | internal/seckill/redisgate/gate.go:32-80 | an admitted user gets the first order number back, and nothing changes; the two scripts differ only outside the sale window |
| RedisSlot.ReserveExactly | internal/seckill/redisgate/gate.go:32-66 | which refusal means what: a newcomer is admitted exactly at a selling hash with a unit left and takes that unit; sold out, unavailable, not ready and already reserved each exactly in their case, with nothing changed |
| RedisSlot.SellsToTheLast | internal/seckill/redisgate/gate.go:32-66 | a selling hash with n units admits any n newcomers one after the other, each under his own number, and the next one finds it sold out |
| RedisSlot.ReserveAndEnqueueExactly | internal/seckill/redisgate/gate.go:71-117 | the same for the stream script, where a buyer is answered even outside the window and the activity must be known |
| RedisSlot.AdmittedIsQueued | internal/seckill/redisgate/gate.go:100-116 | an admission is readable as QUEUED by its user alone, and its message decodes to exactly what was put in |
| RedisSlot.FailureIsVisible | internal/seckill/streamqueue/runtime.go:27-56 | a failure is either counted with nothing else changed, or final: message gone, DLQ entry with the count, FAILED readable |
| RedisSlot.CompletedIsForgotten | internal/seckill/streamqueue/runtime.go:20-25 | a completed message is gone with its count of failures, and no other message notices |
| RedisSlot.ProjectionIsVisible | internal/seckill/resultprojector/projector.go:22-43 | a projection is readable as SUCCEEDED, repeats without effect, and a conflict changes nothing |
| RedisSlot.ProjectExactly | internal/seckill/resultprojector/projector.go:22-43 | each verdict exactly: repeated and ledger conflict by the ledger, expired exactly without a result, projected exactly for the stored owner; the result changes exactly when projected |
| RedisSlot.UnknownIsReported | internal/seckill/redisgate/gate.go:300-326 | a stored text that is none of the three statuses is reported to its owner as unknown |
| RedisKeys.RedisItem.RunReserve | internal/seckill/redisgate/gate.go:32-66 | the synchronous admission script on hashes of decimal texts does to the texts what its function does to the values |
| RedisKeys.RedisItem.RunReserveAndEnqueue | internal/seckill/redisgate/gate.go:71-117 | so does the stream admission script, which passes the stored activity text straight into the message |
| RedisKeys.RedisItem.RunPublish | internal/seckill/redisgate/gate.go:119-133 | the nine fields written as texts read back as the published values, with no buyer left |
| RedisKeys.ReadsBack | internal/seckill/redisgate/gate.go:82-93 | whatever the scripts test and convert in the stored texts are the values: ready, status, times, stock, expiry, activity |
| RedisKeys.RedisItem.RunFail | internal/seckill/streamqueue/runtime.go:27-56 | the failure script, which counts first and tests the user as text, equals its one-step function, with the count and verdict it returns |
| RedisKeys.RedisItem.RunProject | internal/seckill/resultprojector/projector.go:22-43 | the projection script, with its prefix test on the stored text, equals its one-step function |
| Inventory.RunKeepsInv | internal/seckill/mysqlrepo/reservation.go:25-139 | over every run of interleaved, failing and repeated calls units are conserved and nothing a call was told becomes untrue |
| Inventory.GrantsAgree | internal/seckill/mysqlrepo/reservation.go:25-60 | two grants to the same request name the same reservation |
| Inventory.OutOfStockIsFinal | internal/seckill/mysqlrepo/reservation.go:32-60 | after an out-of-stock answer neither the number nor the user ever holds a reservation of the item |
| Inventory.DeductedOncePerReservation | internal/seckill/mysqlrepo/reservation.go:84-131 | stock falls and the version rises by exactly the number of new reservations, whatever runs in between |
| Inventory.LostAnswerIsFound | internal/seckill/mysqlrepo/reservation.go:25-60 | a reservation whose answer got lost is granted to the same request whenever it is repeated, whatever runs in between |
| Inventory.CallAlone | internal/seckill/mysqlrepo/reservation.go:25-60 | a call that is left alone answers, in at most four statements, as the whole call does |
| Inventory.RepeatIsReplay | internal/seckill/mysqlrepo/reservation.go:26-59 | repeating a granted request later deducts nothing and returns the same reservation |
| Inventory.OtherPayloadConflicts | internal/seckill/mysqlrepo/reservation.go:133-139 | the same order number with another payload is refused and changes nothing |
| Inventory.ReservationStore.ReserveOnceTx | internal/seckill/mysqlrepo/reservation.go:62-131 | the transaction on the tables, with its rollback on a duplicate key, equals the one-step function |
| Inventory.ReservationStore.Reserve | internal/seckill/mysqlrepo/reservation.go:25-60 | the whole call on the tables equals its function |
| Orders.NormalizeItemsLoop | internal/order/mysqlrepo/repository.go:120-153 | no overflow; accepted exactly when the items are valid, SKUs distinct and the true sum fits 64 bits, with that sum and those subtotals |
| Orders.Subtotal | internal/order/mysqlrepo/repository.go:138-141 | the guarded product is refused exactly when the true amount does not fit |
| Orders.CreateKeepsOutbox | internal/order/mysqlrepo/repository.go:33-118 | orders and outbox rows stay in one-to-one correspondence, each row carrying its order's event |
| Orders.CreateIsIdempotent | internal/order/mysqlrepo/repository.go:44-62 | repeating a create after any later creates changes nothing and returns the first order |
| Orders.OtherPayloadConflicts | internal/order/mysqlrepo/repository.go:160-173 | under a used number a request is a replay exactly when user, total and every line are equal; any other is refused and nothing changes |
| Orders.SameTotalStillConflicts | internal/order/mysqlrepo/repository.go:160-173 | a second basket with another SKU under the same number is refused even if user and total are the same |
| Orders.OneItemExactly | internal/order/mysqlrepo/repository.go:120-153 | when a single line is accepted, on its plain fields |
| Orders.EventTells | internal/order/mysqlrepo/repository.go:82-89 | the event carries the order's number, user, total and time, and is a seckill event exactly for numbers that start with T |
| Orders.CreateGrows | internal/order/mysqlrepo/repository.go:33-118 | no create changes or removes an order or a row |
| OrderStore.OrderTables.Create | internal/order/mysqlrepo/repository.go:33-118 | the transaction over three tables is the one-step create on their join |
| OrderStore.OrderTables.InsertAll | internal/order/mysqlrepo/repository.go:68-112 | order, lines and outbox row appear together or not at all |
| OrderStore.JoinInsert | internal/order/mysqlrepo/repository.go:236-255 | new lines belong to their own order and change no other order's lines |
| OrderEvents.EventIdNamesOrder | internal/order/events/order_created.go:39-43 | equal event identifiers name the same order number |
| OrderEvents.BuiltEventDecodes | internal/order/events/order_created.go:45-101 | every event a service builds is accepted unchanged by every consumer |
| OrderEvents.ValidExactly | internal/order/events/order_created.go:57-68 | which events consumers accept, on plain fields |
| OrderNumbers.StreamOrderNoRoundTrip | internal/seckill/seckill.go:418-449 | the item is recovered from a stream order number exactly for non-negative times |
| OrderNumbers.OrderNoRoundTrip | internal/seckill/seckill.go:407-465 | the time is recovered from a synchronous order number exactly for positive times |
| OrderNumbers.StreamOrderNoNamesItem | internal/seckill/seckill.go:418-449 | equal stream order numbers name the same item |
| OrderNumbers.ReadItemHasForm | internal/seckill/seckill.go:433-449 | whatever text an item is read from is T with a 64-bit number, that item in digits and eight hexadecimal bytes, joined by dashes |
| OrderNumbers.ReadTimeHasForm | internal/seckill/seckill.go:451-465 | whatever text a time is read from is S, that time and eight hexadecimal bytes |
| SyncAdmission.ReplayRebuildsRequest | internal/seckill/seckill.go:371-405 | the first attempt carries its own clock reading; a repeated one rebuilds that request, number and time, exactly when the first time is positive |
| SyncAdmission.NewcomerGoesOn | internal/seckill/seckill.go:371-405 | a newcomer goes on to MySQL exactly when the hash sells and a unit is left, with a new number at this time |
| StreamMessages.DecodeEncode | internal/seckill/streamqueue/message.go:32-62 | a message the gate wrote decodes to exactly the request put in, or, at a non-positive time, names its order and user |
| StreamMessages.ForeignItemRefused | internal/seckill/streamqueue/message.go:53-57 | a message in another item's stream is refused |
| StreamMessages.DecodedIsSound | internal/seckill/streamqueue/message.go:32-62 | whatever a message holds, a decoded request is well formed |
| StreamMessages.DecodedIsRead | internal/seckill/streamqueue/message.go:32-62 | a decoded request has all seven fields, says what they say and is of the one supported version |
| Delivery.OrderEventNeverLost | internal/platform/mq/consumer.go:50-81 | every committed order has exactly one outbox row, and its event is pending there, uncommitted in a topic, in the DLQ, or in the ledger |
| Delivery.NotifiedOnce | internal/notification/mysqlrepo/repository.go:21-64 | notifications and ledger rows match one to one and no order has two notifications, whatever is delivered how often |
| Delivery.PublishedIsDelivered | internal/order/outboxrelay/relay.go:75-109 | a row marked published stands for a record in the topic with its key and payload |
| Delivery.RunKeepsInv | internal/order/outboxrelay/relay.go:52-109 | the invariant of outbox, topics and notifications holds in every run |
| DeliveryContent.NotificationsTellOrders | internal/notification/mysqlrepo/repository.go:21-43 | with no other producer on the topics, each notification carries number, user, total and time of a committed order |
| DeliveryProgress.DueRowCanBeNotified | internal/order/outboxrelay/relay.go:52-109 | from every state of any run a due outbox row can be carried by six undisturbed steps, over a fresh partition, to a published row and a consumed event |
| DeliveryProgress.PublishExactly | internal/order/outboxrelay/relay.go:81-105 | outcome by outcome: a record whose acknowledgement is lost is in the topic, yet its row counts as refused and will be sent again |
| EndToEnd.NotificationRestsOnReservation | internal/notification/mysqlrepo/repository.go:21-43 | over both machines on one order table, in timely runs: a notification of a stream order goes to the admitted user, who holds that number's reservation, over the price it froze |
| EndToEnd.NotificationTellsAdmission | internal/notification/mysqlrepo/repository.go:21-43 | in every joint run it goes to the user admitted under that number, over the price of the admitted item |
| EndToEnd.NothingLostEndToEnd | internal/platform/mq/consumer.go:50-81 | in every joint run each admitted number is in its stream or DLQ, or a committed order whose event is pending, waiting in a topic or its DLQ, or consumed |
| EndToEnd.RunSides | internal/order/mysqlrepo/repository.go:33-118 | each side of a joint run is a run of that side's machine |
| EndToEnd.RunAgrees | internal/order/mysqlrepo/repository.go:93-107 | both sides see the same order table at every moment |
| Consumers.CommittedIsDone | internal/platform/mq/consumer.go:50-81 | a record below the committed offset was handled, or has a copy with its key, value and other headers in the topic its attempt calls for |
| Consumers.RecordIsTracked | internal/platform/mq/consumer.go:64-81 | along any chain of copies no record is lost: consumed, still waiting, or in the DLQ |
| ConsumerProgress.PartitionMovesExactly | internal/platform/mq/consumer.go:50-81 | from every state of every run a partition can get past its next record if and only if that record can be handled or has both key and value |
| ConsumerProgress.StuckIsNeverPassed | internal/platform/mq/kafka.go:77-80 | in every run no offset passes a poison record without key or value, because no copy of it can be sent |
| Consumers.RunKeepsInv | internal/platform/mq/consumer.go:39-81 | offsets, copies and ledger stay consistent in every run with any number of crashing sessions |
| ConsumerProcess.Consumer.ProcessOne | internal/platform/mq/consumer.go:50-81 | handle, forward, commit in strict order equals the three steps of the machine |
| ConsumerProcess.CommitComesLast | internal/platform/mq/consumer.go:60-80 | the offset moves exactly when the record was handled or its copy confirmed and the commit went out |
| ConsumerProcess.CommittedRecordIsDone | internal/platform/mq/consumer.go:60-80 | a record whose offset was committed is in the ledger or has its copy |
| Messages.AttemptRoundTrip | internal/platform/mq/message.go:25-44 | a written attempt number is read back, a negative one makes the record poison |
| Messages.AttemptExactly | internal/platform/mq/message.go:25-44 | which headers count as which attempt: none or blank as the first, a signed decimal as its number if it is not negative and fits 64 bits, anything else as poison |
| Messages.AttemptRises | internal/platform/mq/consumer.go:66-71 | a copy's attempt is one higher exactly unless it was the largest number there is |
| Messages.HopsExactly | internal/platform/mq/consumer.go:66-71 | the exact number of forwards before a record that is never handled lies in the DLQ |
| Messages.ChainWithinAttempts | internal/platform/mq/consumer.go:66-71 | that number is within the attempts allowed, with exactly one exception |
| Messages.WrappedChain | internal/platform/mq/consumer.go:66-71 | that exception at an input: a valid event with the largest attempt number is forwarded twice where one attempt is allowed |
| Messages.FreshChain | internal/platform/mq/consumer.go:66-71 | a valid event that starts without header is tried exactly as often as allowed |
| Notifications.NotificationStore.ConsumeOrderCreated | internal/notification/mysqlrepo/repository.go:21-64 | insert, then the ledger's unique key decides and the loser's insert is undone |
| Notifications.ConsumeKeepsMatch | internal/notification/mysqlrepo/repository.go:21-64 | consuming keeps notifications and ledger in one-to-one correspondence |
| Notifications.ConsumeOnce | internal/notification/mysqlrepo/repository.go:44-55 | a consumed event stays consumed and a repetition adds nothing |
| OutboxTheorems.LeasesNeverOverlap | internal/order/mysqlrepo/outbox.go:12-67 | when a lease is taken every earlier one on the row has run out or been given back |
| OutboxTheorems.PublishedIsFinal | internal/order/mysqlrepo/outbox.go:26-33 | a published row never changes again and is never leased again |
| OutboxTheorems.LostLeaseIsPowerless | internal/order/mysqlrepo/outbox.go:69-98 | a worker that lost its row cannot change it, in any run, until it leases it anew |
| OutboxLeases.RunKeepsInv | internal/order/outboxrelay/relay.go:75-109 | leases, marks and acknowledged records stay consistent in every run |
| OutboxRelay.SelectExactly | internal/order/mysqlrepo/outbox.go:26-34 | a claim takes due unlocked rows only, in key order, and leaves none out unless the batch is full |
| OutboxRelay.FreshRowIsDue | internal/order/mysqlrepo/repository.go:99-107 | a new outbox row is due from the order's creation on, with no attempt counted and claimed by nobody |
| OutboxRelay.LeaseLasts | internal/order/mysqlrepo/outbox.go:12-67 | a leased row is due for nobody until its lease ends, less than two milliseconds short of its length, and due again from then on |
| OutboxRelay.RefusedIsPutOff | internal/order/outboxrelay/relay.go:82-92 | a refused row has one attempt more, no claim, and is due again at the retry delay after its claim, to the millisecond |
| OutboxTable.Outbox.ClaimOutbox | internal/order/mysqlrepo/outbox.go:12-67 | a claim is refused exactly for a blank worker, no time, no lease or a limit outside 1 to 1000; otherwise the two statements lease exactly the selected rows and report them |
| OutboxTable.Outbox.ProcessBatch | internal/order/outboxrelay/relay.go:75-109 | undisturbed, every leased row is published, with its record in the topic, or put off by the retry delay; no other row changes |
| RelayPass.RelayProcess.ProcessBatch | internal/order/outboxrelay/relay.go:75-109 | with other relays, orders and the clock going on between any two statements: the pass is a run of the machine; if it gets through, every leased row was given back by this worker, each confirmed one is published and each other one has a further attempt counted, and if not, this worker no longer held the row |
| RelayPass.SettledIsAcked | internal/order/outboxrelay/relay.go:82-105 | a row such a pass has published carries an acknowledged record |
| StockModes.RunRefines | internal/seckill/mysqlrepo/repository.go:416-591 | any interleaving of transactions of all three modes is, from outside, its committed claims one by one, each enabled when it happens |
| StockModes.StepRefines | internal/seckill/mysqlrepo/repository.go:538-591 | a step of any mode changes nothing visible or is one enabled claim |
| StockModes.StockIsConserved | internal/seckill/mysqlrepo/repository.go:416-506 | available stock plus claims is constant, never negative, and the version counts the claims |
| StockEnds.EndsAreTrue | internal/seckill/mysqlrepo/repository.go:416-591 | over every interleaving of all three modes what a transaction was told stays true: out of stock means none is left for good, a duplicate and a commit are on file, only the optimistic mode conflicts |
| StockEnds.DecrementExactly | internal/seckill/mysqlrepo/repository.go:538-591 | how each mode's update ends among any others: the optimistic one by what it read and by the version, the others by what is left |
| StockModes.UnlockedOversells | internal/seckill/mysqlrepo/repository.go:520-560 | without FOR UPDATE the pessimistic mode drives the stock negative |
| StockModes.StockTable.PurchaseOnce | internal/seckill/mysqlrepo/repository.go:416-506 | the transaction of each mode on the tables, with rivals committing between its read and its update: its end and the tables' contents |
| StockModes.AttemptMeans | internal/seckill/mysqlrepo/repository.go:538-591 | whatever the mode and the rivals, a commit is an enabled claim, out of stock means none left, a conflict means a rival came in between |
| StockModes.AttemptExactly | internal/seckill/mysqlrepo/repository.go:538-591 | mode by mode how an attempt among rivals ends, if and only if: the optimistic one by what it read and whether a rival came in between, the others by what there is when they update |
| StockModes.AloneAllAlike | internal/seckill/mysqlrepo/repository.go:538-591 | undisturbed, the three modes end alike |
| StockModes.AloneInMachine | internal/seckill/mysqlrepo/repository.go:416-506 | from every state of the machine in which nobody holds the row, a transaction of any mode left alone ends as that attempt does |
| StockModes.StockTable.Purchase | internal/seckill/mysqlrepo/repository.go:350-391 | under any rivals the answer is true of the tables at the end and the tables are the rivals' purchases plus, on success, this one; only attempts that met a rival are repeated, 32 at most, one in the other modes |
| Drift.ReportIsSound | cmd/v03check/main.go:110-149 | with MySQL, Redis state and buyers read at three moments of any sale, all four classes exactly: the alarm when the buyers changed between the two Redis reads or the key has no time left, consistent when every buyer had his claim, ahead when some had not, missing when there was neither state nor buyer |
| Drift.BuildReport | cmd/v03check/main.go:110-149 | the report is unknown exactly on a failed read and otherwise carries both differences and the classification |
| Drift.NewcomerBuys | internal/seckill/seckill.go:371-405 | whoever the synchronous gate admits in a sound sale finds a unit in MySQL and holds it under the number he was admitted with |
| Breaker.ClassifyExactly | internal/platform/rpc/errors.go:62-80 | by codes: exactly timeouts and unavailability count against the dependency, exactly success and seven business refusals for it, and a cancelled context is neither whatever the code |
| Breaker.CircuitBreaker.Allow | internal/platform/rpc/policy.go:103-115 | the decision is the admission rule on the history |
| Breaker.CircuitBreaker.Record | internal/platform/rpc/policy.go:117-134 | the three fields remain what the history says |
| Breaker.FailuresCounted | internal/platform/rpc/policy.go:117-134 | the counter is the number of dependency failures since the last answer |
| Breaker.OpenAdmissionWaits | internal/platform/rpc/policy.go:106-111 | an admission while open comes at least the open period after the latest dependency failure |
| Breaker.OneProbeAtATime | internal/platform/rpc/policy.go:109-114 | two admissions of one open phase have a dependency failure between them |
| Breaker.ProbeDecides | internal/platform/rpc/policy.go:103-134 | after the last probe a call is admitted if and only if an answer or a dependency failure was recorded since and, if still open, the open period has passed |
| Breaker.LostProbeBlocks | internal/platform/rpc/policy.go:117-134 | after a probe that ends unrecorded no call is admitted until an answer or a dependency failure is recorded |
| Breaker.CancelledProbeBlocks | internal/platform/rpc/policy.go:117-134 | a lawful history in which a probe is cancelled and no later time admits a call |
| Breaker.ReportedProbeFrees | internal/platform/rpc/policy.go:120-133 | an answer or a dependency failure admits the next call, after the open period if it was a failure |
| Breaker.Do | internal/platform/rpc/policy.go:53-80 | on a breaker shared with other callers: exactly calls that ended in a timeout or an unavailable service are repeated, only if idempotent, and as long as attempts are left; it stops early only for a dead context, an interrupted wait or the breaker; this caller's entries in the shared history are exactly its calls |
| Backoff.RetryDelay | internal/order/outboxrelay/relay.go:111-123 | equals min(max, base * 2^(attempt-1)) for every attempt and valid configuration, without overflow |
| Backoff.RpcBackoff | internal/platform/rpc/policy.go:86-96 | the loop without jitter in wrapping arithmetic equals its recursive form |
| Backoff.BackoffExactly | internal/platform/rpc/policy.go:86-93 | it meets the formula for every attempt exactly when no delay below the ceiling reaches 2^62 |
| Backoff.SafeCeiling | internal/platform/rpc/policy.go:86-93 | so it does for every ceiling up to 2^62 |
| Backoff.UnguardedOverflow | internal/platform/rpc/policy.go:88-93 | a valid configuration whose third delay is negative |

## Left out

- Key expiry in Redis: every statement is about states before any key expires.
- Liveness: that a queued message can be completed and a due outbox row can be notified is proved, not that schedulers make it happen; discovery of items and worker shutdown are not part of the model.
- Generated order numbers are taken as fresh: an admission whose number was used before does not happen.
- The clocks of all processes are one common clock that each process may have read earlier.
- MySQL and Kafka themselves: tables are maps and sequences with atomic statements or transactions, topics are logs; collation, column widths, deadlocks, row numbers used up by refused inserts and the surrogate keys of order lines are not modelled.
- The JSON form of events is an injective encoding; titles and bodies of notifications are not modelled.
- A zero time recorded by the breaker, and saturation of time differences: an opening time is present or absent.
- The activity status table and the order in which enabling and disabling write it and clear the cache: a gate is open or invalidated, whoever decided so.
- The peak-concurrency counter, jitter in floating point, EVALSHA reloading and the parsing of script replies.
- HTTP handlers, authentication, roles, the product catalogue, the diagnostic and load tools besides the drift report: no invariants of their own.
- Orders of the synchronous purchase path write no outbox row in the source, and `Delivery` knows only orders of the order service.
- Lua's floating-point numbers: the scripts' conversions are exact on 64-bit decimal texts here, while Lua rounds beyond 2^53.
- OutboxTable.Outbox.ProcessBatch: gives the exact rows of an undisturbed pass; under interference only what `RelayPass.RelayProcess.ProcessBatch` states remains true.
- ConsumerProcess.Consumer.ProcessOne: starts from a fetched record; a failing fetch changes nothing.
- StockModes.StockTable.Purchase: rivals are whole committed purchases between this one's read and update; their own statements interleave in the state machine of the same module.
- Breaker.Do: what the calls answer, the clock readings and the other callers' requests are given as functions.
- LatePublish.LatePublishExactly: for sales that start in 1970 or later; a stream order number of an earlier time does not name its item.
