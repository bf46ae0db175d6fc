# Order saga over transactional outboxes

This project models the order workflow of the platform: the order, inventory and payment services, their
tables, their outbox publishers, the Kafka log between them and order-creation calls in flight. It treats
them as one state machine and proves what the workflow is for: every order ends confirmed or failed, stock
is neither lost nor oversold, and duplicated, reordered, failed and concurrent processing changes nothing
about that.

Run `dafny verify dfyconfig.toml` to check everything.

## How it is laid out

- `Basics`, `Sums`, `Amounts`: option and transaction results, sums over maps, PostgreSQL number domains.
- `Messages`: topics, routing keys, payloads, envelopes and the consumer-group filter.
- `Outbox`: the outbox table, overlapping publisher ticks, the publisher loop as a class.
- `OrderService`, `InventoryService`, `PaymentService`: each handler as a pure function on the service's
  tables, and as a class whose methods run it statement by statement, roll back on failure, and are proved
  to implement that function.
- `Effects`: what a caller of each operation finds afterwards, in any tables, texts and limits written out.
- `Saga`: the intended exactly-once saga, with no messages at all.
- `Platform`: the whole system as one transition relation over unbounded runs.
- `Ledger`, `Invariant`, `Preservation`, `Reachability`: the inductive invariant and its proof.
- `Refinement`, `Safety`, `Progress`, `OrderProgress`, `Confluence`, `OrderCreation`: the main results about
  runs.
- `Replay`: redelivery to a single consumer.
- `Interleaving`, `Concurrency`: inventory transactions interleaved statement by statement under their locks.
- `LivePlatform`: the whole platform with such transactions in flight.

The network is as hostile as it can be: any logged message may be delivered to any group at any time, any
number of times and in any order; a handler may fail before any of its statements or lose the answer to its
COMMIT; publisher ticks overlap without limit and may die between publishing a row and marking it. No handler checks an order's current
status, so everything rests on the global invariant. Its core is that each order has at most one event of
each kind, that the order's stage can be read off the three services' tables, and that exactly the event
belonging to that stage is still to be acted on.

## Assumptions

- A drawn UUID is non-empty and occurs nowhere yet, uncommitted transactions included.
- SHA-256 over the canonical JSON body is injective; a digest is modelled as its preimage.
- Outbox rows get `created_at` values in insertion order, so a row is named by its position.
- Transactions are serial in `Platform`. For the inventory service `LivePlatform` takes them apart into
  statements, between which everything else goes on, and shows that this adds no run and loses no world.
- Consumer groups exist before the first publish (the consumers subscribe with `fromBeginning: false`), so
  every logged message can be delivered. Only the results in `Progress`, `OrderProgress` and
  `Confluence` need this.
- Initially nothing is ordered or reserved and stock is a non-negative INTEGER per SKU, which generalises
  the seeded rows.
- JavaScript numbers travel through JSON and `pg` as the exact decimal they print as; amounts are reals.

## What the proofs found

- The payment service compares the unrounded amount with 10000 while the tables store it rounded to cents.
  A request of 10000.004 is stored and shown as 10000.00 and declined. `Amounts` gives the exact range in
  which the two disagree.
- The documentation promises that a repeated (user, Idempotency-Key) request returns the original order. In
  the code a call that loses the race between lookup and insert fails on the unique index instead.
  `OrderCreation.RepeatedRequestThrows` gives such a run, `InsertThrowsExactly` says exactly when an insert
  throws, and `LaterLookupsAgree` that every later lookup does replay. The 409 promised for a different body
  (docs/ARCHITECTURE.md:360) gives way to the same error in that race.
- If one event id could come with two payment messages, one that can commit would take effect after one that
  cannot, and first occurrences would not decide. `Replay.PaymentReplay` gives the exact condition; every log
  meets it, because none carries two messages under one id.
- Two different release events for one order, handled concurrently, can give its stock back twice, because
  the release reads the reservation without locking it. `Interleaving` shows this for every held reservation
  of a non-zero quantity whose item has room for it twice, that all other releases are harmless, and that
  interleavings are serial when no order has two release events. `Concurrency` shows that the log never
  carries two, and `LivePlatform` that the running platform is therefore never worse than the serial one.

## Model

| member | source | states |
|---|---|---|
| Amounts.RoundingIsNearestAndStable | infra/postgres/init/001_init.sql:61 | NUMERIC(12,2) storage stays within half a cent of the requested amount and is idempotent |
| Amounts.RoundsToCents | infra/postgres/init/001_init.sql:61 | NUMERIC(12,2) stores whole cents, the nearest to the request, halves away from zero |
| Amounts.NumericDomain | infra/postgres/init/001_init.sql:61 | the column takes an amount if and only if it lies strictly between -9999999999.995 and 9999999999.995 |
| Amounts.ApprovalAgreesWithStoredAmount | apps/payment-service/src/services/payment.service.ts:18 | the approval decision agrees with the stored amount if and only if the request is not over the limit by less than half a cent |
| Amounts.DeclinedAtTheLimit | apps/payment-service/src/services/payment.service.ts:18 | a concrete request stored as exactly 10000.00 and declined |
| Outbox.OutboxStore.GetPendingOutboxBatch | apps/order-service/src/repositories/order.repository.ts:4-21 | at most 25 unmarked rows in insertion order; an unmarked row it leaves out comes after all of a full 25 |
| Outbox.PendingIsRun | apps/order-service/src/repositories/order.repository.ts:11-18 | on a table marked up to row m the snapshot is the contiguous run of at most 25 rows from m |
| Outbox.OutboxStore.PublishOutboxBatch | apps/order-service/src/services/outbox.service.ts:5-11 | a tick on its own, cut off at any await from the snapshot query on, leaves the table and log exactly where the model's micro-steps over by then lead, and throws exactly if it was cut off |
| Outbox.OutboxStore.StartOutboxPublisher | apps/order-service/src/services/outbox.service.ts:13-17 | the timer loop, whichever tick the event loop resumes or fails at each await and whatever rows are inserted meanwhile, takes exactly the model's steps and keeps the prefix order |
| Outbox.ResumptionAdvances | apps/order-service/src/services/outbox.service.ts:7-9 | in any company of ticks, a resumption sends the row the tick stands at or marks the one it has sent, and the tick ends only if it fails or its loop is over |
| Outbox.OthersWake | apps/order-service/src/services/outbox.service.ts:13-17 | the timer starts one more tick at the head of its snapshot whoever is still at work, and inserted rows come last and unmarked |
| Outbox.LoopDrives | apps/order-service/src/services/outbox.service.ts:5-17 | with nothing in between, n turns of the event loop take a fresh tick through its first n awaits |
| Outbox.UndisturbedTickPublishes | apps/order-service/src/services/outbox.service.ts:5-11 | a tick that nothing disturbs sends its snapshot in order, marks exactly that, and ends |
| Outbox.WakeKeepsPrefixOrder | apps/order-service/src/services/outbox.service.ts:5-17 | no turn of the event loop breaks the prefix order |
| Outbox.DriveEffect | apps/inventory-service/src/services/outbox.service.ts:5-11 | those micro-steps send the snapshot in order and mark exactly what has been sent, one send ahead at most |
| Outbox.StepKeepsPrefixOrder | apps/payment-service/src/services/outbox.service.ts:5-17 | starting, publishing, marking and dying ticks in any overlap keep marked and sent rows prefixes of the outbox |
| Outbox.PrefixOrder | apps/order-service/src/services/outbox.service.ts:5-17 | marked rows are a prefix of the sent rows, which are a prefix of the outbox, and first sends follow insertion order |
| OrderService.OrderStore.FindOrderByIdempotency | apps/order-service/src/repositories/order.repository.ts:27-37 | finds a row if and only if the pair is taken, and then one with that user and key |
| OrderService.OrderStore.InsertOrderWithOutbox | apps/order-service/src/repositories/order.repository.ts:39-79 | order row and reserve event commit together or not at all, whichever constraint or statement fails and even if the answer to COMMIT is lost |
| OrderService.OrderStore.CreateOrder | apps/order-service/src/services/order.service.ts:6-64 | replays, reports a conflict, creates or throws, at every fault; a call whose COMMIT answer is lost throws though its order exists |
| Effects.CreateEffect | apps/order-service/src/services/order.service.ts:35-58 | creating fails exactly on a used id, a used pair or a number that does not fit; else one pending row and one reserve request say what the body said, the currency in upper case, the amount rounded in the row only |
| Effects.DigestTellsRequests | apps/order-service/src/services/order.service.ts:13-14 | two bodies get one request hash if and only if sku, quantity, amount and upper-cased currency agree |
| Effects.SagaEventEffect | apps/order-service/src/services/order.service.ts:78-144 | in any tables, which status, reason and follow-up message each saga event leaves, and that it touches nothing else |
| Effects.CommandsAreNoSagaEvents | apps/order-service/src/services/order.service.ts:78-113 | other events change nothing, not even the processed set |
| Effects.ReserveEffect | apps/inventory-service/src/services/inventory.service.ts:43-105 | in any tables, a request is refused exactly when the item is unknown or too few are available, else the units move and one message goes out; a reservation already there keeps its sku and quantity |
| Effects.ReleaseEffect | apps/inventory-service/src/services/inventory.service.ts:12-41 | in any tables, a release gives back exactly what the order holds |
| Effects.PaymentEffect | apps/payment-service/src/services/payment.service.ts:12-45 | in any tables, approval up to 10000 on the amount as carried, the attempt and result message; an attempt already there keeps its amount and currency |
| Effects.IdDecides | apps/inventory-service/src/services/inventory.service.ts:6-17 | the header's event id, or else the payload's, alone decides whether a message fails, is ignored or is marked |
| OrderService.OrderStore.Handle | apps/order-service/src/services/order.service.ts:70-145 | run statement by statement, it commits exactly the pure handler's result or leaves every table as it was; it fails with the result committed only if the answer to COMMIT was lost |
| OrderService.OrderStore.HandleUntilCommitted | packages/database/src/index.ts:17-30 | any number of attempts that die before any statement or lose the answer to COMMIT, then a success, leave the tables as one clean run of the first attempt that got through; later ones are absorbed by the processed set |
| InventoryService.InventoryStore.UpdateItem | apps/inventory-service/src/services/inventory.service.ts:70-79 | moves a quantity between the two counters, or fails without effect on INTEGER overflow |
| InventoryService.InventoryStore.HandleRelease | apps/inventory-service/src/services/inventory.service.ts:12-41 | the release transaction is all or nothing, and idle without a held reservation |
| InventoryService.InventoryStore.HandleReserve | apps/inventory-service/src/services/inventory.service.ts:43-105 | the reserve transaction is all or nothing and emits a reserved or a rejected event |
| InventoryService.InventoryStore.Handle | apps/inventory-service/src/services/inventory.service.ts:5-106 | dispatches, deduplicates and commits exactly the pure handler's result, or changes nothing |
| InventoryService.InventoryStore.HandleUntilCommitted | packages/messaging/src/index.ts:101-115 | the same for inventory commands |
| PaymentService.PaymentStore.Handle | apps/payment-service/src/services/payment.service.ts:5-46 | marks, upserts and emits atomically, exactly as the pure handler says, or changes nothing |
| PaymentService.PaymentStore.HandleUntilCommitted | packages/database/src/index.ts:17-30 | the same for payment commands |
| Ledger.ActKeepsLedger | apps/order-service/src/services/order.service.ts:78-144 | acting on a live event and issuing its successor keeps ids unique, one event per order and kind, and exactly the current stage's event open |
| Ledger.PlaceKeepsLedger | apps/order-service/src/services/order.service.ts:35-58 | so does placing an order with its reserve event |
| Ledger.OneOpenEvent | apps/order-service/src/services/order.service.ts:78-144 | an unsettled order has exactly one open event and a settled one none |
| Ledger.AtMostFiveEvents | apps/order-service/src/services/order.service.ts:35-144 | an order never causes more than five events |
| Ledger.FiveEventsPerOrder | apps/order-service/src/services/order.service.ts:35-144 | so n orders cause at most 5n |
| Preservation.TakeKeepsStock | apps/inventory-service/src/services/inventory.service.ts:54-89 | reserving for an order without a reservation conserves stock, keeps available non-negative and stays in INTEGER |
| Preservation.SecondReserveKeepsStock | apps/inventory-service/src/services/inventory.service.ts:81-89 | a second reserve for an order would keep the books if and only if it repeated a released reservation |
| Preservation.ReleaseKeepsStock | apps/inventory-service/src/services/inventory.service.ts:19-38 | releasing a held reservation commits and conserves stock |
| Preservation.InventoryActs | apps/inventory-service/src/services/inventory.service.ts:5-106 | a first reserve or release on the platform commits, moves its order to the right stage and keeps the invariant |
| Preservation.PaymentActs | apps/payment-service/src/services/payment.service.ts:12-45 | so does a first payment command |
| Preservation.OrderActs | apps/order-service/src/services/order.service.ts:78-144 | so does a first saga event |
| Reachability.DeliveryKeepsInv | packages/messaging/src/index.ts:97-111 | every delivery keeps the invariant; filtered and duplicate ones are no-ops, first ones act |
| Reachability.PublisherKeepsInv | apps/order-service/src/services/outbox.service.ts:5-17 | every publisher action keeps the invariant and the business tables |
| Reachability.InsertKeepsInv | apps/order-service/src/repositories/order.repository.ts:53-78 | every insert, won or lost, keeps the invariant |
| Reachability.StepKeepsInv | apps/order-service/src/services/order.service.ts:70-145 | every action of the platform keeps the invariant |
| Reachability.ReachableHasInv | infra/postgres/init/001_init.sql:55-148 | the invariant holds in every reachable world |
| Refinement.AbsShowsTables | apps/order-service/src/services/order.service.ts:70-145 | what the saga state of a reachable world says of its tables: the orders and their data, the status, reservation and attempt of each stage, and the stock available |
| Refinement.StepRefines | apps/order-service/src/services/order.service.ts:70-145 | in a reachable world every action is exactly the one saga step its label names, or none: publishes, marks, failures, duplicates and lookups are none |
| Refinement.RunRefines | apps/inventory-service/src/services/inventory.service.ts:5-106 | every run of the platform is a run of the exactly-once saga with pauses |
| Refinement.StatusStepsForward | apps/order-service/src/services/order.service.ts:92 | from each world of a run to the next an order appears as PENDING_INVENTORY, or its status stays or takes one arrow, and its request stays |
| Refinement.StatusIsMonotone | apps/order-service/src/services/order.service.ts:109-135 | over any run CONFIRMED and FAILED are absorbing, no status goes back, and no order disappears or changes its request |
| Refinement.ConfirmedWasCharged | apps/order-service/src/services/order.service.ts:119 | in any run an order that is PENDING_INVENTORY and later CONFIRMED was PENDING_PAYMENT in between |
| Safety.SingleToken | apps/order-service/src/services/order.service.ts:35-144 | in every reachable world an unsettled order has exactly one unprocessed outbox row in the whole system, a settled one none |
| Safety.ServicesAgree | apps/order-service/src/services/order.service.ts:103-144 | CONFIRMED has an approved attempt and held stock; FAILED has neither, or a declined attempt and stock released or exactly one release pending; RELEASED means FAILED; the failure reason is "Insufficient inventory" exactly for the orders that failed without a payment attempt, and "Payment authorization failed" for the others that failed |
| Safety.ProcessedMeansDone | apps/order-service/src/services/order.service.ts:79-100 | no event is marked processed without its effect and its follow-up event |
| Safety.StockIsConserved | apps/inventory-service/src/services/inventory.service.ts:28-38 | available plus reserved is the initial stock, reserved is the sum of held reservations, both within 0 and INTEGER's maximum |
| Safety.NeverOversold | apps/inventory-service/src/services/inventory.service.ts:54-79 | confirmed quantity never exceeds reserved, which never exceeds initial stock |
| Safety.HandlersCommit | infra/postgres/init/001_init.sql:91-105 | in a reachable world no handler of a logged message fails on overflow or a constraint |
| Safety.CommandIsStep | packages/messaging/src/index.ts:97-111 | a delivered inventory command commits, leads to a reachable world, and uses up no unused id but the drawn one |
| Safety.DataIsCarried | infra/postgres/init/001_init.sql:55-131 | reservation and attempt say what the order row says, amounts are the rounding of the request, and approval follows the unrounded amount |
| Safety.AmountIsUnchanged | apps/order-service/src/services/order.service.ts:85-90 | the three messages with an amount carry the requested one unchanged |
| Safety.UpsertsOnlyInsert | apps/inventory-service/src/services/inventory.service.ts:81-89 | both ON CONFLICT branches are unreachable, and a release always finds its held reservation |
| Safety.RowsAreWellFormed | apps/inventory-service/src/utils/event.utils.ts:3-16 | every outbox row has one non-empty, system-wide unique id in header and payload, and the topic and routing key its event type is to go out with, type by type |
| Safety.MessagesAreRouted | apps/inventory-service/src/services/inventory.service.ts:6-43 | each logged message is an outbox row; which event types each group accepts, one group for each; the default branch only sees reserve requests |
| Safety.OutboxPrefixOrder | apps/order-service/src/services/outbox.service.ts:5-17 | in every reachable world each outbox has the prefix order, and what was sent is in the log |
| Progress.NoStuckOrder | apps/order-service/src/services/order.service.ts:113-144 | on a quiet platform every order is confirmed or failed, declined ones are released, and the counters are exactly what confirmed orders took |
| Progress.MeasureOfStep | apps/inventory-service/src/services/inventory.service.ts:43-105 | without new orders no action increases the measure and each useful one decreases it |
| Progress.UsefulStepsAreBounded | apps/order-service/src/services/outbox.service.ts:5-11 | under any schedule without new orders at most ten useful steps per order happen |
| Progress.SomethingUseful | apps/order-service/src/services/outbox.service.ts:5-11 | wherever the platform is not quiet a useful step is within three enabled actions |
| Progress.AnythingCanHappen | packages/messaging/src/index.ts:91-115 | nothing prevents the delivery, redelivery or failure of any logged message, the start or death of any tick, or any call for a valid body |
| Progress.QuietStaysQuiet | apps/order-service/src/services/outbox.service.ts:13-17 | without new orders a quiet platform stays quiet, whatever lingering ticks, duplicates and calls still do |
| Progress.EverySchedulerDrains | apps/order-service/src/services/outbox.service.ts:5-11 | every schedule without new orders that never does k useless actions in a row before quiet is quiet after (10n + 1)k actions for n orders, stays so, and has every order settled |
| Progress.DrainExists | apps/order-service/src/services/outbox.service.ts:13-17 | quiet is never far: from every reachable world a path of at most 30 actions per order leads there, every order settled |
| OrderProgress.ActionGrows | infra/postgres/init/001_init.sql:74-90 | no action takes back an outbox row, a mark, a processed id or a logged message, and new rows and messages come last |
| OrderProgress.MeasureOfOrder | apps/order-service/src/services/order.service.ts:78-144 | while other orders arrive, no action increases an order's own measure, which is at most 10 and never negative, and each action useful for it decreases it |
| OrderProgress.SettledStays | apps/order-service/src/services/order.service.ts:109-135 | no action unsettles a settled order |
| OrderProgress.AttendedOrderSettles | apps/order-service/src/services/outbox.service.ts:5-17 | in every schedule, placements included, an order that sees something useful for it in every k actions is settled after 11k and stays so |
| OrderProgress.SomethingUsefulFor | apps/order-service/src/services/outbox.service.ts:5-11 | for every unsettled order some enabled actions lead to one that is useful for it |
| Confluence.NeverRefused | apps/inventory-service/src/services/inventory.service.ts:54-79 | with ample stock no order is refused at any point of any run |
| Confluence.QuiescentOutcome | apps/payment-service/src/services/payment.service.ts:18 | with ample stock a quiet platform has confirmed exactly the orders of at most 10000 and failed and released the others |
| Confluence.SchedulesConverge | apps/order-service/src/services/order.service.ts:70-145 | any two schedules of the same orders, once quiet, agree on orders, reservations, stock and attempts |
| OrderCreation.LookUpIsAtomic | apps/order-service/src/services/order.service.ts:16-33 | a lookup answers from a register of (user, key) pairs: replay with the order's status of that moment for the same canonical body, conflict for another, and nothing changes |
| OrderCreation.InsertIsAtomic | apps/order-service/src/repositories/order.repository.ts:53-78 | an insert of a free pair registers it with one reserve event; a racing loser throws and leaves neither order nor outbox row |
| OrderCreation.RegisterOnlyGrows | infra/postgres/init/001_init.sql:70-72 | no action changes or drops a registered pair |
| OrderCreation.RegistrationIsForever | infra/postgres/init/001_init.sql:70-72 | a registered pair stays the same order with the same body |
| OrderCreation.LaterLookupsAgree | apps/order-service/src/services/order.service.ts:16-33 | every later lookup replays that order, with its status of that moment, for the same canonical body and reports a conflict for another |
| OrderCreation.OneOrderOneRequest | apps/order-service/src/services/order.service.ts:35-58 | at most one order per pair and exactly one reserve event per order, ever |
| OrderCreation.NewCallStarts | apps/order-service/src/services/order.service.ts:6-14 | a call begins with the request it was made with and an order id no row has |
| OrderCreation.CallsAreAtomic | apps/order-service/src/services/order.service.ts:6-64 | linearizability over whole runs: every finished call took effect as one call of the atomic register at a step between its beginning and its end, and its answer stands unless it is lost |
| OrderCreation.OnlyCallsRegister | apps/order-service/src/repositories/order.repository.ts:53-78 | every change of the register in a run is one such call creating its order |
| OrderCreation.BodyIsCarried | apps/order-service/src/services/order.service.ts:35-58 | in every reachable world the order a call created says what the call's body says, and so do its reservation, its attempt and every message about it |
| OrderCreation.ReplayOrConflict | apps/order-service/src/services/order.service.ts:16-33 | a lookup of a pair another call created replays that order with its current status if the two bodies are the same request, and conflicts otherwise |
| OrderCreation.ReplaysAdvance | apps/order-service/src/services/order.service.ts:24-32 | the statuses successive lookups of one pair replay never go back |
| OrderCreation.InsertThrowsExactly | apps/order-service/src/repositories/order.repository.ts:53-78 | in a reachable world a call's insert throws if and only if its pair is registered by then or a number is outside its column's domain, and otherwise creates the order |
| OrderCreation.RaceHasOneWinner | infra/postgres/init/001_init.sql:70-72 | of two calls that both found their pair free, once one has created the order the other throws and changes no table |
| OrderCreation.RepeatedRequestThrows | apps/order-service/src/services/order.service.ts:16-58 | for any stock, user, key and storable body a run in which one of two calls with that pair and body creates the order and the other throws |
| Replay.FoldIsFirstCommits | apps/inventory-service/src/repositories/inventory.repository.ts:31-41 | for any deduplicating consumer and any deliveries, only first commits matter |
| Replay.FirstCommitsCommit | apps/inventory-service/src/repositories/inventory.repository.ts:31-41 | first commits are deliveries of different events that commit one after the other |
| Replay.OccurrencesAreDistinct | apps/inventory-service/src/repositories/inventory.repository.ts:31-41 | first occurrences are one message for each event acted on |
| Replay.SegmentIsAbsorbed | apps/inventory-service/src/repositories/inventory.repository.ts:31-41 | redelivering a processed segment changes nothing |
| Replay.OrderReplay | apps/order-service/src/services/order.service.ts:70-145 | any messages, in any state, leave tables, processed set and outbox as their first occurrences do |
| Replay.LoggedCommandsCommit | apps/inventory-service/src/services/inventory.service.ts:12-105 | from a reachable world every delivery in any sequence of logged commands commits |
| Replay.InventoryReplay | apps/inventory-service/src/services/inventory.service.ts:12-105 | from a reachable world any sequence of logged commands leaves what its first occurrences leave, and leads to a reachable world |
| Replay.PaymentReplay | apps/payment-service/src/services/payment.service.ts:12-45 | payment commands leave what their first occurrences leave if and only if no unprocessed event comes first in a form that can never commit and later in one that can |
| Replay.LoggedPaymentsReplay | apps/payment-service/src/services/payment.service.ts:12-45 | so any sequence of messages from the log of a reachable world does, because none carries two messages under one id |
| Interleaving.CommitIsAtomic | apps/inventory-service/src/services/inventory.service.ts:12-105 | at its commit a statement-by-statement transaction does what its handler would do in one go on the tables of that moment |
| Interleaving.SlipIn | apps/inventory-service/src/services/inventory.service.ts:19-26 | a release that found nothing fits into the serial history wherever it would have found nothing |
| Interleaving.EveryInterleavingIsSerial | apps/inventory-service/src/services/inventory.service.ts:12-105 | every interleaving, with duplicates and crashes, ends as some serial order of the committed transactions if no order has two release events |
| Interleaving.AvailableStaysNonNegative | apps/inventory-service/src/services/inventory.service.ts:49-79 | no interleaving, racing releases of one order included, makes the available quantity negative |
| Interleaving.NoDeadlock | apps/inventory-service/src/services/inventory.service.ts:12-105 | in every schedule, racing releases included, while anything is in flight some transaction need not wait |
| Interleaving.TwoReleasesRace | apps/inventory-service/src/services/inventory.service.ts:19-38 | for every held reservation of a non-zero quantity, of an item with room for it twice, two different release events can give the stock back twice, which no serial order does |
| Interleaving.HarmlessRaceIsExplainable | apps/inventory-service/src/services/inventory.service.ts:19-38 | releases of any other held reservation end as a serial order in every interleaving, however many release events there are |
| Interleaving.RaceExactlyWhenDistinct | apps/inventory-service/src/services/inventory.service.ts:14-38 | two releases of a held order always have a serial explanation if and only if they are the same event or its stock cannot be given back twice |
| Concurrency.LogHasOneReleasePerOrder | apps/order-service/src/services/order.service.ts:123-144 | the log of a reachable world never carries two release events for one order |
| Concurrency.ConcurrentHandlingIsSerial | apps/inventory-service/src/services/inventory.service.ts:12-105 | so concurrent handling of logged messages is serial and never leaves a negative available quantity |
| LivePlatform.MoveRefines | apps/inventory-service/src/services/inventory.service.ts:12-105 | with inventory transactions in flight, each statement, commit, crash or action of any other part is one action of the platform or none |
| LivePlatform.LiveRunRefines | packages/database/src/index.ts:17-30 | every run with inventory transactions in flight while publishers, the other services, order creation and the log go on is a run of the platform with pauses, and all its worlds are reachable |
| LivePlatform.LiveHasNoDeadlock | apps/inventory-service/src/services/inventory.service.ts:12-105 | whenever any is in flight, some inventory transaction can take its next statement |
| LivePlatform.ElsewhereIsFree | packages/database/src/index.ts:17-30 | whatever inventory transactions are in flight, every other action of the platform can be taken |
| LivePlatform.BeginIsFree | packages/database/src/index.ts:17-30 | and the handling of any logged command can begin, again or for the first time, and any transaction be lost |
| LivePlatform.SameWorlds | apps/inventory-service/src/services/inventory.service.ts:12-105 | a world is reachable with serial transactions if and only if it is reachable with transactions in flight |
| Interleaving.FailureAborts | apps/inventory-service/src/services/inventory.service.ts:28-36 | a statement fails only where the handler as a whole would |

## Left out

- OutboxStore.PublishOutboxBatch: does not model the broker acknowledging late; a send whose answer is lost is a publish followed by the end of its tick.
- ToUpper: does not model Unicode case mapping; only ASCII letters change.
- Kafka connections, partitions, offsets and consumer groups: replaced by a log from which anything may be delivered at any time.
- JSON text, SHA-256 and UUID generation: structural payloads, an injective digest and a supply of unused ids.
- Topic and routing key columns of `processed_events`, correlation ids, timestamps and logging: nothing in the workflow reads them.
- `created_at` ties and transactions that commit out of `created_at` order: insertion order is taken as the order of the outbox.
- The 1500 ms timer: a tick may start at any moment.
- Statement-level interleaving in the order and payment services: each touches one row per order besides its processed set.
- BFF, gateway, sessions, RBAC, Auth0, circuit breakers, rate limits and reporting queries: unrelated to the order workflow.
