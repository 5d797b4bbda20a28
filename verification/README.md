# TicketRush in Dafny

TicketRush sells seats. PostgreSQL holds the truth about orders, payments, refunds and tickets; a seat inventory with expiring holds (Redis, or PostgreSQL tables) runs beside it; and an outbox feeds Kafka consumers that issue tickets and refund money. This project models that saga and proves what every run of it keeps: under any interleaving, any redelivery, any crash between two steps, and any answer of the inventory.

The layers share one order and seat state:

| layer | modules | what it is about |
|---|---|---|
| saga | `States`, `Sums`, `Saga`, `SagaInv`, `SagaTheorems`, `Moves`, `PaymentRules`, `Store`, `Deliveries`, `Handlers` | each transaction as one atomic step, with the table constraints; the same transactions as methods that update tables in place; concurrent redelivery |
| timed inventory | `SeatKeys`, `Timed`, `TimedInv`, `TimedSteps`, `TimedSafety`, `TimedBounds`, `TimedExact`, `TimedOutcomes`, `Services` | holds with deadlines, transactions split wherever they touch the inventory outside their commit |
| pipeline | `Pipeline`, `PipelineInv`, `PipelineSteps`, `PipelineTheorems`, `PipelinePrefix`, `PipelineGap`, `PipelineDrain`, `Workers` | outbox rows, relay, Kafka partitions, consumer groups, gateway |
| inventories | `RedisInventory`, `PgInventory`, `Backends`, `SeatMap`, `Loads`, `Etags`, `LockOrder` | two backends against each other, the seat-map version, row locks |
| creating orders | `Creates`, `CreatesProof`, `CreatesTheorems`, `CreatesReplies`, `Bookings` | idempotency keys, the two-round loop, the admission ledger |
| waiting room | `WaitingRoom`, `Queue`, `Places`, `SecondPlaces` | overlapping workers and joins, crashes at any pipeline prefix |
| kernels | `Labels`, `Layout`, `Requests` | row labels, seat ids, normal forms |

`dafny verify dfyconfig.toml` checks everything.

Some expectations about the system hold only under a condition that is not obvious from the code; each is stated with the exact one:

- Holds and delays. With the Redis inventory a live hold covers every instant at which an order can still be paid on time, and so two such orders never share a seat, if and only if the delay from hold to insert plus that of the payment transaction is below the grace period and the latter is at most the late hold of 60 s (`TimedExact.CoveredIffFits`, `DisjointIffFits`); how late a confirm is does not matter for this. That no payment meets another order's ticket needs the confirm too, because it comes after the commit: `TimedExact.ConflictFreeIffFits` gives the exact condition on the three delays.
- What Kafka shows of an order. It is a prefix of the order's rows per topic, not across topics. Whenever the relay has locked a batch with a later row of an order while an earlier one is not out, it can show the later one alone if and only if the two go to different topics (`PipelinePrefix.OvertakesIffTopicsDiffer`); `PipelineGap.TopicsCanOvertake` is a reachable run with such a gap, and a published row has no gap before it.
- The two inventories. At the interface they differ on one point only: what an order hears that asks again for its own tickets before they were confirmed (`Backends.SameTakenIff`, `TakenCanDiffer`). The order service never asks that, and `Backends.BackendsAgree` shows that it gets the same answers from both.
- The seat-map version. Every change of a seat owes a bump except one: a confirm that stops part way changes seats and owes none (`SeatMap.ChangeIsBumpedIff`, `PartialConfirmIsSilent`). A bump that is owed may still be lost when the increment fails; the freshness theorems count only bumps that happened.
- One place per user. A join reads the user's key, the token and the rank one after the other and then runs its script, with workers and other joins in between. Joins can give a user two ids that wait or show a token if and only if the hall is not safe (`Places.JoinsDoubleIff`), and a step of the workers or the clock leaves the safe halls if and only if it is one of three (`Places.RoomStepIff`): a tick past the key of a user whose id is still active; a token stored for an id that is no longer active, unless its user's key still names it and no join doubts it; or the removal of an id whose token a join has read as absent just before it was stored. Each of the three occurs (`SecondPlaces`).
- One load per ttl. The seat-map cache shares a load among requests, but a request that looked before a load ended and joins after it starts another one next to a fresh entry, and only such a request does (`Loads.WastedIff`, `SecondLoadWithinTtl`).

The code orders two checks of a webhook differently from the written design, and says so (internal/order/payment.go:66-69): it treats money for an order that is already PAID, TICKETED, REFUNDING or REFUNDED as a double payment before it compares amounts. The model follows the code.

## Model

| member | source | states |
|---|---|---|
| States.LegalHistoryIsShort | internal/order/state.go:23-55 | a history of listed transitions has at most four statuses and never repeats one |
| States.HistoryMilestones | internal/order/state.go:23-55 | a history ends sold iff it passed PAID, and a refunded one passed REFUNDING |
| Moves.TableIsExact | internal/order/state.go:23-55 | a transition is listed iff some transaction after some run takes it |
| SagaInv.PlaceKeeps | internal/order/service.go:259-299 | inserting a held order behind its constraints keeps the whole saga invariant |
| SagaInv.CancelKeeps | internal/order/service.go:337-380 | cancelling keeps the saga invariant |
| SagaInv.ExpireKeeps | internal/order/expiry.go:45-98 | an expiry batch of any size keeps the saga invariant |
| SagaInv.SellKeeps | internal/order/payment.go:217-225 | selling the seats keeps the saga invariant: money, tickets, one applied payment |
| SagaInv.GiveBackKeeps | internal/order/payment.go:229-248 | recording a refund keeps the saga invariant, with or without moving the order |
| SagaInv.PayKeeps | internal/order/payment.go:70-147 | every webhook, with any inventory answer, keeps the saga invariant |
| SagaInv.IssueKeeps | internal/order/tickets.go:46-99 | issuing tickets keeps the saga invariant |
| SagaInv.CompleteKeeps | internal/order/refund.go:66-117 | completing a refund keeps the saga invariant |
| SagaInv.RunKeeps | internal/order/payment.go:158-214 | so does every sequence of transactions |
| SagaTheorems.MoneyIsConserved | internal/order/payment.go:91-126 | after any run, money received is the total of sold orders plus the total of refunds |
| SagaTheorems.TicketsAreExact | migrations/00001_init.sql:59-67 | one ticket per seat at most; an order has a ticket for a seat iff it is sold and named that seat |
| SagaTheorems.ReplayIsTheStatus | internal/order/service.go:384-425 | replaying an order's events by the transition table gives its status, in at most three changes |
| SagaTheorems.MovesAreAnnouncedOnce | internal/order/service.go:395-425 | each transaction writes exactly one announcing event per order it moved, with the new status |
| SagaTheorems.PaymentsStay | internal/order/queries.sql:88-97 | a recorded payment is never rewritten or removed by any later run |
| SagaTheorems.DecidedOnce | internal/order/payment.go:91-126 | once a transaction id is recorded, every later delivery of it changes no table |
| SagaTheorems.MoneyPerOrder | internal/order/refund.go:66-117 | one applied payment iff sold, one undoing refund iff refunding or refunded, REFUNDED iff that refund succeeded |
| SagaTheorems.EveryPaymentIsDecided | internal/order/payment.go:112-126 | no committed payment is undecided; it has a refund iff its outcome says so |
| Store.PriceSumIsTotal | internal/order/service.go:260-266 | each seat is charged once, in whatever order the seats are named |
| Store.Store.InsertHeld | internal/order/service.go:259-299 | the order's total is the total over its seats' prices; it is placed unless a constraint refuses it, and a conflict names a constraint that is really violated |
| Store.Store.Transition | internal/order/service.go:384-393 | moves the order iff the table allows it and it is in the expected status |
| Store.Store.Cancel | internal/order/service.go:337-380 | a HELD order of the user is cancelled with its event, a CANCELLED one is reported as such, not found and not cancellable are told apart, and nothing else changes |
| Store.Store.ExpireDue | internal/order/expiry.go:45-98 | only unlocked HELD orders past their deadline become EXPIRED, and such an order stays only behind a full batch of older ones |
| Store.BatchIsRight | internal/order/queries.sql:46-62 | the same of any batch the query may pick |
| Store.Store.InsertTickets | internal/order/payment.go:260-290 | all tickets are inserted, or behind the savepoint none, and which one depends on the UNIQUE constraint alone |
| Store.Store.Refund | internal/order/payment.go:229-248 | writes the refund, its request event and perhaps the status |
| PaymentRules.PaymentsFollowTheRules | internal/order/payment.go:70-214 | from the tables before the call: when a webhook is refused, ignored, refunded and for which reason, or sells the seats, what late payments make of each inventory answer, and when seats are released |
| PaymentRules.RulesAreComplete | internal/order/payment.go:158-214 | these rules leave nothing open: they determine tables, answer and inventory work |
| Store.Store.Decide | internal/order/payment.go:158-214 | the branches amount to the decision function, rows included |
| Store.Store.ApplyPayment | internal/order/payment.go:70-147 | the transaction with its provisional payment row follows the payment rules, after-commit flags included |
| Store.Store.Issue | internal/order/tickets.go:46-99 | the loop over the tickets amounts to Issue; a paid order without tickets cannot occur |
| Store.Store.Process | internal/order/refund.go:66-117 | gateway call and transaction amount to Complete, and the gateway refunds a transaction once |
| Store.Gateway.HandleRefund | internal/fakepay/fakepay.go:342-367 | refuses what has no transaction, no order or no money, refunds each transaction once |
| Store.ExpireBatchShape | internal/order/queries.sql:46-62 | expiring a batch changes the statuses of its orders and appends their events, nothing else |
| Deliveries.AllReached | internal/order/refund.go:66-117 | any interleaving of handlers leaves exactly the effect of the set of actions in it |
| Deliveries.RedeliveryConverges | internal/order/tickets.go:46-99 | two interleavings with the same actions, however often and in whatever order, end in the same tables, events and gateway refunds |
| Handlers.DeliveredActions | internal/order/refund.go:66-117 | delivering a list of records one by one comes down to the actions they call for |
| Handlers.HandlersConverge | internal/order/refund.go:66-117 | any number of whole handlers, interleaved, retried, duplicated or lost: once every record begun was finished, tables, events and gateway are those of delivering each record once |
| Deliveries.OneEventEach | internal/order/refund.go:87-116 | one ticket.issued iff ticketed, one order.refunded iff the refund succeeded, whatever is redelivered |
| SeatKeys.TakenIsExact | internal/inventory/lua/hold.lua:6-17 | the script reports exactly the requested seats somebody else holds or bought |
| SeatKeys.ConfirmKeepsSold | internal/inventory/lua/confirm.lua:6-14 | no confirm ever undoes a sale |
| SeatKeys.ConfirmSells | internal/inventory/lua/confirm.lua:6-14 | a confirm of seats that are all free or the order's own sells every one |
| TimedSteps.ReleaseExpiredKeeps | internal/order/expiry.go:108-133 | releasing under the re-taken lock keeps every cover, a late payment's included |
| TimedSteps.ReholdKeeps | internal/order/payment.go:187-206 | a late payment's re-hold keeps every cover and claims its own |
| TimedSteps.CommitPayKeeps | internal/order/payment.go:70-147 | a webhook's commit keeps locks, covers and bookkeeping |
| TimedSteps.DoKeeps | internal/order/expiry.go:45-133 | every step of every interleaving keeps the world invariant, with no bound on delays |
| TimedSafety.TicketedSeatsStayWithTheirOrder | internal/order/payment.go:135-145 | a payer whose seats are confirmed before the payer's hold runs out keeps them, however late anybody else is: none is ever held by or sold to another order |
| TimedSafety.AllTicketedSeatsStay | internal/order/payment.go:135-145 | if that is so of every payer, every ticketed seat stays with its order |
| TimedSafety.ReleaseNeverUndoesRehold | internal/order/expiry.go:108-133 | with no assumption at all, while a late payment's re-hold lasts nothing has taken its seats away |
| TimedBounds.PayableIsCovered | internal/order/queries.sql:80-86 | with insert plus payment delay below the grace period, and the latter within the late hold, a live hold covers every instant at which an order can still be paid on time; confirms may be late or lost |
| TimedBounds.PayableOrdersAreDisjoint | internal/order/service.go:232-257 | under the same condition two orders that can both be paid on time share no seat |
| TimedExact.CoveredIffFits | internal/order/service.go:232-232 | that condition is exact: when it fails, some run leaves a payable order without its hold |
| TimedExact.DisjointIffFits | internal/order/queries.sql:80-86 | and when it fails, some run has two payable orders on one seat |
| TimedBounds.FittingRunsHaveNoConflict | internal/order/payment.go:187-206 | with fitting delays the seat-conflict branch is never taken and ticketed seats stay with their order |
| TimedExact.OnTimeConflict | internal/order/payment.go:173-206 | when insert, payment and confirm delays reach the grace period, some run within them ends in a seat conflict |
| TimedExact.LateConflict | internal/order/payment.go:43-43 | when payment and confirm delays reach the late hold of 60 s, some run within them ends in a seat conflict |
| TimedExact.ConflictFreeIffFits | internal/order/payment.go:173-206 | runs within the delays are free of seat conflicts iff the delays fit |
| Services.ReleaseUnsoldIsExact | internal/order/expiry.go:108-133 | after the release loop a seat reads free iff it was a live hold of a listed, unsold order on its own seat, and as before otherwise |
| Services.Service.ReleaseExpired | internal/order/expiry.go:108-133 | the loops release the listed orders one by one, except those a late payment has kept |
| Services.Service.HandleWebhook | internal/order/payment.go:70-147 | after a sale, and a repeat for a sold order, every seat that was free or the order's own is sold to it, and every one after a late sale; after giving up none is held by it; otherwise the keys are as they were, and other orders' seats always |
| Services.Service.CancelOrder | internal/order/service.go:337-380 | a cancelled order holds no seat any more, anything else leaves the keys alone |
| Services.Service.RunExpiry | internal/order/expiry.go:45-133 | the overdue orders of the batch are EXPIRED and hold no seat any more, and holds of other orders stay |
| TimedOutcomes.NoOrderExpiresEarly | internal/order/queries.sql:46-62 | in every interleaving an EXPIRED order is past its deadline |
| TimedOutcomes.ConfirmedSeatsAreSold | internal/order/payment.go:135-142 | a confirm that finds the seats free or the order's own sells them, and no later step undoes that |
| TimedOutcomes.OnTimeBuyerBuys | internal/order/payment.go:173-186 | from any state, the exact money on time for unsold seats makes the order PAID with a ticket for each seat |
| TimedOutcomes.LateBuyerBuysFreeSeats | internal/order/payment.go:187-206 | so does late money when the seats are free or the order's own |
| TimedOutcomes.CancelFreesSeats | internal/order/service.go:376-379 | cancelling and the release after it free the seats |
| TimedOutcomes.ExpiryFreesSeats | internal/order/expiry.go:108-133 | expiring an overdue order and releasing under its lock free the seats |
| TimedOutcomes.AbandonFreesSeats | internal/order/service.go:245-245 | a create that gives up before its insert frees what it held |
| PipelinePrefix.MarkPrefix | internal/outbox/queries.sql:28-31 | marking a locked batch keeps the published rows of every order a prefix of its rows |
| PipelineSteps.LockKeeps | internal/outbox/queries.sql:18-26 | locking the oldest batch keeps the pipeline invariant |
| PipelineSteps.SendKeeps | internal/outbox/relay.go:84-86 | a record that gets through keeps per-order order on its partition |
| PipelineSteps.MarkKeeps | internal/outbox/relay.go:87-89 | marking a fully acknowledged batch keeps published rows in Kafka |
| PipelineSteps.HandleKeeps | internal/platform/kafka/consume.go:99-120 | handling a record once more keeps everything handled below it |
| PipelineSteps.CommitKeeps | internal/platform/kafka/consume.go:82-93 | offsets committed after the whole batch cover handled records only |
| PipelineSteps.PollOnKeeps | internal/platform/kafka/consume.go:87-93 | a client that polls on from its own position after a failed commit keeps the pipeline invariant |
| PipelineSteps.RunKeeps | internal/platform/kafka/consume.go:68-95 | every run of transactions, relay, consumers, gateway, crashes and evictions keeps the pipeline invariant |
| PipelineTheorems.NothingPublishedUnseen | internal/outbox/relay.go:58-97 | no row is published or deleted before Kafka has its record |
| PipelineTheorems.FirstOccurrencesAreAPrefix | internal/outbox/relay.go:58-97 | on each topic, before a record stands every earlier row of its order |
| PipelineTheorems.NothingIsSkipped | internal/order/refund.go:47-58 | consumers never meet an unknown order or refund, and the gateway never refuses |
| PipelineTheorems.DrainedSystemIsSettled | cmd/refunder/main.go:47-48 | once every row is published and both groups have read the orders topic, no order is PAID or REFUNDING, every refund succeeded, and the gateway gave back received minus sold money |
| PipelinePrefix.PublishedRowsAreAPrefix | internal/outbox/queries.sql:18-26 | a published row means every earlier row of its order is published, on either topic |
| PipelinePrefix.GapIsBetweenTopics | internal/outbox/relay.go:58-97 | a row in Kafka without an earlier one of its order: they are on different topics and the later is not published |
| PipelinePrefix.OvertakesIffTopicsDiffer | internal/outbox/relay.go:62-86 | with a locked batch that holds the later row and the earlier one not out, sending on can show the later alone iff the topics differ |
| PipelineGap.TopicsCanOvertake | internal/outbox/relay.go:84-86 | such a gap does occur: ticket.issued without an earlier order.refund_requested |
| PipelineDrain.PublishAll | internal/outbox/relay.go:102-138 | from any reachable state the relay can publish every row |
| PipelineDrain.ConsumeAll | cmd/ticket/main.go:44-45 | from any reachable state a group can catch up with everything on the topic it reads |
| PipelineDrain.CanAlwaysDrain | internal/platform/kafka/consume.go:68-95 | every run, whatever crashed in it, extends to a drained one |
| Workers.Worker.Produce | internal/outbox/relay.go:84-86 | records go out in order within each partition, and the answer is whether all were acknowledged |
| Workers.Worker.RunOnce | internal/outbox/relay.go:58-97 | the batch is marked iff every record was acknowledged, else no row changes |
| Workers.Worker.Cleanup | internal/outbox/relay.go:143-158 | the chunks delete exactly the due rows and count them |
| Workers.Worker.Process | internal/platform/kafka/consume.go:99-120 | the retry loop passes the record iff some attempt succeeds, and otherwise leaves it current; the permanent failures of the handlers cannot occur |
| Workers.Worker.ConsumeBatch | internal/platform/kafka/consume.go:68-95 | offsets move iff every record got through and the commit did, and then every record of the batch is handled; after a failed commit the next round goes on from the client's own position |
| RedisInventory.Redis.Hold | internal/inventory/redis.go:82-99 | check loop, write loop and bump amount to the all-or-none hold |
| RedisInventory.Redis.Release | internal/inventory/redis.go:102-111 | deletes exactly the order's own live holds and bumps iff there was one |
| RedisInventory.Redis.Confirm | internal/inventory/redis.go:114-124 | sells seat by seat, stops at another order's seat, bumps iff it got through |
| RedisInventory.Redis.Status | internal/inventory/redis.go:128-149 | the batched reads with their running index give each id its own seat's status |
| RedisInventory.Redis.Batches | internal/inventory/redis.go:128-138 | the pipelined reads cover the ids in order, at most 500 at a time |
| PgInventory.CountMatches | internal/inventory/pg.go:38-44 | counting matching rows detects exactly unknown and repeated seats |
| PgInventory.PgBackend.Hold | internal/inventory/pg.go:30-64 | errors iff a seat is unknown or repeated, else reports the taken set and holds all or none |
| PgInventory.PgBackend.Confirm | internal/inventory/pg.go:78-91 | succeeds iff every seat is distinct and ticketed to the order, and only then drops its holds |
| PgInventory.PgBackend.Status | internal/inventory/pg.go:94-110 | in whatever order the rows come, SOLD outranks HELD and the rest is AVAILABLE |
| Backends.ConfirmSellsPrefix | internal/inventory/lua/confirm.lua:6-14 | a confirm sells exactly the seats before the first one of another order |
| Backends.RedisLeavesOthers | internal/inventory/lua/release.lua:4-11 | release and confirm, even one that stops part way, never change how another order's seat reads |
| Backends.PgLeavesOthers | internal/inventory/queries.sql:33-37 | the same in the PostgreSQL backend |
| Backends.HoldAllOrNone | internal/inventory/pg.go:46-58 | on either backend a hold gives every seat for the asked time or changes nothing |
| Backends.SameTakenIff | internal/inventory/queries.sql:10-23 | related backends name the same taken seats iff no requested one is the order's own unconfirmed sale |
| Backends.TakenCanDiffer | internal/inventory/lua/hold.lua:6-17 | a related state and a hold for which they differ |
| Backends.WaitAgreesIff | internal/inventory/redis.go:82-99 | time passing keeps the backends related iff no hold behind an unconfirmed sale lapses |
| Backends.SellAgreesIff | internal/order/payment.go:260-290 | a sale of unsold seats keeps the backends related iff the order has a live hold on each |
| Backends.SameStatus | internal/inventory/queries.sql:46-57 | their seat maps differ only on unconfirmed sales, held in Redis and sold in PostgreSQL |
| Backends.BackendsAgree | internal/inventory/redis.go:82-124 | in every run whose sales find their holds alive and whose confirms come before they lapse, both backends stay related and give the same answers |
| SeatMap.BumpsIff | internal/inventory/redis.go:82-124 | exactly which operations owe a bump, from the keys they meet |
| SeatMap.ChangeIsBumpedIff | internal/inventory/redis.go:82-124 | a change of the store owes a bump iff it is not a confirm that stopped part way |
| SeatMap.PartialConfirmIsSilent | internal/inventory/redis.go:114-124 | such a confirm changes the store without a bump |
| SeatMap.MapIsFresh | internal/catalog/catalog.go:223-247 | in a map tagged v every seat was read after all operations bumped up to v took effect |
| SeatMap.NotModifiedMissesOnlyUnbumped | cmd/booking/seatmap_cache.go:107-133 | a 304 to a client that names the tags of its maps: the map of the matching version misses only changes that were not bumped when an entry of that version read its version |
| SeatMap.SettledMapIsCurrent | internal/catalog/catalog.go:223-247 | once every change has bumped, a map of the current version shows the current store |
| SeatMap.Cache.Get | cmd/booking/seatmap_cache.go:56-85 | one request alone: serves an unexpired entry as it is, else stores the loaded one; an error stores nothing; nothing served is older than the ttl |
| Loads.ServedIsFresh | cmd/booking/seatmap_cache.go:54-85 | with any number of requests sharing loads, whoever is served gets an entry that was unexpired when they asked or was loaded after they asked |
| Loads.WastedIff | cmd/booking/seatmap_cache.go:57-64 | a load starts next to an unexpired entry iff that entry was stored between the request's look and its joining |
| Loads.SecondLoadWithinTtl | cmd/booking/seatmap_cache.go:54-64 | a run in which that happens |
| Etags.DecimalRoundTrip | cmd/booking/seatmap_cache.go:107-109 | reading a written version gives it back |
| Etags.Matches | cmd/booking/seatmap_cache.go:121-133 | the loop over the candidates decides the weak comparison |
| Etags.HeaderMatchesIff | cmd/booking/seatmap_cache.go:121-133 | a header listing version tags matches a map iff it lists the map's version |
| Etags.StarAndEmpty | cmd/booking/seatmap_cache.go:121-133 | a star matches every tag, an empty header or tag nothing |
| Etags.StrongTagMatchesIff | cmd/booking/seatmap_cache.go:121-133 | a tag without its weak mark matches its own version only |
| Etags.TagOfTwelve | cmd/booking/seatmap_cache.go:107-109 | the tag of version 12, letter by letter |
| LockOrder.AdvanceKeeps | internal/inventory/queries.sql:1-8 | steps of lockers that ascend or skip keep the locks exclusive, and every row waited for is held until the commit |
| LockOrder.NoWaitCycle | internal/order/queries.sql:70-78 | they never wait for each other in a circle |
| LockOrder.SomebodyCanProceed | internal/inventory/pg.go:30-64 | as long as somebody is unfinished, somebody can proceed |
| LockOrder.EverybodyFinishes | internal/order/queries.sql:46-78 | from every such state all transactions can commit |
| LockOrder.FreshIsSound | internal/order/refund.go:87-96 | lockers that take their rows sorted, one row, a refund and then its order, or only free rows start out sound |
| LockOrder.ServiceNeverDeadlocks | internal/order/queries.sql:70-78 | however they have been scheduled, they never wait for each other in a circle |
| LockOrder.ServiceFinishes | internal/inventory/pg.go:30-64 | and from there they can all commit |
| Creates.Expiry | internal/auth/admission.go:54-75 | a token's expiry is a whole second, its signing time plus the ttl less at most a second |
| CreatesProof.MoveKeeps | internal/order/service.go:202-257 | every step of a create request keeps what all requests rely on |
| CreatesProof.RecordedIsLive | internal/queue/ledger.go:41-47 | a claim on record is live as long as its token is, so nobody can overwrite it |
| CreatesTheorems.OneOrderPerKey | migrations/00001_init.sql:40-40 | each user and key has at most one order, in every interleaving and whatever the lock answers |
| CreatesTheorems.CreatedOnce | internal/order/service.go:144-257 | at most one request of a user and key is told it created the order |
| CreatesTheorems.RepliesNameTheOrder | internal/order/service.go:202-212 | every success reply names the one order of that user and key, with the request's hash |
| CreatesTheorems.NeverStillConflicting | internal/order/service.go:256-256 | the error after the second round is unreachable |
| CreatesTheorems.OneOrderPerToken | internal/queue/ledger.go:41-56 | an admission token creates at most one order |
| CreatesTheorems.ClaimedIffCreated | internal/order/service.go:196-203 | a request that returned left its token claimed iff it created an order or giving it back failed, and the claim outlives the token |
| CreatesReplies.RepliesAreExplained | internal/order/service.go:144-257 | in every interleaving each reply was caused by a move that met what the reply says, and a created order was given the lock and the hold |
| CreatesReplies.EndsIff | internal/order/service.go:172-256 | a request ends with a reply iff it makes such a move |
| Bookings.Ledger.Claim | internal/queue/ledger.go:41-47 | succeeds unless another order holds the token; claiming again changes nothing |
| Bookings.UnclaimUndoesClaim | internal/queue/ledger.go:51-56 | a claim that was given back leaves no trace: every token reads as if it had never been made |
| Bookings.ClaimIsExclusive | internal/queue/lua/claim.lua:5-13 | no other order's claim or unclaim touches a live claim |
| Bookings.ClaimLasts | internal/queue/ledger.go:30-47 | a claim stays live for its order for exactly one token lifetime |
| Bookings.LedgerIsTheStep | internal/queue/ledger.go:41-56 | the ledger's operations are the steps the interleaved requests take |
| Bookings.Service.Rounds | internal/order/service.go:202-256 | the two-round loop, with any transactions of others in between: exactly which reply it gives, and what it writes and holds |
| Bookings.Service.Create | internal/order/service.go:144-257 | exactly which reply the request gets from the lock, the tables it meets, the token, the hold and the insert; nothing is written, held or kept claimed unless the order was created |
| WaitingRoom.HeadIsOk | internal/queue/worker.go:101-107 | whoever joined in an earlier millisecond than an entry of the head is ahead of it there or admitted |
| WaitingRoom.PipeIsOk | internal/queue/worker.go:108-125 | an entry of the head whose owner is gone was admitted by somebody else |
| WaitingRoom.ExecuteKeeps | internal/queue/worker.go:114-142 | each single command of a pipeline keeps the room's invariant |
| WaitingRoom.NobodyIsLost | internal/queue/worker.go:92-147 | nobody is out of the queue before their token was stored, across crashes at any prefix and overlapping workers |
| WaitingRoom.FirstComeFirstServed | internal/queue/worker.go:92-147 | an entry is admitted only after everybody who joined in an earlier millisecond |
| WaitingRoom.HeadOrder | internal/queue/worker.go:114-136 | within the head a worker read, whoever is ahead, by joining time and then id, has a token before the worker comes to an entry |
| WaitingRoom.OneUnexpiredToken | internal/queue/queue.go:114-134 | of all tokens ever stored for a queue id at most one is unexpired, and it is the one shown |
| Queue.RanksAreDistinct | internal/queue/queue.go:103-134 | positions are places in one line |
| Queue.RedisQueue.Status | internal/queue/queue.go:114-134 | with nothing between its reads: a shown token outranks a place, a place is the number of entries ahead plus one |
| Queue.RedisQueue.Enter | internal/queue/lua/join.lua:10-24 | a place other than the one found spent is kept, else a new one is given |
| Queue.RedisQueue.Join | internal/queue/queue.go:63-101 | with nothing between its reads: while their key lives a user who waits or is admitted keeps their id; otherwise they join behind everybody earlier |
| Places.JoinsDoubleIff | internal/queue/queue.go:63-134 | for every reachable hall, joins alone can give a user two active ids iff an active id is not what its user's key names or a join in flight has been misled |
| Places.RoomStepIff | internal/queue/worker.go:114-142 | from a safe hall a step of a worker or the clock leads to a safe hall iff it is orderly |
| Places.OnePlacePerUser | internal/queue/queue.go:63-101 | in every orderly run a user has at most one id that waits or shows a token |
| Places.DoublesIffDisorderly | internal/queue/queue.go:63-134 | after an orderly run one more step opens the way to a second place iff it is not orderly |
| SecondPlaces.LapsedKeyGivesSecondPlace | internal/queue/queue.go:26-27 | a reachable run: the key lapses while the user still waits |
| SecondPlaces.ReadsApartGiveSecondPlace | internal/queue/queue.go:114-134 | a reachable run: a worker admits the user between the token read and the rank read |
| SecondPlaces.LateTokenGivesSecondPlace | internal/queue/worker.go:134-134 | a reachable run: a late worker stores a token for an entry whose user has joined again |
| Queue.RedisQueue.Admit | internal/queue/worker.go:92-147 | an uninterrupted round stores a token for each owned entry without a live one and removes the head |
| Queue.PipelineIsOneRound | internal/queue/worker.go:114-142 | the worker's commands run one after the other leave what that round does |
| Queue.StoredIsExact | internal/queue/worker.go:134-134 | storing never replaces a live token, touches owned entries of the head only, and leaves each with a live token |
| Labels.RowLabel | internal/catalog/seed.go:71-77 | the label names row i, by the inverse reading |
| Labels.LabelsAreInjective | internal/catalog/seed.go:71-77 | labels of equal value are equal |
| Labels.LabelOrder | internal/catalog/seed.go:71-77 | labels by length and then letters are in the order of their rows |
| Layout.Seats | internal/catalog/seed.go:51-68 | the loops list every spot of the layout once, in display order, under distinct ids when zone names are distinct |
| Layout.SeatIdsAreInjective | internal/catalog/seed.go:51-68 | a seat id gives back zone, row and number, even for zone names with dashes |
| Layout.IdsAreDistinct | internal/catalog/seed.go:51-68 | with distinct zone names no two seats share an id |
| Layout.FirstSeatOfVip | internal/catalog/seed.go:51-68 | the first seat of zone VIP is VIP-A-1 |
| Layout.SameNameCollides | internal/catalog/seed.go:51-68 | two zones of one name do share ids |
| Layout.Event.SetSeats | internal/catalog/catalog.go:71-84 | ids in order, each id at its last seat, and the zone summary is the run-length form of the seats |
| Requests.SortIsRight | internal/order/request.go:31-32 | sorting gives an ordered permutation |
| Requests.LeAscends | internal/order/request.go:32-32 | the order of ids is ascending, with a prefix first |
| Requests.Normalize | internal/order/request.go:21-42 | accepts iff the request is valid, and otherwise reports the first thing wrong in sorted order |
| Requests.SameNormalFormIff | internal/order/request.go:21-42 | two valid requests have one normal form iff they name the same event and seats |
| Requests.SameHashIff | internal/order/request.go:51-59 | with a hash that does not collide, the same of their hashes |

## Left out

- HTTP, JSON, SSE, gzip, signatures (HMAC, JWT), QR payload contents, logging, configuration and health checks: input, output and presentation.
- Contents of events beyond type, order, transaction, amount and reason; per-seat prices in order_seats beyond their sum.
- Database, Redis and Kafka errors are refusals without effect: a commit whose outcome is unknown, and a command that takes effect after its caller gave up, are not modelled.
- One clock in milliseconds for all parties; tokens and holds are compared on it.
- Randomness: order ids, queue ids, token ids and outbox ids are arbitrary fresh values; outbox ids of one order grow in commit order, because they are drawn under its row lock.
- SHA-256 is a parameter that does not collide.
- A release that fails after a create's insert was refused: the holds then run out on their own.
- The gateway keeps its refunds in memory and forgets them when it restarts; the model's gateway never restarts, and the drained total is of what it has refunded.
- A second relay: the order of records is proved for one relay, as the service runs it.
- The lease of the admission worker and the idempotency lock itself: both are taken to answer anything, so the theorems do not depend on them.
- A worker's pipeline stops after a prefix of its commands; entries whose owner or id does not parse cannot occur with typed ids.
- The notifier, which alone reads the tickets topic, the payment page, the webhook delivery loop of the fake gateway (it only repeats webhooks, which the theorems quantify over), reconcile, and the seeding of the demo event: nothing hard to state.
- contentETag of the PostgreSQL backend, which has no version counter.
- Backends.BackendsAgree: runs in which a seat is sold without a live hold, or a ticketed seat's Redis hold lapses before the confirm, are excluded, because the backends then really differ (SellAgreesIff, WaitAgreesIff); the timed layer says when that cannot happen.
- SeatMap.ChangeIsBumpedIff: says whether a bump is owed, because whether the increment then succeeds is up to Redis; a lost bump is a bump step that never comes.
- SeatMap.Cache.Get: one request with nothing in between, because Loads covers requests that share loads.
- Queue.RedisQueue.Status: its reads are one step here, because Places takes them apart.
- Queue.RedisQueue.Join: the same; what a worker can do between its reads is in Places.
- PipelineSteps.RunKeeps: a consumer that joins starts at the committed offset, and one that stays at its own position; handing a partition over in the middle of a batch is an eviction.
- SeatMap.NotModifiedMissesOnlyUnbumped: holds that lapse silently are not changes, because nothing bumps the version for them.
- WaitingRoom.FirstComeFirstServed: entries of the same millisecond are ordered by id within a head, but ids of different instances may join later with a smaller one.
- CreatesTheorems.OneOrderPerToken: a claim is taken to happen before its token expires, because the token is checked when the request arrives and the ledger keeps a claim for one token lifetime.
