# Verified models of the order pipeline, the chat, stock claims and cursor pages

Four parts of the service are modelled here, each as the state it keeps and the atomic steps that change it, and each
with theorems about every run.

**Orders and inventory.** An order and its outbox row are inserted in one transaction; publisher replicas lease outbox
rows, send them and mark them; the inventory worker records each creation message in an inbox, decrements stock under
a condition and writes a result row; the orders worker records each result and sets the order's status. Every hop
delivers at least once. The state holds the orders, the stocks, two outboxes, two inboxes, two partitioned topics with
committed offsets, sessions and commit requests in flight, the Redis cache with its pending refreshes, each replica's
batch, and the database clock. Crashes, copies of a send, lost acknowledgements, late copies of an abandoned send,
malformed records, rebalances, and delayed, reordered or dropped commits are steps of their own. The main theorem is a
refinement: whatever the interleaving, the stock table, the emitted results and the recorded statuses are those of one
clerk who works through the decided orders in the order their transactions first committed. The rest builds on the
same inductive invariant: final statuses never change although the `UPDATE` has no guard, stock is conserved, nothing
below a committed offset is lost, a rejection from the cache is one the worker would have made too, and leases keep
replicas apart exactly as long as batches finish in time. In the request's own terms: an inserted order is confirmed
exactly when the stock left by those decided before it suffices. The last theorem is about infinite runs: under every
fair schedule, once orders stop coming and sends and processes stop failing, the pipeline becomes quiescent and stays
so; then no order is Pending and the books balance.

**Chat.** The hub's rooms and connections are two indexes of one relation; the runtime adds sessions, senders and the
set of events each step dispatches. The main theorem is what a client can know: the `JoinedRoom` snapshot together
with the presence changes and messages dispatched afterwards, sorted by version, is the server's room at every
version, with no version missing or repeated. Others say, in the words of the commands, what each command is answered
with and what a history says; what versions count, that ids are never reused, that no recipient of a fan-out is ever
dropped, and that closing a connection is leaving each of its rooms.

**Stock claims.** The Redis script of the claim endpoint, over runs of calls by any users with any initial stocks.

**Cursor pages.** The bakery list by cursor, followed to its end over a table that changes between the requests.

Where the source changes state in place the model has a class or a method with a loop: the tables and transactions
(`OrderStore.dfy`), the publisher tick and the two consumers (`Workers.dfy`), the order handler (`OrderHandler.dfy`),
the hub (`ChatHub.dfy`), the chat runtime (`ChatState.dfy`), the claim script (`Claims.dfy`) and the page builder
(`Pages.dfy`). Each of their methods is proved equal to a function on values, or to a run of steps of the state machine,
and the theorems are about those.

## Assumptions

The database schema is not in the repository, so these are conditions on the steps:

- `orders.Id`, `inventory_stocks.Sku` and the outbox `Id` are keys, and the pair of `MessageId` and `Consumer` is the key
  of an inbox. `Uuid::new_v4` returns a value not used before.
- An SQL transaction is one atomic step. `now()` of a leasing statement is at most the clock at its commit, and rows that
  concurrent transactions hold locked may be skipped in any combination.
- Nobody else changes stock, statuses, outboxes or inboxes. Orders may exist at the start with their outbox rows and with
  either value of the simulate flag.
- The cache holds, at the start, nothing or at least the stock for each sku, and may lose entries at any time. The claim
  endpoint shares the key prefix `demo:stock:`, so this excludes skus that are spelled like an item id, or like `users:`
  followed by one. The two keys of a claimed item are not evicted.
- A fair schedule, in the theorems that speak of one, is an infinite run in which, from some moment on: no order is
  inserted, no send fails, no replica crashes and no session is lost; a replica with a batch goes on with it; while rows
  are open some replica leases some again, or none is open any more; time passes every bound; a partition with records
  gets a session; and a session with something to do does it. Late copies, malformed records, duplicates, lost and late
  commits, failing cache refreshes and rows skipped as locked may go on for ever.
- For the possible schedules that drain the pipeline, each topic has at least one partition.
- Chat commands come from sessions that have registered and not yet unregistered, as `run_socket` arranges.
- Bakery ids are unique 32-bit integers, and `usize` has 64 bits.

## Model

| member | source | states |
|---|---|---|
| Orders.CreateOrderRequest.Validate | src/orders/mod.rs:61-74 | a request passes exactly when its quantity is positive and its sku is not all white space, and passes unchanged |
| Orders.StatusCodeRoundTrip | src/orders/mod.rs:23-53 | the stored codes are 0, 1 and 2; a code decodes to a status exactly when it is that status's code; every other code is refused |
| Orders.DecisionIsRecorded | src/orders/mod.rs:113-206 | what the inventory worker decides is what the orders worker records; a reason is kept exactly for rejections |
| OrderStore.InboxTable.InsertOnce | src/orders/store.rs:295-316 | true for exactly the first insertion of a pair, which is recorded either way |
| OrderStore.OutboxTable.ListUnpublished | src/orders/store.rs:333-373 | leases exactly the lowest claimable unlocked rows up to the limit, and changes nothing but their lock |
| OrderStore.OutboxTable.SelectLowest | src/orders/store.rs:341-348 | the loop picks, without repetition, the `limit` lowest ids |
| OrderStore.OutboxTable.MarkRowPublished | src/orders/store.rs:375-389 | marks one row published, drops its lock and its error, leaves the others |
| OrderStore.OutboxTable.MarkRowFailed | src/orders/store.rs:391-410 | counts one retry, drops the lock, keeps the error, leaves the others |
| OrderStore.OrderStore.InsertOrderWithOutbox | src/orders/store.rs:33-101 | adds the Pending order, not marked to fail, and its unpublished creation row with the same columns together |
| OrderStore.OrderStore.DecrementStock | src/orders/store.rs:223-236 | affects one row exactly when the stock suffices and the difference fits the column |
| OrderStore.OrderStore.HandleOrderCreatedMessage | src/orders/store.rs:199-273 | a message seen before changes nothing; a new one changes inbox, stock and outbox together, the stock exactly when the order is not marked to fail and the stock suffices; a failed statement rolls back |
| OrderStore.OrderStore.ApplyInventoryResultMessage | src/orders/store.rs:160-197 | a result seen before changes nothing; a new one sets status and reason; a missing order rolls back |
| OrderStore.OrderStore.LoadInventoryStockQuantity | src/orders/store.rs:275-293 | the stock of the sku, or none |
| OrderHandler.Create | src/handlers/orders/mod.rs:41-59 | 409 insufficient_stock exactly for a valid request for more than the quantity the precheck was told; an order is inserted, Pending and not marked to fail, exactly for any other valid request that the database accepts; otherwise nothing changes; the call is a run of the pipeline |
| Outbox.ClaimReturnsOldestOpenRows | src/orders/store.rs:340-352 | a leasing statement returns open rows only, at most 50, and passes over no open unlocked row with a lower id |
| Outbox.PubKeepsChannel | src/orders/worker.rs:62-76 | every step of a publisher keeps: what is in the topic came from a row, and every published row is in the topic |
| Outbox.PubKeepsExclusion | src/orders/store.rs:333-410 | one step from exclusive leases in time to exclusive leases |
| Outbox.AbandonedRowsReturn | src/orders/store.rs:343-344 | one lock period later every unpublished row is claimable |
| Consumers.GroupStepKeeps | src/bin/inventory-worker.rs:97-120 | assignments, skips, commits that land, are lost or arrive late, and lost sessions keep: what is committed or behind a session has been processed |
| Consumers.RestartsBehindCommitted | src/bin/inventory-worker.rs:97-120 | a finished record is committed as the offset behind it, and the next session of the partition starts there |
| Workers.Publisher.Send | src/orders/worker.rs:64-69 | the copies of one send reach the log one by one as protocol steps |
| Workers.Publisher.Mark | src/orders/worker.rs:70-74 | an acknowledged row is published, unlocked and without error; any other is unlocked with one more retry and its error kept; no other row changes; both are protocol steps |
| Workers.Publisher.Tick | src/orders/worker.rs:59-79 | up to the first mark that fails, every acknowledged row is published and unlocked and every other has one more retry and its error; the rest of the leased rows stay locked for 300 seconds; no other row changes; the tick, whatever becomes of each call, is a run of the publishing protocol |
| Workers.InventoryWorker.RefreshStock | src/bin/inventory-worker.rs:123-149 | sets the key to the current stock, deletes it when there is none, leaves it when a call fails |
| SagaCache.RefreshLeavesStock | src/bin/inventory-worker.rs:123-149 | a refresh with nobody in between leaves exactly the stock, or no entry |
| Workers.InventoryWorker.ConsumeOne | src/bin/inventory-worker.rs:97-120 | one turn is a run of the pipeline with the new tables and cache: transaction, refresh, commit request; a failed transaction ends the session |
| Workers.OrdersWorker.ConsumeOne | src/bin/orders-worker.rs:88-108 | one turn is a run of the pipeline with the new tables: status update, commit request; a failed transaction ends the session |
| SagaCore.InsertKeepsCore | src/orders/store.rs:33-101 | creating an order keeps the invariant over the tables |
| SagaCore.HandleKeepsCore | src/orders/store.rs:199-273 | the inventory transaction keeps it, and is the clerk's next decision |
| SagaCore.ApplyKeepsCore | src/orders/store.rs:160-197 | the status update keeps it |
| SagaSteps.RefreshKeepsCache | src/bin/inventory-worker.rs:123-149 | in any interleaving, loading and later storing a quantity never puts the cache below the stock |
| SagaCache.CachedWasStock | src/bin/inventory-worker.rs:123-149 | in every reachable state a cached quantity was the stock at some moment of the run, or was cached at the start |
| SagaSteps.StepKeepsInv | src/orders/store.rs:33-410 | every step of the pipeline keeps the invariant |
| SagaSteps.RunKeepsInv | src/orders/store.rs:33-410 | it holds throughout every run |
| SagaTheorems.RefinesSequentialAllocator | src/orders/store.rs:160-316 | after every run stock, result rows and statuses are the clerk's over the decided orders in first-commit order, one result row each |
| Allocator.GrantedIffLeft | src/orders/store.rs:217-250 | the clerk grants a demand not marked to fail exactly when its quantity is at most the opening stock less the quantities granted before |
| SagaGrants.InsertedOrdersAreNotSimulated | src/orders/store.rs:51-67 | over every run no order that the pipeline inserts is marked to fail, and neither its status nor any of its result rows says so |
| SagaGrants.InsertedOrdersPassed | src/handlers/orders/mod.rs:45-58 | over every run each order the pipeline inserts was a valid request whose precheck found no cached quantity below its own |
| SagaGrants.DecidedByQuantity | src/orders/store.rs:199-250 | over every run from a start without orders, result rows and statuses confirm a decided order exactly when its quantity is at most the opening stock less the quantities granted before it |
| SagaTheorems.RunExtends | src/orders/store.rs:33-410 | orders, rows and inbox entries are only added, created columns are fixed, published stays published, the decision order only grows |
| SagaTheorems.FinalStatusIsStable | src/orders/store.rs:160-197 | a Confirmed or Rejected order keeps status and reason through every continuation of every run |
| SagaStock.StockIsConserved | src/orders/store.rs:223-273 | opening stock is available stock plus the success rows; confirmed quantities never exceed it |
| SagaStock.StockNeverRises | src/orders/store.rs:223-236 | available stock only falls |
| SagaStock.PrecheckRejectionIsSound | src/handlers/orders/mod.rs:91-108 | a request rejected from the cache would be refused by the worker then and ever after |
| SagaDelivery.NoMessageIsLost | src/bin/inventory-worker.rs:97-120 | every well-formed record below a committed offset is in the inbox, and every published row is in its topic |
| SagaDelivery.CreatedEventsNameOrders | src/orders/store.rs:199-236 | a received creation event names an existing order with its sku and positive quantity, and its transaction cannot fail |
| SagaDelivery.ResultEventsNameOrders | src/orders/store.rs:178-193 | a received result names an existing order with its columns, so the not-found check never fires |
| SagaDelivery.ReasonsMatchStatuses | src/orders/mod.rs:113-122 | an order has a failure reason exactly when it is Rejected |
| SagaDelivery.LeasesExclude | src/orders/store.rs:333-373 | if every batch finishes within its lease, no row is in two replicas' unfinished batches |
| SagaDelivery.OverrunCanBreak | src/orders/store.rs:343-350 | whatever the table holds, any other replica can lease the unpublished row of a batch that has overrun its lease, and exclusion is lost |
| SagaDelivery.ExclusionBreaksIffOverrun | src/orders/store.rs:333-373 | some leasing statement breaks exclusion if and only if some batch with an unpublished row has reached the end of its lease |
| SagaDelivery.PublishedNeverClaimed | src/orders/store.rs:375-389 | a row once published is never leased again |
| SagaDelivery.CrashedRowsReturn | src/orders/store.rs:343-350 | whatever a crashed replica held is claimable one lock period later |
| SagaDrain.StepWork | src/orders/worker.rs:59-79 | only a new order adds work, at most four units; an effective delivery removes at least one |
| SagaDrain.WorkIsBudgeted | src/orders/worker.rs:59-79 | over any run, effective deliveries and remaining work are bounded by the starting work and the new orders |
| FairPublishing.AllPublished | src/orders/worker.rs:59-79 | in every infinite run in which no replica stalls, rows get leased while open and time passes, every row is published from some moment on |
| FairConsuming.RecordIsProcessed | src/bin/inventory-worker.rs:97-120 | in every infinite run in which partitions get sessions and sessions do not stall, every record is processed |
| SagaFair.FairRunsDrain | src/orders/worker.rs:59-79 | every fair run, from any state that satisfies the invariant, is quiescent from some moment on |
| SagaFair.FairRunsSettle | src/orders/store.rs:160-389 | in every fair run from a start, from some moment on no order is Pending and opening minus available stock is the confirmed quantity, per sku |
| SagaFair.CaughtUpIsQuiescent | src/bin/orders-worker.rs:88-108 | outboxes published and every partition committed or read to its end is quiescence |
| SagaFair.IdleRunIsFair | src/orders/worker.rs:59-62 | the conditions of a fair run can be met: an empty pipeline in which time passes is one |
| SagaSchedule.WorkCanBeDone | src/orders/worker.rs:59-79 | while there is work, some successful steps do some of it |
| SagaSchedule.CanAlwaysDrain | src/orders/worker.rs:59-79 | no reachable state is a dead end: from each some run of successful steps reaches quiescence |
| SagaSchedule.QuiescenceBalances | src/orders/store.rs:160-273 | at quiescence no order is Pending and opening minus available stock is the confirmed quantity, per sku |
| SagaSchedule.EveryRunCanBeSettled | src/orders/store.rs:160-389 | every run has a continuation by successful steps to a state in which no order is Pending and the books balance |
| SagaSchedule.QuiescenceLasts | src/orders/store.rs:160-273 | without new orders it stays quiescent and no order changes |
| Text.TrimStrips | src/handlers/chat/mod.rs:726-733 | trimming cuts white space off both ends and nothing else |
| Text.TrimIdempotent | src/handlers/chat/mod.rs:726-733 | trimming twice is trimming once |
| Text.WhitespaceListed | src/handlers/chat/mod.rs:726-737 | white space is the 25 characters with the Unicode property White_Space |
| Text.Utf8LengthCounts | src/handlers/chat/mod.rs:726-733 | the length that is limited is that of the UTF-8 encoding, which can be decoded again |
| Text.DecimalReads | src/handlers/chat/mod.rs:309-312 | the number in an id is written in decimal digits without leading zeros and reads back |
| ChatSpec.AcceptedRoomIds | src/handlers/chat/mod.rs:726-733 | a room id is accepted exactly when it is not blank and its trimming, which is stored, has at most 64 bytes |
| ChatSpec.AcceptedContent | src/handlers/chat/mod.rs:735-745 | accepted content is trimmed and has 1 to 500 characters; blank and too long content are told apart |
| ChatSpec.NormalIsFixedPoint | src/handlers/chat/mod.rs:726-733 | the ids that can be stored are exactly those that normalise to themselves |
| Members.SortedIsUnique | src/handlers/chat/mod.rs:716-724 | the order by user id, then name, determines the member list of a multiset |
| Members.LeqMeans | src/handlers/chat/mod.rs:716-724 | user ids come first, each text by its first differing character, ascending, a prefix before its extensions |
| Members.SortedPairs | src/handlers/chat/mod.rs:716-724 | in a sorted list any earlier entry is at most any later one |
| Members.JoinInserts | src/handlers/chat/mod.rs:209-224 | inserting the joiner into the sorted list gives the new sorted list |
| Members.LeaveDeletes | src/handlers/chat/mod.rs:262-264 | deleting the leaver from the sorted list gives the new sorted list |
| ChatHub.SortMembers | src/handlers/chat/mod.rs:716-724 | the sorted buffer holds exactly the room's summaries, repetitions included |
| ChatHub.ChatHub.JoinRoom | src/handlers/chat/mod.rs:195-246 | the whole new hub and the answer; a bad room id changes nothing |
| ChatHub.ChatHub.LeaveRoom | src/handlers/chat/mod.rs:248-286 | the whole new hub, notice and presence change; a failing call changes nothing |
| ChatHub.ChatHub.SendRoomMessage | src/handlers/chat/mod.rs:288-331 | the whole new hub, message and recipients; a failing call changes nothing |
| ChatHub.ChatHub.SyncRoomState | src/handlers/chat/mod.rs:333-353 | a member is shown the room, anybody else is refused |
| ChatHub.ChatHub.DisconnectAll | src/handlers/chat/mod.rs:355-382 | the connection is gone from every room it joined, one presence change for each |
| ChatInvariant.JoinKeeps | src/handlers/chat/mod.rs:195-246 | joining keeps: both indexes agree, nothing empty is stored, keys are normal, histories are ordered |
| ChatInvariant.JoinMeans | src/handlers/chat/mod.rs:195-246 | a new member enters under its names with a new version, a repeated join changes nothing in the room, and either gives the connection its current user |
| ChatInvariant.LeaveKeeps | src/handlers/chat/mod.rs:248-286 | leaving keeps them and takes exactly that room from the connection |
| ChatInvariant.SendKeeps | src/handlers/chat/mod.rs:288-331 | sending keeps them |
| ChatInvariant.DisconnectKeeps | src/handlers/chat/mod.rs:355-382 | disconnecting keeps them |
| ChatInvariant.DisconnectIsLeavingEach | src/handlers/chat/mod.rs:355-382 | disconnecting leaves the hub as leaving each joined room does, in any order and spelling |
| ChatInvariant.SameAnnouncementsIffUserFixed | src/handlers/chat/mod.rs:355-374 | the two announce the same changes if and only if every room knows the connection's current user |
| ChatInvariant.RenamedUserDiffers | src/handlers/chat/mod.rs:360-363 | two joins under different names make them differ: `disconnect` names the connection's user, `leave_room` the room's |
| ChatRuntime.StepKeeps | src/handlers/chat/mod.rs:414-604 | every step keeps the hub invariant, one user per connection, and a sender for every session |
| ChatRuntime.RunKeeps | src/handlers/chat/mod.rs:414-604 | they hold throughout every run |
| ChatState.ChatState.Connect | src/handlers/chat/mod.rs:415-434 | registration is one step of the runtime and greets the new connection |
| ChatState.ChatState.SendToConnection | src/handlers/chat/mod.rs:436-445 | one event to one connection if it has a sender |
| ChatState.ChatState.ProcessMessage | src/handlers/chat/mod.rs:447-572 | new hub, error and dispatches of every command; a failing command changes and sends nothing |
| ChatState.ChatState.HandleCommand | src/handlers/chat/mod.rs:673-695 | a text frame is one step of the runtime and sends what that step sends, each event once; a failure, or a frame that is no command, is answered with its error |
| ChatState.ChatState.UnregisterConnection | src/handlers/chat/mod.rs:574-604 | closing is one step of the runtime, and every remaining member hears of it once per room |
| ChatRooms.RoomStep | src/handlers/chat/mod.rs:195-382 | a step changes a room exactly by a new join, a leave or disconnect, or a message, and forgets it when it empties |
| ChatRooms.ToldEachChange | src/handlers/chat/mod.rs:447-604 | whoever stays in a room is sent exactly the change a step makes to it, or nothing |
| ChatReplica.JoinIsAnswered | src/handlers/chat/mod.rs:454-471 | a join, new or repeated, is answered to the joiner with the server's room and nothing else |
| ChatReplica.AtMostOneDelta | src/handlers/chat/mod.rs:447-604 | a step dispatches at most one delta of a room to whoever stays in it, so the log misses none |
| ChatReplica.LogReplaysRoom | src/handlers/chat/mod.rs:447-604 | the deltas dispatched to a member have every version once and replay its room |
| ChatReplica.VersionsRestoreOrder | src/handlers/chat/mod.rs:567-569 | events that arrive in any order are put right by sorting them by version |
| ChatReplica.ClientReplica | src/handlers/chat/mod.rs:447-604 | over every run from an empty server, snapshot and deltas, replayed by version, are the server's members and history, at the end and, after each delta, at that version |
| ChatReplica.SyncAgreesWithReplica | src/handlers/chat/mod.rs:333-353 | a requested room state is the replica |
| ChatMeaning.MemberErrors | src/handlers/chat/mod.rs:248-346 | leaving, sending and asking for the state fail exactly on a bad room id, bad content or a sender outside the room, in this order, each with its own error |
| ChatMeaning.JoinErrors | src/handlers/chat/mod.rs:195-200 | joining fails exactly on a bad room id |
| ChatMeaning.FailureIsAnswered | src/handlers/chat/mod.rs:673-682 | a failing command changes nothing and is answered to its sender alone, with its error |
| ChatMeaning.PingIsAnswered | src/handlers/chat/mod.rs:555-562 | a ping is answered to its sender alone with a pong and changes nothing |
| ChatMeaning.RegistrationIsGreeted | src/handlers/chat/mod.rs:663-671 | a new connection is greeted with its names, and nobody else hears of it |
| ChatMeaning.JoinSends | src/handlers/chat/mod.rs:455-494 | the joiner gets the room as it is then; on a new join everybody else in the room hears of the joiner under the new version; nothing else is sent |
| ChatMeaning.LeaveSends | src/handlers/chat/mod.rs:495-522 | the leaver gets the notice and everybody else in the room hears of the leaver, both under the new version; nothing else is sent |
| ChatMeaning.MessageSays | src/handlers/chat/mod.rs:288-331 | every member, the sender included, is sent one message with the trimmed content, the names of the sender, the room, a fresh id and the new version, and it ends the history; nothing else is sent |
| ChatMeaning.SyncSends | src/handlers/chat/mod.rs:541-554 | the asker alone is answered with the room |
| ChatMeaning.CloseSends | src/handlers/chat/mod.rs:574-604 | whoever is left in a room of the closed connection hears of it under the new version; nothing else is sent |
| ChatMeaning.NamesAsRegistered | src/handlers/chat/mod.rs:415-434 | over every run the names of a registration are those of its session, of its entry in every room and of every member list that shows it |
| ChatHistory.LivingRoom | src/handlers/chat/mod.rs:304-324 | while a room lives its version counts its changes and its history is the last twenty messages |
| ChatHistory.HistoryMeaning | src/handlers/chat/mod.rs:201-324 | from the creating join on: version and history count exactly what happened since |
| ChatMeaning.HistorySays | src/handlers/chat/mod.rs:309-324 | over every run, while a room lives its history shows, in order, the last twenty trimmed contents of its accepted send commands, each under its sender's names |
| ChatHistory.MessageIdsAreUnique | src/handlers/chat/mod.rs:309-312 | no two messages of a run share an id, whatever their rooms |
| ChatHistory.AcceptedAreAmongAll | src/handlers/chat/mod.rs:288-331 | every room's messages are among the run's and carry its room id |
| ChatHistory.ConnectionIdsAreNeverReused | src/handlers/chat/mod.rs:415-434 | no two registrations of a run get the same id, nor one that is in use |
| ChatHistory.LiveSenders | src/handlers/chat/mod.rs:482-604 | every member has a sender, and no fan-out drops a recipient |
| ChatHistory.ClosingIsLeaving | src/handlers/chat/mod.rs:574-604 | in every reachable state closing equals leaving each room, announcements included |
| ChatHistory.ClosedHearsNothing | src/handlers/chat/mod.rs:574-604 | a closed connection is in no room and is sent nothing by any later step |
| Claims.Store.Eval | src/handlers/stat/hot.rs:22-50 | the script, command by command, gives the new keys and the reply |
| Claims.PrintedIsNearest | src/handlers/stat/hot.rs:31-32 | what `tostring` makes of the initial stock is the nearest number of fourteen significant digits, the even one of two equally near |
| Claims.RefusedBeforeStock | src/handlers/stat/hot.rs:28-36 | while every call so far has left the initial stock out or negative, each is refused with -1 and status 400 and nothing is stored |
| Claims.StaysBalanced | src/handlers/stat/hot.rs:22-50 | after each later call the recorded users are the applied claims |
| Claims.ClaimLaw | src/handlers/stat/hot.rs:22-50 | from a call with an initial stock on, if every earlier one left it out or negative: stock and users add up to it, and exactly that many distinct callers, the first ones, are served with 200 |
| Claims.ServedAtMostOnce | src/handlers/stat/hot.rs:38-49 | in no run is a user served twice |
| Claims.ConflictMeansServed | src/handlers/stat/hot.rs:164-230 | in every run a call is answered 409 exactly when an earlier call of that user was applied, and is told the stock left, or -1 when there is none |
| Claims.DuplicateIsToldStockIffPrintable | src/handlers/stat/hot.rs:29-40 | on keys no run leads to, users without a stock, a duplicate that brings a stock is told that stock if and only if fourteen digits print it |
| Pages.SanitizedCursorPageSize | src/handlers/bakery/mod.rs:195-200 | none and 0 mean 10, every other size is kept, so a page has room for at least one row |
| Pages.LimitIsOneMore | src/handlers/bakery/mod.rs:98-98 | the query asks for one row more than the page, up to the largest 64-bit integer |
| Pages.BuildCursorPage | src/handlers/bakery/mod.rs:202-217 | shows the first `size` rows, says there are more exactly when there is a row beyond, and then, and only then, names the last shown id as the next cursor |
| Pages.PageIsPrefix | src/handlers/bakery/mod.rs:93-115 | a page is a prefix of the remaining rows and tells truly whether there are more, for every size |
| Pages.PagesAreGood | src/handlers/bakery/mod.rs:93-115 | a page is ordered, skips nothing up to its next cursor, and moves the cursor on |
| Pages.Follow | src/handlers/bakery/mod.rs:202-217 | following the cursor ends, whatever the table becomes, with a page that has no more |
| Pages.IdsIncrease | src/handlers/bakery/mod.rs:93-115 | under arbitrary changes ids only increase |
| Pages.PresentRowsAreReturned | src/handlers/bakery/mod.rs:93-115 | a row present throughout is returned |
| Pages.ReturnedRowsExisted | src/handlers/bakery/mod.rs:93-115 | a returned row was in the table of some request |
| Pages.FixedTableIsReturned | src/handlers/bakery/mod.rs:93-115 | over a fixed table every row is returned once, in id order |

## Left out

- Claims.ClaimLaw: covers initial stocks below 2^53 in size; beyond that Lua and Redis round numbers in ways the repository does not fix.
- ChatHub.ChatHub.DisconnectAll: the presence changes are a map by room and the rooms are visited in any order; the source lists them by room id. Recipients of one event are a set for the same reason.
- Workers.Publisher.Tick: the other replicas stand still during one call; interleaved they are steps of the protocol. A leasing statement whose result is lost is a claim and a crash there.
- Workers.InventoryWorker.ConsumeOne: nobody else acts between the transaction, the refresh and the commit of one call; interleaved they are separate steps of the pipeline, and its theorems are about those.
- Workers.OrdersWorker.ConsumeOne: nobody else acts between the update and the commit of one call; interleaved they are separate steps too.
- ChatState.ChatState.HandleCommand: the answer to a failing command and the greeting of a new connection are sent under the same step as the change before them; the source takes the lock again, and nothing in between can touch that connection.
- Wall-clock columns, `sent_at`, `occurred_on_utc`: no property reads them. Only the database clock of the leases is kept.
- JSON and the wire tags: topic payloads are event values, and an undecodable payload is a malformed record that is skipped and committed, and a text frame either is a command or is not.
- The Postgres, Kafka, Redis and WebSocket clients, their pools and timeouts: tables, logs and keys are maps and sequences, and their failures are steps.
- Counter widths: `RetryCount`, room versions and message, connection and outbox ids are unbounded; quantities and stock keep their 32 bits.
- Consumer names and the two fixed failure reasons are constructors instead of strings.
- The HTTP responses of the order handler beyond which of created, bad request, conflict and server error applies.
- The query check of the chat `connect` handler: a registration takes whatever names it lets through.
- Whether messages already queued reach the socket: the results are about what is dispatched.
- Orders inserted by other writers while the pipeline runs: they are there at the start or not at all.
- The hot-score leaderboard, the offset-based bakery list and the single-row handlers: thin wrappers over one statement each; the last appear only as arbitrary changes of the table between two pages.
- Authentication, routing, configuration, observability, the gRPC greeter and shutdown.
