/** The inductive invariant of the pipeline. SagaCore and SagaSteps prove that every step keeps it. */
module SagaInvariant {
  import opened Prelude
  import opened Sums
  import opened Orders
  import opened Outbox
  import opened Consumers
  import opened Store
  import opened Allocator
  import opened SagaState

  type Created = map<nat, Message<OrderCreatedEvent>>
  type Results = map<nat, Message<InventoryResultEvent>>

  // ----- Orders and their creation rows -----

  ghost predicate CreatedFor(order: OrderRecord, orderId: Uuid, m: Message<OrderCreatedEvent>)
  {
    && m.event == OrderCreatedEvent(m.id, orderId, orderId, order.sku, order.quantity)
    && order.quantity > 0
  }

  /** Orders and creation messages correspond one to one; ids are known and not shared. */
  ghost predicate CreatedOk(orders: map<Uuid, OrderRecord>, created: Created, row: map<Uuid, nat>, uuids: set<Uuid>)
  {
    && row.Keys == orders.Keys <= uuids
    && (forall o | o in orders :: row[o] in created && CreatedFor(orders[o], o, created[row[o]]))
    && (forall id | id in created ::
          created[id].id in uuids && created[id].event.orderId in row && row[created[id].event.orderId] == id)
    && (forall a, b | a in created && b in created && a != b :: created[a].id != created[b].id)
  }

  // ----- Decisions -----

  function FailureReason(success: bool, simulateFailure: bool): Option<Reason>
  {
    if success then None else Some(if simulateFailure then SimulatedInventoryFailure else InsufficientStock)
  }

  ghost predicate ResultFor(order: OrderRecord, orderId: Uuid, m: Message<InventoryResultEvent>)
  {
    && m.event == InventoryResultEvent(
                    m.id, orderId, orderId, order.sku, order.quantity, m.event.success,
                    FailureReason(m.event.success, order.simulateFailure))
    && (order.simulateFailure ==> !m.event.success)
  }

  /** At most one result row per order, and every result row belongs to an order. */
  ghost predicate ResultsOk(orders: map<Uuid, OrderRecord>, results: Results, row: map<Uuid, nat>, uuids: set<Uuid>)
  {
    && row.Keys <= orders.Keys
    && (forall o | o in row :: row[o] in results && ResultFor(orders[o], o, results[row[o]]))
    && (forall id | id in results ::
          results[id].id in uuids && results[id].event.orderId in row && row[results[id].event.orderId] == id)
    && (forall a, b | a in results && b in results && a != b :: results[a].id != results[b].id)
  }

  /** A creation message is in the inbox exactly when its order has been decided. */
  ghost predicate DecidedOk(
    created: Created, createdRow: map<Uuid, nat>, resultRow: map<Uuid, nat>, inbox: Inbox, uuids: set<Uuid>)
    requires forall o | o in createdRow :: createdRow[o] in created
  {
    && (forall o | o in createdRow :: (created[createdRow[o]].id, InventoryWorker) in inbox <==> o in resultRow)
    && (forall m | m in inbox :: m.0 in uuids)
  }

  // ----- Final statuses -----

  predicate IsApplied(results: Results, resultRow: map<Uuid, nat>, inbox: Inbox, o: Uuid)
  {
    o in resultRow && resultRow[o] in results && (results[resultRow[o]].id, OrdersWorker) in inbox
  }

  function Outcome(results: Results, resultRow: map<Uuid, nat>, inbox: Inbox, o: Uuid): Applied
  {
    if IsApplied(results, resultRow, inbox, o)
    then ApplyInventoryResult(results[resultRow[o]].event.success, results[resultRow[o]].event.reason)
    else Applied(Pending, None)
  }

  /** Status and reason of every order are those of its result once that has been applied. */
  ghost predicate StatusOk(
    orders: map<Uuid, OrderRecord>, results: Results, resultRow: map<Uuid, nat>, inbox: Inbox, uuids: set<Uuid>)
  {
    && (forall o | o in orders ::
          Applied(orders[o].status, orders[o].failureReason) == Outcome(results, resultRow, inbox, o))
    && (forall m | m in inbox :: m.0 in uuids)
  }

  // ----- Stock -----

  function DemandOf(order: OrderRecord): Demand
  {
    Demand(order.sku, order.quantity, order.simulateFailure)
  }

  function Demands(orders: map<Uuid, OrderRecord>, ledger: seq<Uuid>): (d: seq<Demand>)
    requires forall o | o in ledger :: o in orders
    ensures |d| == |ledger|
  {
    if ledger == [] then []
    else Demands(orders, ledger[..|ledger| - 1]) + [DemandOf(orders[ledger[|ledger| - 1]])]
  }

  ghost predicate LedgerOk(ledger: seq<Uuid>, resultRow: map<Uuid, nat>)
  {
    && (forall i, j | 0 <= i < j < |ledger| :: ledger[i] != ledger[j])
    && (forall o :: o in ledger <==> o in resultRow)
  }

  /** Stock and verdicts are the clerk's, folded over the ledger. */
  ghost predicate AllocatedOk(
    orders: map<Uuid, OrderRecord>, stocks: map<string, i32>, results: Results, h: History)
    requires forall o | o in h.ledger :: o in orders
    requires forall o | o in h.ledger :: o in h.resultRow && h.resultRow[o] in results
  {
    var a := Allocate(h.opening, Demands(orders, h.ledger));
    && a.stocks == stocks
    && forall i | 0 <= i < |h.ledger| :: results[h.resultRow[h.ledger[i]]].event.success == a.granted[i]
  }

  /** Quantity a result row takes from `sku`. */
  function Taken(results: Results, sku: string): map<nat, int>
  {
    map id | id in results ::
      if results[id].event.success && results[id].event.sku == sku then results[id].event.quantity else 0
  }

  ghost predicate ConservedOk(stocks: map<string, i32>, results: Results, opening: map<string, i32>)
  {
    && stocks.Keys == opening.Keys
    && (forall sku | sku in stocks :: opening[sku] == stocks[sku] + Sum(Taken(results, sku)))
    && (forall sku | sku in stocks :: 0 <= stocks[sku] <= opening[sku] || stocks[sku] == opening[sku])
  }

  ghost predicate CoreInv(db: Db, uuids: set<Uuid>, h: History)
  {
    var created, results := Content(db.orderOutbox), Content(db.inventoryOutbox);
    && CreatedOk(db.orders, created, h.createdRow, uuids)
    && ResultsOk(db.orders, results, h.resultRow, uuids)
    && DecidedOk(created, h.createdRow, h.resultRow, db.inventoryInbox, uuids)
    && StatusOk(db.orders, results, h.resultRow, db.orderInbox, uuids)
    && LedgerOk(h.ledger, h.resultRow)
    && AllocatedOk(db.orders, db.stocks, results, h)
    && ConservedOk(db.stocks, results, h.opening)
  }

  // ----- The cache -----

  ghost predicate NotBelow(quantity: int, stocks: map<string, i32>, sku: string)
  {
    sku in stocks ==> stocks[sku] <= quantity
  }

  /** No cached quantity, and no quantity on its way to the cache, is below the stock. */
  ghost predicate CacheOk(cache: map<string, i32>, g: Group, stocks: map<string, i32>)
  {
    && (forall sku | sku in cache :: NotBelow(cache[sku], stocks, sku))
    && (forall sid | sid in g.sessions :: FreshEnough(g.sessions[sid].phase, stocks))
  }

  ghost predicate FreshEnough(phase: SessionPhase, stocks: map<string, i32>)
  {
    phase.Loaded? && phase.quantity.Some? ==> NotBelow(phase.quantity.value, stocks, phase.sku)
  }

  ghost predicate AdmittedOk(admitted: multiset<CreateOrderRequest>)
  {
    forall r | r in admitted :: r.quantity > 0
  }

  ghost predicate SagaInv(s: Saga)
  {
    && CoreInv(DbOf(s), s.uuids, s.history)
    && ChannelInv(s.created, s.clock)
    && ChannelInv(s.results, s.clock)
    && GroupInv(s.inventoryGroup, s.created.topic, s.inventoryInbox, InventoryWorker)
    && GroupInv(s.ordersGroup, s.results.topic, s.orderInbox, OrdersWorker)
    && CacheOk(s.cache, s.inventoryGroup, s.stocks)
    && AdmittedOk(s.admitted)
  }
}
