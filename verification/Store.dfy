/** The database of the order pipeline and its transactions (src/orders/store.rs) as functions on
    table values. */
module Store {
  import opened Prelude
  import opened Orders
  import opened Outbox

  datatype OrderRecord = OrderRecord(
    sku: string, quantity: i32, simulateFailure: bool, status: OrderStatus, failureReason: Option<Reason>)

  type Inbox = set<(Uuid, Consumer)>

  datatype Db = Db(
    orders: map<Uuid, OrderRecord>,
    stocks: map<string, i32>,
    orderOutbox: Table<OrderCreatedEvent>,
    inventoryOutbox: Table<InventoryResultEvent>,
    inventoryInbox: Inbox,
    orderInbox: Inbox)

  function CreatedMessage(request: CreateOrderRequest, orderId: Uuid, messageId: Uuid): Message<OrderCreatedEvent>
  {
    Message(messageId, OrderCreatedEvent(messageId, orderId, orderId, request.sku, request.quantity))
  }

  function InsertOrder(db: Db, request: CreateOrderRequest, orderId: Uuid, messageId: Uuid, rowId: nat): Db
  {
    db.(orders := db.orders[orderId := OrderRecord(request.sku, request.quantity, false, Pending, None)],
        orderOutbox := db.orderOutbox[rowId := NewRow(CreatedMessage(request, orderId, messageId))])
  }

  datatype Handled = Duplicate | Processed(sku: string) | Failed

  function SimulateFailure(db: Db, orderId: Uuid): bool
  {
    orderId in db.orders && db.orders[orderId].simulateFailure
  }

  /** Rows matched by the conditional decrement: one or none, because `Sku` is the key. */
  function Decrements(db: Db, event: OrderCreatedEvent): bool
  {
    && !SimulateFailure(db, event.orderId)
    && event.sku in db.stocks && event.quantity <= db.stocks[event.sku]
  }

  function ResultMessage(db: Db, event: OrderCreatedEvent, resultId: Uuid): Message<InventoryResultEvent>
  {
    var outcome := DetermineInventoryResult(
                     SimulateFailure(db, event.orderId), if Decrements(db, event) then 1 else 0);
    Message(resultId, InventoryResultEvent(
              resultId, event.correlationId, event.orderId, event.sku, event.quantity,
              outcome.success, outcome.reason))
  }

  /** `AvailableQuantity - quantity` leaves the integer column's range: the statement fails. */
  function Overflows(db: Db, event: OrderCreatedEvent): bool
  {
    Decrements(db, event) && db.stocks[event.sku] - event.quantity > I32_MAX
  }

  function HandleOrderCreated(db: Db, event: OrderCreatedEvent, resultId: Uuid, rowId: nat): (Db, Handled)
  {
    if (event.messageId, InventoryWorker) in db.inventoryInbox then (db, Duplicate)
    else if Overflows(db, event) then (db, Failed)
    else
      (db.(inventoryInbox := db.inventoryInbox + {(event.messageId, InventoryWorker)},
           stocks := if Decrements(db, event)
                     then db.stocks[event.sku := db.stocks[event.sku] - event.quantity] else db.stocks,
           inventoryOutbox := db.inventoryOutbox[rowId := NewRow(ResultMessage(db, event, resultId))]),
       Processed(event.sku))
  }

  function ApplyResult(db: Db, event: InventoryResultEvent): (Db, Result<bool, string>)
  {
    if (event.messageId, OrdersWorker) in db.orderInbox then (db, Ok(false))
    else if event.orderId !in db.orders then (db, Err("order not found"))
    else
      var applied := ApplyInventoryResult(event.success, event.reason);
      (db.(orderInbox := db.orderInbox + {(event.messageId, OrdersWorker)},
           orders := db.orders[event.orderId := db.orders[event.orderId].(
                       status := applied.status, failureReason := applied.failureReason)]),
       Ok(true))
  }

  function LoadStock(db: Db, sku: string): Option<i32>
  {
    if sku in db.stocks then Some(db.stocks[sku]) else None
  }
}
