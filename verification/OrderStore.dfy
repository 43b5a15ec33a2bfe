/** The tables as objects, and the transactions that change them one statement at a time
    (src/orders/store.rs). Every method is proved against its function on table values. */
module OrderStore {
  import opened Prelude
  import opened Orders
  import opened Outbox
  import opened Store

  /** An inbox table; the pair of message id and consumer is its key. */
  class InboxTable {
    var entries: Inbox

    constructor ()
      ensures entries == {}
    {
      entries := {};
    }

    /** `INSERT … ON CONFLICT DO NOTHING`: true for exactly the first insertion of a pair. */
    method InsertOnce(messageId: Uuid, consumer: Consumer) returns (inserted: bool)
      modifies this
      ensures entries == old(entries) + {(messageId, consumer)}
      ensures inserted <==> (messageId, consumer) !in old(entries)
    {
      if (messageId, consumer) in entries {
        return false;
      }
      entries := entries + {(messageId, consumer)};
      return true;
    }
  }

  /** An outbox table. */
  class OutboxTable<E> {
    var rows: Table<E>

    constructor ()
      ensures rows == map[]
    {
      rows := map[];
    }

    method Insert(id: nat, message: Message<E>)
      requires id !in rows
      modifies this
      ensures rows == old(rows)[id := NewRow(message)]
    {
      rows := rows[id := NewRow(message)];
    }

    /** Lease the lowest open rows that no concurrent transaction holds, up to the batch limit. */
    method ListUnpublished(skipped: set<nat>, now: Time) returns (picked: seq<nat>)
      modifies this
      ensures IsPick(old(rows), skipped, now, picked)
      ensures rows == Lease(old(rows), Elements(picked), now + OUTBOX_LOCK)
    {
      var open := ClaimableIds(rows, now) - skipped;
      picked := SelectLowest(open, BATCH_LIMIT);
      LockRows(picked, now + OUTBOX_LOCK);
    }

    /** `ORDER BY "Id" LIMIT limit`. */
    static method SelectLowest(ids: set<nat>, limit: nat) returns (picked: seq<nat>)
      ensures Distinct(picked) && Elements(picked) == Lowest(ids, limit)
    {
      picked := [];
      var open := ids;
      while |picked| < limit && open != {}
        invariant |picked| <= limit && Distinct(picked)
        invariant open == ids - Elements(picked) && LowerPart(Elements(picked), ids)
        decreases |open|
      {
        var least := Minimum(open);
        LowerPartGrows(Elements(picked), ids);
        OneMore(picked, least);
        picked := picked + [least];
        open := open - {least};
      }
      DistinctCount(picked);
      LowestIsUnique(ids, limit, Elements(picked));
    }

    static lemma OneMore(ids: seq<nat>, id: nat)
      requires Distinct(ids) && id !in Elements(ids)
      ensures Distinct(ids + [id]) && Elements(ids + [id]) == Elements(ids) + {id}
    {
      assert forall i | 0 <= i < |ids| :: ids[i] in Elements(ids);
    }

    method LockRows(picked: seq<nat>, until: Time)
      modifies this
      ensures rows == Lease(old(rows), Elements(picked), until)
    {
      assert rows == Lease(rows, Elements([]), until);
      var i := 0;
      while i < |picked|
        invariant 0 <= i <= |picked|
        invariant rows == Lease(old(rows), Elements(picked[..i]), until)
      {
        if picked[i] in rows {
          rows := rows[picked[i] := rows[picked[i]].(lockedUntil := Some(until))];
        }
        assert Elements(picked[..i + 1]) == Elements(picked[..i]) + {picked[i]};
        i := i + 1;
      }
      assert picked[..i] == picked;
    }

    method MarkRowPublished(id: nat)
      modifies this
      ensures rows == MarkPublished(old(rows), id)
    {
      if id in rows {
        rows := rows[id := rows[id].(published := true, lockedUntil := None, lastError := None)];
      }
    }

    method MarkRowFailed(id: nat, error: string)
      modifies this
      ensures rows == MarkFailed(old(rows), id, error)
    {
      if id in rows {
        var row := rows[id];
        rows := rows[id := row.(retryCount := row.retryCount + 1, lockedUntil := None, lastError := Some(error))];
      }
    }
  }

  class OrderStore {
    var orders: map<Uuid, OrderRecord>
    var stocks: map<string, i32>
    const orderOutbox: OutboxTable<OrderCreatedEvent>
    const inventoryOutbox: OutboxTable<InventoryResultEvent>
    const inventoryInbox: InboxTable
    const orderInbox: InboxTable

    ghost function Repr(): set<object>
    {
      {this as object, orderOutbox as object, inventoryOutbox as object, inventoryInbox as object, orderInbox as object}
    }

    ghost predicate Valid()
    {
      inventoryInbox != orderInbox && orderOutbox as object != inventoryOutbox as object
    }

    ghost function Value(): Db
      reads this, orderOutbox, inventoryOutbox, inventoryInbox, orderInbox
    {
      Db(orders, stocks, orderOutbox.rows, inventoryOutbox.rows, inventoryInbox.entries, orderInbox.entries)
    }

    constructor (stocks: map<string, i32>)
      ensures Valid() && fresh(Repr())
      ensures Value() == Db(map[], stocks, map[], map[], {}, {})
    {
      orders := map[];
      this.stocks := stocks;
      orderOutbox := new OutboxTable();
      inventoryOutbox := new OutboxTable();
      inventoryInbox := new InboxTable();
      orderInbox := new InboxTable();
    }

    method InsertOrderWithOutbox(request: CreateOrderRequest, orderId: Uuid, messageId: Uuid, rowId: nat)
      returns (order: OrderRecord)
      requires Valid() && orderId !in orders && rowId !in orderOutbox.rows
      modifies this, orderOutbox
      ensures Value() == InsertOrder(old(Value()), request, orderId, messageId, rowId)
      ensures orders == old(orders)[orderId := order] && stocks == old(stocks)
      ensures order.sku == request.sku && order.quantity == request.quantity
      ensures !order.simulateFailure && order.status == Pending && order.failureReason == None
      ensures orderOutbox.rows == old(orderOutbox.rows)[
                rowId := Row(
                  Message(messageId, OrderCreatedEvent(messageId, orderId, orderId, request.sku, request.quantity)),
                  false, None, 0, None)]
    {
      order := OrderRecord(request.sku, request.quantity, false, Pending, None);
      orders := orders[orderId := order];
      var event := OrderCreatedEvent(messageId, orderId, orderId, request.sku, request.quantity);
      orderOutbox.Insert(rowId, Message(event.messageId, event));
    }

    method LoadSimulateFailure(orderId: Uuid) returns (value: Option<bool>)
      ensures value == if orderId in orders then Some(orders[orderId].simulateFailure) else None
    {
      value := if orderId in orders then Some(orders[orderId].simulateFailure) else None;
    }

    /** Rows affected by the conditional decrement, or None when the statement fails. */
    method DecrementStock(sku: string, quantity: i32) returns (updatedRows: Option<nat>)
      modifies this`stocks
      ensures updatedRows == (
                if sku !in old(stocks) || old(stocks)[sku] < quantity then Some(0)
                else if old(stocks)[sku] - quantity > I32_MAX then None else Some(1))
      ensures stocks == if updatedRows == Some(1) then old(stocks)[sku := old(stocks)[sku] - quantity] else old(stocks)
    {
      if sku !in stocks || stocks[sku] < quantity {
        return Some(0);
      }
      var left: int := stocks[sku] - quantity;
      if left > I32_MAX {
        return None;
      }
      stocks := stocks[sku := left];
      return Some(1);
    }

    /** The stock is there and the order is not marked to fail. */
    static predicate StockSuffices(db: Db, event: OrderCreatedEvent)
    {
      && !(event.orderId in db.orders && db.orders[event.orderId].simulateFailure)
      && event.sku in db.stocks && event.quantity <= db.stocks[event.sku]
    }

    /** A message not seen before, whose decrement, if any, stays within the column. */
    static predicate Accepted(db: Db, event: OrderCreatedEvent)
    {
      && (event.messageId, InventoryWorker) !in db.inventoryInbox
      && (StockSuffices(db, event) ==> db.stocks[event.sku] - event.quantity <= I32_MAX)
    }

    static function ResultEvent(db: Db, event: OrderCreatedEvent, resultId: Uuid, granted: bool): InventoryResultEvent
    {
      var simulated := event.orderId in db.orders && db.orders[event.orderId].simulateFailure;
      InventoryResultEvent(
        resultId, event.correlationId, event.orderId, event.sku, event.quantity, granted,
        if granted then None else Some(if simulated then SimulatedInventoryFailure else InsufficientStock))
    }

    /** Ok(None) for a message seen before, Ok(Some(sku)) for a first one; a failed statement rolls
        the inbox insertion back. */
    method HandleOrderCreatedMessage(event: OrderCreatedEvent, resultId: Uuid, rowId: nat)
      returns (r: Result<Option<string>, string>)
      requires Valid() && rowId !in inventoryOutbox.rows
      modifies this`stocks, inventoryInbox, inventoryOutbox
      ensures Value() == HandleOrderCreated(old(Value()), event, resultId, rowId).0
      ensures match HandleOrderCreated(old(Value()), event, resultId, rowId).1
              case Duplicate => r == Ok(None)
              case Processed(sku) => r == Ok(Some(sku))
              case Failed => r.Err?
      ensures !Accepted(old(Value()), event) ==>
                && (r.Err? <==> (event.messageId, InventoryWorker) !in old(inventoryInbox.entries))
                && stocks == old(stocks) && inventoryOutbox.rows == old(inventoryOutbox.rows)
                && inventoryInbox.entries == old(inventoryInbox.entries)
      ensures Accepted(old(Value()), event) ==>
                var granted := StockSuffices(old(Value()), event);
                && inventoryInbox.entries == old(inventoryInbox.entries) + {(event.messageId, InventoryWorker)}
                && stocks == (if granted then old(stocks)[event.sku := old(stocks)[event.sku] - event.quantity]
                              else old(stocks))
                && inventoryOutbox.rows == old(inventoryOutbox.rows)[
                     rowId := Row(Message(resultId, ResultEvent(old(Value()), event, resultId, granted)),
                                  false, None, 0, None)]
    {
      var savepoint := inventoryInbox.entries;
      var inserted := inventoryInbox.InsertOnce(event.messageId, InventoryWorker);
      if !inserted {
        assert inventoryInbox.entries == savepoint;
        return Ok(None);
      }

      var flag := LoadSimulateFailure(event.orderId);
      var simulateFailure := flag.Some? && flag.value;
      var updatedRows := Some(0);
      if !simulateFailure {
        updatedRows := DecrementStock(event.sku, event.quantity);
      }
      if updatedRows.None? {
        inventoryInbox.entries := savepoint;
        return Err("integer out of range");
      }

      var outcome := DetermineInventoryResult(simulateFailure, updatedRows.value);
      var outboxEvent := InventoryResultEvent(
        resultId, event.correlationId, event.orderId, event.sku, event.quantity, outcome.success, outcome.reason);
      inventoryOutbox.Insert(rowId, Message(outboxEvent.messageId, outboxEvent));
      return Ok(Some(event.sku));
    }

    method UpdateOrder(orderId: Uuid, applied: Applied) returns (affected: nat)
      modifies this`orders
      ensures affected == if orderId in old(orders) then 1 else 0
      ensures orders == if orderId in old(orders)
                        then old(orders)[orderId := old(orders)[orderId].(
                               status := applied.status, failureReason := applied.failureReason)]
                        else old(orders)
    {
      if orderId !in orders {
        return 0;
      }
      orders := orders[orderId := orders[orderId].(status := applied.status, failureReason := applied.failureReason)];
      return 1;
    }

    /** Ok(false) for a result seen before, Ok(true) for a first one; when no order row is affected
        the transaction is abandoned and the inbox insertion rolled back. */
    method ApplyInventoryResultMessage(event: InventoryResultEvent) returns (r: Result<bool, string>)
      requires Valid()
      modifies this`orders, orderInbox
      ensures (Value(), r) == ApplyResult(old(Value()), event)
      ensures r.Ok? <==> r == Ok(false) || event.orderId in old(orders)
      ensures r == Ok(false) <==> (event.messageId, OrdersWorker) in old(orderInbox.entries)
      ensures r != Ok(true) ==> orders == old(orders) && orderInbox.entries == old(orderInbox.entries)
      ensures r == Ok(true) ==>
                && orderInbox.entries == old(orderInbox.entries) + {(event.messageId, OrdersWorker)}
                && orders == old(orders)[event.orderId := old(orders)[event.orderId].(
                     status := if event.success then Confirmed else Rejected,
                     failureReason := if event.success then None
                                      else if event.reason.Some? then event.reason else Some(InsufficientStock))]
    {
      var savepoint := orderInbox.entries;
      var inserted := orderInbox.InsertOnce(event.messageId, OrdersWorker);
      if !inserted {
        assert orderInbox.entries == savepoint;
        return Ok(false);
      }
      var affected := UpdateOrder(event.orderId, ApplyInventoryResult(event.success, event.reason));
      if affected != 1 {
        orderInbox.entries := savepoint;
        return Err("order not found");
      }
      return Ok(true);
    }

    method LoadInventoryStockQuantity(sku: string) returns (quantity: Option<i32>)
      ensures quantity == LoadStock(Value(), sku)
      ensures quantity == if sku in stocks then Some(stocks[sku]) else None
    {
      quantity := if sku in stocks then Some(stocks[sku]) else None;
    }
  }
}
