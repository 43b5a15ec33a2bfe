/** The three database transactions keep the core invariant. */
module SagaCore {
  import opened Prelude
  import opened Sums
  import opened Orders
  import opened Outbox
  import opened Store
  import opened Allocator
  import opened SagaInvariant
  import opened SagaState

  /** Demands depend on the orders in the ledger only through their demand columns. */
  lemma {:induction false} DemandsFrame(before: map<Uuid, OrderRecord>, after: map<Uuid, OrderRecord>,
      ledger: seq<Uuid>)
    requires forall o | o in ledger :: o in before && o in after && DemandOf(before[o]) == DemandOf(after[o])
    ensures Demands(before, ledger) == Demands(after, ledger)
  {
    if ledger != [] {
      DemandsFrame(before, after, ledger[..|ledger| - 1]);
    }
  }

  lemma InsertContent<E>(rows: Table<E>, id: nat, message: Message<E>)
    ensures Content(rows[id := NewRow(message)]) == Content(rows)[id := message]
  {
  }

  // ----- insert_order_with_outbox -----

  lemma InsertCreated(
    orders: map<Uuid, OrderRecord>, created: Created, row: map<Uuid, nat>, uuids: set<Uuid>,
    order: OrderRecord, o: Uuid, m: Message<OrderCreatedEvent>, id: nat)
    requires CreatedOk(orders, created, row, uuids) && CreatedFor(order, o, m)
    requires o !in uuids && m.id !in uuids && id !in created
    ensures CreatedOk(orders[o := order], created[id := m], row[o := id], uuids + {o, m.id})
  {
  }

  lemma InsertDecided(
    created: Created, row: map<Uuid, nat>, resultRow: map<Uuid, nat>, inbox: Inbox, uuids: set<Uuid>,
    o: Uuid, m: Message<OrderCreatedEvent>, id: nat)
    requires (forall o | o in row :: row[o] in created) && DecidedOk(created, row, resultRow, inbox, uuids)
    requires o !in resultRow && m.id !in uuids && id !in created
    ensures DecidedOk(created[id := m], row[o := id], resultRow, inbox, uuids + {o, m.id})
  {
  }

  lemma InsertLeavesVerdicts(
    orders: map<Uuid, OrderRecord>, results: Results, row: map<Uuid, nat>, inbox: Inbox, uuids: set<Uuid>,
    order: OrderRecord, o: Uuid, more: set<Uuid>)
    requires ResultsOk(orders, results, row, uuids) && StatusOk(orders, results, row, inbox, uuids)
    requires o !in orders && order.status == Pending && order.failureReason == None
    ensures ResultsOk(orders[o := order], results, row, uuids + more)
    ensures StatusOk(orders[o := order], results, row, inbox, uuids + more)
  {
  }

  lemma InsertKeepsCore(
    db: Db, uuids: set<Uuid>, h: History, request: CreateOrderRequest, orderId: Uuid, messageId: Uuid, rowId: nat)
    requires CoreInv(db, uuids, h) && request.quantity > 0
    requires orderId !in uuids && messageId !in uuids && rowId !in db.orderOutbox
    ensures CoreInv(InsertOrder(db, request, orderId, messageId, rowId), uuids + {orderId, messageId},
                    h.(createdRow := h.createdRow[orderId := rowId]))
  {
    var after := InsertOrder(db, request, orderId, messageId, rowId);
    var m := CreatedMessage(request, orderId, messageId);
    InsertContent(db.orderOutbox, rowId, m);
    InsertCreated(db.orders, Content(db.orderOutbox), h.createdRow, uuids, after.orders[orderId], orderId, m, rowId);
    InsertDecided(Content(db.orderOutbox), h.createdRow, h.resultRow, db.inventoryInbox, uuids, orderId, m, rowId);
    InsertLeavesVerdicts(db.orders, Content(db.inventoryOutbox), h.resultRow, db.orderInbox, uuids,
                         after.orders[orderId], orderId, {orderId, messageId});
    DemandsFrame(db.orders, after.orders, h.ledger);
    ghost var created, row, uuids' := Content(after.orderOutbox), h.createdRow[orderId := rowId],
      uuids + {orderId, messageId};
    assert CreatedOk(after.orders, created, row, uuids');
    assert DecidedOk(created, row, h.resultRow, after.inventoryInbox, uuids');
    assert AllocatedOk(after.orders, after.stocks, Content(after.inventoryOutbox), h.(createdRow := row));
  }

  // ----- handle_order_created_message -----

  /** The event of a creation row speaks about an existing order with the same columns. */
  lemma CreatedNamesOrder(
    orders: map<Uuid, OrderRecord>, rows: Table<OrderCreatedEvent>, row: map<Uuid, nat>, uuids: set<Uuid>,
    m: Message<OrderCreatedEvent>)
    requires CreatedOk(orders, Content(rows), row, uuids) && FromRows(rows, m)
    ensures m.event.orderId in orders && m.event.messageId == m.id
    ensures CreatedFor(orders[m.event.orderId], m.event.orderId, m)
    ensures row[m.event.orderId] in Content(rows) && Content(rows)[row[m.event.orderId]] == m
  {
    var id :| id in rows && rows[id].message == m;
    assert Content(rows)[id] == m;
  }

  lemma HandleDecided(
    orders: map<Uuid, OrderRecord>, created: Created, row: map<Uuid, nat>, resultRow: map<Uuid, nat>,
    inbox: Inbox, uuids: set<Uuid>, o: Uuid, resultId: Uuid, rowId: nat)
    requires CreatedOk(orders, created, row, uuids) && DecidedOk(created, row, resultRow, inbox, uuids) && o in row
    ensures DecidedOk(created, row, resultRow[o := rowId],
                      inbox + {(created[row[o]].id, InventoryWorker)}, uuids + {resultId})
  {
    forall p | p in row && created[row[p]].id == created[row[o]].id ensures p == o {
      assert row[p] == row[o];
      assert created[row[p]].event.orderId == p;
    }
  }

  lemma HandleResults(
    orders: map<Uuid, OrderRecord>, results: Results, row: map<Uuid, nat>, uuids: set<Uuid>,
    o: Uuid, m: Message<InventoryResultEvent>, id: nat)
    requires ResultsOk(orders, results, row, uuids) && o in orders && o !in row && ResultFor(orders[o], o, m)
    requires m.id !in uuids && id !in results
    ensures ResultsOk(orders, results[id := m], row[o := id], uuids + {m.id})
  {
  }

  lemma HandleStatus(
    orders: map<Uuid, OrderRecord>, results: Results, row: map<Uuid, nat>, inbox: Inbox, uuids: set<Uuid>,
    o: Uuid, m: Message<InventoryResultEvent>, id: nat)
    requires StatusOk(orders, results, row, inbox, uuids) && o !in row && id !in results && m.id !in uuids
    requires forall p | p in row :: row[p] in results
    ensures StatusOk(orders, results[id := m], row[o := id], inbox, uuids + {m.id})
  {
    forall p | p in orders
      ensures Outcome(results[id := m], row[o := id], inbox, p) == Outcome(results, row, inbox, p)
    {
    }
  }

  lemma HandleLedger(ledger: seq<Uuid>, row: map<Uuid, nat>, o: Uuid, id: nat)
    requires LedgerOk(ledger, row) && o !in row
    ensures LedgerOk(ledger + [o], row[o := id])
  {
  }

  lemma HandleAllocation(
    orders: map<Uuid, OrderRecord>, stocks: map<string, i32>, results: Results, h: History,
    o: Uuid, m: Message<InventoryResultEvent>, id: nat, stocks': map<string, i32>)
    requires o in orders && o !in h.resultRow && id !in results
    requires forall p | p in h.ledger :: p in orders && p in h.resultRow && h.resultRow[p] in results
    requires AllocatedOk(orders, stocks, results, h)
    requires m.event.success == Grants(stocks, DemandOf(orders[o])) && stocks' == Serve(stocks, DemandOf(orders[o]))
    ensures (forall p | p in h.ledger + [o] :: p in orders)
    ensures AllocatedOk(orders, stocks', results[id := m],
                        h.(resultRow := h.resultRow[o := id], ledger := h.ledger + [o]))
  {
    AllocateNext(h.opening, Demands(orders, h.ledger), DemandOf(orders[o]));
    DemandsNext(orders, h.ledger, o);
  }

  lemma DemandsNext(orders: map<Uuid, OrderRecord>, ledger: seq<Uuid>, o: Uuid)
    requires o in orders && forall p | p in ledger :: p in orders
    ensures Demands(orders, ledger + [o]) == Demands(orders, ledger) + [DemandOf(orders[o])]
  {
  }

  lemma TakenInsert(results: Results, id: nat, m: Message<InventoryResultEvent>, sku: string)
    requires id !in results
    ensures Sum(Taken(results[id := m], sku))
         == Sum(Taken(results, sku)) + if m.event.success && m.event.sku == sku then m.event.quantity else 0
  {
    var v := if m.event.success && m.event.sku == sku then m.event.quantity else 0;
    assert Taken(results[id := m], sku) == Taken(results, sku)[id := v];
    SumUpdate(Taken(results, sku), id, v);
  }

  lemma HandleConserves(
    stocks: map<string, i32>, results: Results, opening: map<string, i32>,
    d: Demand, m: Message<InventoryResultEvent>, id: nat, stocks': map<string, i32>)
    requires ConservedOk(stocks, results, opening) && id !in results && d.quantity > 0
    requires m.event.success == Grants(stocks, d) && m.event.sku == d.sku && m.event.quantity == d.quantity
    requires stocks' == Serve(stocks, d)
    ensures ConservedOk(stocks', results[id := m], opening)
  {
    forall sku | sku in stocks ensures Sum(Taken(results[id := m], sku)) == opening[sku] - stocks'[sku] {
      TakenInsert(results, id, m, sku);
    }
  }

  /** A positive decrement of a stock it fits into cannot leave the integer range. */
  lemma HandleIsServe(db: Db, event: OrderCreatedEvent, resultId: Uuid, rowId: nat, order: OrderRecord)
    requires event.orderId in db.orders && db.orders[event.orderId] == order
    requires order.sku == event.sku && order.quantity == event.quantity > 0
    requires (event.messageId, InventoryWorker) !in db.inventoryInbox
    ensures var (after, handled) := HandleOrderCreated(db, event, resultId, rowId);
            var m := ResultMessage(db, event, resultId);
            && handled == Processed(event.sku)
            && after.stocks == Serve(db.stocks, DemandOf(order))
            && m.event.success == Grants(db.stocks, DemandOf(order))
            && m.event.reason == FailureReason(m.event.success, order.simulateFailure)
            && after == db.(stocks := after.stocks,
                            inventoryInbox := db.inventoryInbox + {(event.messageId, InventoryWorker)},
                            inventoryOutbox := db.inventoryOutbox[rowId := NewRow(m)])
  {
  }

  lemma HandleKeepsCore(
    db: Db, uuids: set<Uuid>, h: History, m: Message<OrderCreatedEvent>, resultId: Uuid, rowId: nat)
    requires CoreInv(db, uuids, h) && FromRows(db.orderOutbox, m)
    requires resultId !in uuids && rowId !in db.inventoryOutbox
    requires (m.id, InventoryWorker) !in db.inventoryInbox
    ensures var (after, handled) := HandleOrderCreated(db, m.event, resultId, rowId);
            && handled == Processed(m.event.sku)
            && CoreInv(after, uuids + {resultId},
                       h.(resultRow := h.resultRow[m.event.orderId := rowId], ledger := h.ledger + [m.event.orderId]))
  {
    var o, created, results := m.event.orderId, Content(db.orderOutbox), Content(db.inventoryOutbox);
    CreatedNamesOrder(db.orders, db.orderOutbox, h.createdRow, uuids, m);
    var order := db.orders[o];
    HandleIsServe(db, m.event, resultId, rowId, order);
    var (after, _) := HandleOrderCreated(db, m.event, resultId, rowId);
    var result := ResultMessage(db, m.event, resultId);
    InsertContent(db.inventoryOutbox, rowId, result);
    HandleDecided(db.orders, created, h.createdRow, h.resultRow, db.inventoryInbox, uuids, o, resultId, rowId);
    HandleResults(db.orders, results, h.resultRow, uuids, o, result, rowId);
    HandleStatus(db.orders, results, h.resultRow, db.orderInbox, uuids, o, result, rowId);
    HandleLedger(h.ledger, h.resultRow, o, rowId);
    HandleAllocation(db.orders, db.stocks, results, h, o, result, rowId, after.stocks);
    HandleConserves(db.stocks, results, h.opening, DemandOf(order), result, rowId, after.stocks);
    var h' := h.(resultRow := h.resultRow[m.event.orderId := rowId], ledger := h.ledger + [m.event.orderId]);
    var uuids' := uuids + {resultId};
    assert Content(after.orderOutbox) == created;
    assert Content(after.inventoryOutbox) == results[rowId := result];
    assert CreatedOk(after.orders, created, h'.createdRow, uuids');
    assert ResultsOk(after.orders, results[rowId := result], h'.resultRow, uuids');
    assert DecidedOk(created, h'.createdRow, h'.resultRow, after.inventoryInbox, uuids');
    assert StatusOk(after.orders, results[rowId := result], h'.resultRow, after.orderInbox, uuids');
    assert LedgerOk(h'.ledger, h'.resultRow);
    assert AllocatedOk(after.orders, after.stocks, results[rowId := result], h');
    assert ConservedOk(after.stocks, results[rowId := result], h'.opening);
  }

  // ----- apply_inventory_result_message -----

  /** The event of a result row names an existing order with the same columns. */
  lemma ResultNamesOrder(
    orders: map<Uuid, OrderRecord>, rows: Table<InventoryResultEvent>, row: map<Uuid, nat>, uuids: set<Uuid>,
    m: Message<InventoryResultEvent>)
    requires ResultsOk(orders, Content(rows), row, uuids) && FromRows(rows, m)
    ensures m.event.orderId in row && m.event.orderId in orders && m.event.messageId == m.id
    ensures ResultFor(orders[m.event.orderId], m.event.orderId, m)
    ensures row[m.event.orderId] in Content(rows) && Content(rows)[row[m.event.orderId]] == m
  {
    var id :| id in rows && rows[id].message == m;
    assert Content(rows)[id] == m;
  }

  lemma ApplyStatus(
    orders: map<Uuid, OrderRecord>, results: Results, row: map<Uuid, nat>, inbox: Inbox, uuids: set<Uuid>, o: Uuid)
    requires StatusOk(orders, results, row, inbox, uuids) && ResultsOk(orders, results, row, uuids) && o in row
    ensures var applied := ApplyInventoryResult(results[row[o]].event.success, results[row[o]].event.reason);
            StatusOk(orders[o := orders[o].(status := applied.status, failureReason := applied.failureReason)],
                     results, row, inbox + {(results[row[o]].id, OrdersWorker)}, uuids)
  {
    var inbox' := inbox + {(results[row[o]].id, OrdersWorker)};
    forall p | p in orders && p != o ensures Outcome(results, row, inbox', p) == Outcome(results, row, inbox, p) {
      assert p in row ==> results[row[p]].event.orderId == p;
    }
  }

  /** Nothing but the status columns of an order changes. */
  ghost predicate StatusOnly(before: map<Uuid, OrderRecord>, after: map<Uuid, OrderRecord>)
  {
    && after.Keys == before.Keys
    && forall o | o in before :: DemandOf(after[o]) == DemandOf(before[o])
  }

  lemma SetStatusIsStatusOnly(orders: map<Uuid, OrderRecord>, o: Uuid, applied: Applied)
    requires o in orders
    ensures StatusOnly(orders,
            orders[o := orders[o].(status := applied.status, failureReason := applied.failureReason)])
  {
  }

  lemma StatusOnlyKeepsRows(
    before: map<Uuid, OrderRecord>, after: map<Uuid, OrderRecord>, created: Created, results: Results, h: History,
    uuids: set<Uuid>)
    requires StatusOnly(before, after)
    requires CreatedOk(before, created, h.createdRow, uuids) && ResultsOk(before, results, h.resultRow, uuids)
    ensures CreatedOk(after, created, h.createdRow, uuids) && ResultsOk(after, results, h.resultRow, uuids)
  {
    forall o | o in before
      ensures after[o].sku == before[o].sku && after[o].quantity == before[o].quantity
      ensures after[o].simulateFailure == before[o].simulateFailure
    {
      assert DemandOf(after[o]) == DemandOf(before[o]);
    }
  }

  lemma ApplyKeepsCore(db: Db, uuids: set<Uuid>, h: History, m: Message<InventoryResultEvent>)
    requires CoreInv(db, uuids, h) && FromRows(db.inventoryOutbox, m)
    ensures var (after, applied) := ApplyResult(db, m.event); applied.Ok? && CoreInv(after, uuids, h)
  {
    ResultNamesOrder(db.orders, db.inventoryOutbox, h.resultRow, uuids, m);
    if (m.event.messageId, OrdersWorker) !in db.orderInbox {
      var (after, _) := ApplyResult(db, m.event);
      var created, results := Content(db.orderOutbox), Content(db.inventoryOutbox);
      ApplyStatus(db.orders, results, h.resultRow, db.orderInbox, uuids, m.event.orderId);
      SetStatusIsStatusOnly(db.orders, m.event.orderId, ApplyInventoryResult(m.event.success, m.event.reason));
      StatusOnlyKeepsRows(db.orders, after.orders, created, results, h, uuids);
      DemandsFrame(db.orders, after.orders, h.ledger);
      assert StatusOk(after.orders, results, h.resultRow, after.orderInbox, uuids);
      assert AllocatedOk(after.orders, after.stocks, results, h);
      assert CoreInv(after, uuids, h);
    }
  }
}
