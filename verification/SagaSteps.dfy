/** Every step of the pipeline keeps the invariant, so it holds throughout every run. */
module SagaSteps {
  import opened Prelude
  import opened Orders
  import opened Outbox
  import opened Consumers
  import opened Store
  import opened SagaState
  import opened SagaInvariant
  import opened SagaCore

  /** A start: any opening stock, any number of partitions, and possibly orders another writer has
      already inserted (with either simulate flag) together with their unpublished outbox rows. */
  ghost predicate Init(s: Saga)
  {
    && CreatedOk(s.orders, Content(s.created.rows), s.history.createdRow, s.uuids)
    && (forall o | o in s.orders :: s.orders[o].status == Pending && s.orders[o].failureReason == None)
    && (forall id | id in s.created.rows :: s.created.rows[id] == NewRow(s.created.rows[id].message))
    && s.created == Channel(s.created.rows, map[], {}, seq(|s.created.topic|, i => []))
    && s.results == Channel(map[], map[], {}, seq(|s.results.topic|, i => []))
    && s.inventoryInbox == {} == s.orderInbox
    && s.inventoryGroup == Group(seq(|s.created.topic|, i => 0), map[], {})
    && s.ordersGroup == Group(seq(|s.results.topic|, i => 0), map[], {})
    && (forall sku | sku in s.cache :: NotBelow(s.cache[sku], s.stocks, sku))
    && s.admitted == multiset{}
    && s.history == History(s.stocks, s.history.createdRow, map[], [])
  }

  /** The empty pipeline over any opening stock and any number of partitions. */
  function Start(stocks: map<string, i32>, orderPartitions: nat, resultPartitions: nat): Saga
  {
    Saga(map[], stocks,
         Channel(map[], map[], {}, seq(orderPartitions, i => [])),
         Channel(map[], map[], {}, seq(resultPartitions, i => [])),
         {}, {},
         Group(seq(orderPartitions, i => 0), map[], {}), Group(seq(resultPartitions, i => 0), map[], {}),
         map[], multiset{}, {}, 0, History(stocks, map[], map[], []))
  }

  lemma StartIsInit(stocks: map<string, i32>, orderPartitions: nat, resultPartitions: nat)
    ensures Init(Start(stocks, orderPartitions, resultPartitions))
  {
    var s := Start(stocks, orderPartitions, resultPartitions);
    assert s.created.topic == seq(|s.created.topic|, i => []);
    assert s.results.topic == seq(|s.results.topic|, i => []);
    assert s.inventoryGroup.committed == seq(|s.created.topic|, i => 0);
    assert s.ordersGroup.committed == seq(|s.results.topic|, i => 0);
  }

  lemma InitHolds(s: Saga)
    requires Init(s)
    ensures SagaInv(s)
  {
    assert CoreInv(DbOf(s), s.uuids, s.history);
    assert forall p | 0 <= p < |s.created.topic| :: s.created.topic[p] == [];
    assert forall p | 0 <= p < |s.results.topic| :: s.results.topic[p] == [];
  }

  // ----- Steps outside the transactions -----

  lemma PublishingKeepsCore(db: Db, uuids: set<Uuid>, h: History, after: Db)
    requires CoreInv(db, uuids, h)
    requires Content(after.orderOutbox) == Content(db.orderOutbox)
    requires Content(after.inventoryOutbox) == Content(db.inventoryOutbox)
    requires after == db.(orderOutbox := after.orderOutbox, inventoryOutbox := after.inventoryOutbox)
    ensures CoreInv(after, uuids, h)
  {
  }

  lemma SameContent<E>(before: Table<E>, after: Table<E>)
    requires RowsKept(before, after)
    ensures Content(after) == Content(before)
  {
  }

  lemma PubGrowsTopic<E>(c: Channel<E>, clock: Time, step: PubStep)
    requires PubEnabled(c, clock, step)
    ensures TopicGrows(c.topic, PubApply(c, clock, step).topic)
  {
  }

  lemma PublishOrdersKeeps(s: Saga, pub: PubStep)
    requires SagaInv(s) && PubEnabled(s.created, s.clock, pub)
    ensures SagaInv(s.(created := PubApply(s.created, s.clock, pub)))
  {
    var after := PubApply(s.created, s.clock, pub);
    PubKeepsRows(s.created, s.clock, pub);
    SameContent(s.created.rows, after.rows);
    PubKeepsChannel(s.created, s.clock, pub);
    PubGrowsTopic(s.created, s.clock, pub);
    PublishingKeepsCore(DbOf(s), s.uuids, s.history, DbOf(s.(created := after)));
    GrowthKeepsGroup(s.inventoryGroup, s.created.topic, s.inventoryInbox, InventoryWorker,
                     after.topic, s.inventoryInbox);
  }

  lemma PublishResultsKeeps(s: Saga, pub: PubStep)
    requires SagaInv(s) && PubEnabled(s.results, s.clock, pub)
    ensures SagaInv(s.(results := PubApply(s.results, s.clock, pub)))
  {
    var after := PubApply(s.results, s.clock, pub);
    PubKeepsRows(s.results, s.clock, pub);
    SameContent(s.results.rows, after.rows);
    PubKeepsChannel(s.results, s.clock, pub);
    PubGrowsTopic(s.results, s.clock, pub);
    PublishingKeepsCore(DbOf(s), s.uuids, s.history, DbOf(s.(results := after)));
    GrowthKeepsGroup(s.ordersGroup, s.results.topic, s.orderInbox, OrdersWorker, after.topic, s.orderInbox);
  }

  lemma InventoryGroupKeeps(s: Saga, step: GroupStep)
    requires SagaInv(s) && GroupEnabled(s.inventoryGroup, s.created.topic, step)
    ensures SagaInv(s.(inventoryGroup := GroupApply(s.inventoryGroup, s.created.topic, step)))
  {
    GroupStepKeeps(s.inventoryGroup, s.created.topic, s.inventoryInbox, InventoryWorker, step);
  }

  lemma OrdersGroupKeeps(s: Saga, step: GroupStep)
    requires SagaInv(s) && GroupEnabled(s.ordersGroup, s.results.topic, step)
    ensures SagaInv(s.(ordersGroup := GroupApply(s.ordersGroup, s.results.topic, step)))
  {
    GroupStepKeeps(s.ordersGroup, s.results.topic, s.orderInbox, OrdersWorker, step);
  }

  predicate RefreshStep(step: Step)
  {
    step.LoadForCache? || step.StoreInCache? || step.GiveUpCache?
  }

  lemma RefreshKeeps(s: Saga, step: Step)
    requires SagaInv(s) && Enabled(s, step) && RefreshStep(step)
    ensures SagaInv(Apply(s, step))
  {
    var after := Apply(s, step);
    RefreshKeepsGroup(s, step);
    RefreshKeepsCache(s, step);
    assert DbOf(after) == DbOf(s);
  }

  /** A loaded quantity is the stock at that moment; stored later, it is still not below the stock. */
  lemma RefreshKeepsCache(s: Saga, step: Step)
    requires CacheOk(s.cache, s.inventoryGroup, s.stocks) && Enabled(s, step) && RefreshStep(step)
    ensures CacheOk(Apply(s, step).cache, Apply(s, step).inventoryGroup, s.stocks)
  {
    assert FreshEnough(s.inventoryGroup.sessions[step.session].phase, s.stocks);
  }

  /** Between its transaction and its commit a session stays behind the same record. */
  lemma RefreshKeepsGroup(s: Saga, step: Step)
    requires GroupInv(s.inventoryGroup, s.created.topic, s.inventoryInbox, InventoryWorker)
    requires Enabled(s, step) && RefreshStep(step)
    ensures GroupInv(Apply(s, step).inventoryGroup, s.created.topic, s.inventoryInbox, InventoryWorker)
  {
  }

  /** Redis drops a cached quantity. */
  lemma EvictKeeps(s: Saga, sku: string)
    requires SagaInv(s)
    ensures SagaInv(s.(cache := s.cache - {sku}))
  {
    assert DbOf(s.(cache := s.cache - {sku})) == DbOf(s);
  }

  lemma TickKeeps(s: Saga, elapsed: nat)
    requires SagaInv(s)
    ensures SagaInv(s.(clock := s.clock + elapsed))
  {
    var after := s.(clock := s.clock + elapsed);
    assert DbOf(after) == DbOf(s);
  }

  // ----- The transactions -----

  lemma InsertKeeps(s: Saga, request: CreateOrderRequest, orderId: Uuid, messageId: Uuid, rowId: nat)
    requires SagaInv(s) && Enabled(s, Insert(request, orderId, messageId, rowId))
    ensures SagaInv(Apply(s, Insert(request, orderId, messageId, rowId)))
  {
    InsertKeepsCore(DbOf(s), s.uuids, s.history, request, orderId, messageId, rowId);
    InsertKeepsChannel(s.created, s.clock, rowId, CreatedMessage(request, orderId, messageId));
    var after := Apply(s, Insert(request, orderId, messageId, rowId));
    assert DbOf(after) == InsertOrder(DbOf(s), request, orderId, messageId, rowId);
    assert after.created == s.created.(rows := after.created.rows);
    assert after.results == s.results;
  }

  /** The record a session is at was sent from a row of the outbox. */
  lemma RecordIsFromRow<E>(c: Channel<E>, clock: Time, g: Group, sid: nat)
    requires ChannelInv(c, clock) && Holds(g, c.topic, sid)
    ensures FromRows(c.rows, RecordAt(c.topic, g.sessions[sid]).message)
  {
  }

  /** Less stock, and one session no longer carrying a loaded quantity. */
  lemma StockDropKeepsCache(
    cache: map<string, i32>, g: Group, stocks: map<string, i32>, sid: nat, phase: SessionPhase,
    stocks': map<string, i32>)
    requires CacheOk(cache, g, stocks) && sid in g.sessions && !phase.Loaded? && stocks'.Keys == stocks.Keys
    requires forall sku | sku in stocks :: stocks'[sku] <= stocks[sku]
    ensures CacheOk(cache, SetSession(g, sid, phase), stocks')
  {
    forall k | k in g.sessions && k != sid ensures FreshEnough(g.sessions[k].phase, stocks') {
      assert FreshEnough(g.sessions[k].phase, stocks);
    }
  }

  /** The parts a new record leaves alone, and the parts that were re-established, make up the invariant. */
  lemma InventorySideKeeps(s: Saga, after: Saga)
    requires SagaInv(s)
    requires after.created == s.created && after.ordersGroup == s.ordersGroup && after.orderInbox == s.orderInbox
    requires after.cache == s.cache && after.admitted == s.admitted && after.clock == s.clock
    requires after.results.topic == s.results.topic
    requires CoreInv(DbOf(after), after.uuids, after.history)
    requires ChannelInv(after.results, after.clock)
    requires GroupInv(after.inventoryGroup, after.created.topic, after.inventoryInbox, InventoryWorker)
    requires CacheOk(after.cache, after.inventoryGroup, after.stocks)
    ensures SagaInv(after)
  {
  }

  lemma DuplicateKeeps(s: Saga, sid: nat, after: Saga)
    requires SagaInv(s) && Holds(s.inventoryGroup, s.created.topic, sid)
    requires (RecordAt(s.created.topic, s.inventoryGroup.sessions[sid]).message.id, InventoryWorker) in s.inventoryInbox
    requires after == s.(inventoryGroup := SetSession(s.inventoryGroup, sid, Done))
    ensures SagaInv(after)
  {
    assert GroupInv(after.inventoryGroup, s.created.topic, s.inventoryInbox, InventoryWorker) by {
      ProcessedKeeps(s.inventoryGroup, s.created.topic, s.inventoryInbox, InventoryWorker, sid, Done);
    }
    assert CacheOk(s.cache, after.inventoryGroup, s.stocks) by {
      StockDropKeepsCache(s.cache, s.inventoryGroup, s.stocks, sid, Done, s.stocks);
    }
    assert DbOf(after) == DbOf(s);
    InventorySideKeeps(s, after);
  }

  lemma HandleKeeps(s: Saga, sid: nat, resultId: Uuid, rowId: nat)
    requires SagaInv(s) && Enabled(s, HandleCreated(sid, resultId, rowId))
    ensures SagaInv(Apply(s, HandleCreated(sid, resultId, rowId)))
  {
    var m := RecordAt(s.created.topic, s.inventoryGroup.sessions[sid]).message;
    RecordIsFromRow(s.created, s.clock, s.inventoryGroup, sid);
    CreatedNamesOrder(s.orders, s.created.rows, s.history.createdRow, s.uuids, m);
    if (m.id, InventoryWorker) in s.inventoryInbox {
      var after := s.(inventoryGroup := SetSession(s.inventoryGroup, sid, Done));
      assert Apply(s, HandleCreated(sid, resultId, rowId)) == after;
      DuplicateKeeps(s, sid, after);
    } else {
      HandleNewKeeps(s, sid, resultId, rowId, m);
    }
  }

  /** What processing one new record does, field by field. */
  lemma ProcessedFields(s: Saga, sid: nat, resultId: Uuid, rowId: nat, m: Message<OrderCreatedEvent>)
    requires Enabled(s, HandleCreated(sid, resultId, rowId))
    requires m == RecordAt(s.created.topic, s.inventoryGroup.sessions[sid]).message && m.event.messageId == m.id
    requires HandleOrderCreated(DbOf(s), m.event, resultId, rowId).1 == Processed(m.event.sku)
    ensures var after := Apply(s, HandleCreated(sid, resultId, rowId));
            var db := HandleOrderCreated(DbOf(s), m.event, resultId, rowId).0;
            && DbOf(after) == db
            && after == s.(
                 stocks := db.stocks,
                 inventoryInbox := s.inventoryInbox + {(m.id, InventoryWorker)},
                 results := s.results.(rows := s.results.rows[
                   rowId := NewRow(ResultMessage(DbOf(s), m.event, resultId))]),
                 inventoryGroup := SetSession(s.inventoryGroup, sid, Stale(m.event.sku)),
                 uuids := s.uuids + {resultId},
                 history := s.history.(
                   resultRow := s.history.resultRow[m.event.orderId := rowId],
                   ledger := s.history.ledger + [m.event.orderId]))
  {
  }

  lemma ProcessedKeepsGroup(
    g: Group, topic: seq<seq<Record<OrderCreatedEvent>>>, inbox: set<(Uuid, Consumer)>, sid: nat, phase: SessionPhase)
    requires GroupInv(g, topic, inbox, InventoryWorker) && Holds(g, topic, sid)
    ensures GroupInv(SetSession(g, sid, phase), topic,
                     inbox + {(RecordAt(topic, g.sessions[sid]).message.id, InventoryWorker)}, InventoryWorker)
  {
    var inbox' := inbox + {(RecordAt(topic, g.sessions[sid]).message.id, InventoryWorker)};
    GrowthKeepsGroup(g, topic, inbox, InventoryWorker, topic, inbox');
    ProcessedKeeps(g, topic, inbox', InventoryWorker, sid, phase);
  }

  /** Handling an event of positive quantity adds no stock row and raises no stock. */
  lemma HandleLowersStock(db: Db, event: OrderCreatedEvent, resultId: Uuid, rowId: nat)
    requires event.quantity > 0
    ensures var after := HandleOrderCreated(db, event, resultId, rowId).0;
            && after.stocks.Keys == db.stocks.Keys
            && forall sku | sku in db.stocks :: after.stocks[sku] <= db.stocks[sku]
  {
  }

  lemma HandleNewKeeps(s: Saga, sid: nat, resultId: Uuid, rowId: nat, m: Message<OrderCreatedEvent>)
    requires SagaInv(s) && Enabled(s, HandleCreated(sid, resultId, rowId))
    requires m == RecordAt(s.created.topic, s.inventoryGroup.sessions[sid]).message
    requires FromRows(s.created.rows, m) && m.event.messageId == m.id && m.event.quantity > 0
    requires (m.id, InventoryWorker) !in s.inventoryInbox
    ensures SagaInv(Apply(s, HandleCreated(sid, resultId, rowId)))
  {
    HandleKeepsCore(DbOf(s), s.uuids, s.history, m, resultId, rowId);
    ProcessedFields(s, sid, resultId, rowId, m);
    HandleLowersStock(DbOf(s), m.event, resultId, rowId);
    var after := Apply(s, HandleCreated(sid, resultId, rowId));
    NewRecordKeeps(s, sid, m, after, rowId, ResultMessage(DbOf(s), m.event, resultId));
  }

  lemma NewRecordKeeps(
    s: Saga, sid: nat, m: Message<OrderCreatedEvent>, after: Saga, rowId: nat, result: Message<InventoryResultEvent>)
    requires SagaInv(s) && Holds(s.inventoryGroup, s.created.topic, sid)
    requires m == RecordAt(s.created.topic, s.inventoryGroup.sessions[sid]).message && rowId !in s.results.rows
    requires after == s.(
                 stocks := after.stocks,
                 inventoryInbox := s.inventoryInbox + {(m.id, InventoryWorker)},
                 results := s.results.(rows := s.results.rows[rowId := NewRow(result)]),
                 inventoryGroup := SetSession(s.inventoryGroup, sid, Stale(m.event.sku)),
                 uuids := after.uuids, history := after.history)
    requires after.stocks.Keys == s.stocks.Keys && forall sku | sku in s.stocks :: after.stocks[sku] <= s.stocks[sku]
    requires CoreInv(DbOf(after), after.uuids, after.history)
    ensures SagaInv(after)
  {
    assert GroupInv(after.inventoryGroup, s.created.topic, after.inventoryInbox, InventoryWorker) by {
      ProcessedKeepsGroup(s.inventoryGroup, s.created.topic, s.inventoryInbox, sid, Stale(m.event.sku));
    }
    assert ChannelInv(after.results, s.clock) by {
      InsertKeepsChannel(s.results, s.clock, rowId, result);
    }
    assert CacheOk(s.cache, after.inventoryGroup, after.stocks) by {
      StockDropKeepsCache(s.cache, s.inventoryGroup, s.stocks, sid, Stale(m.event.sku), after.stocks);
    }
    InventorySideKeeps(s, after);
  }

  lemma AppliedFields(s: Saga, sid: nat, m: Message<InventoryResultEvent>)
    requires Enabled(s, ApplyInventory(sid))
    requires m == RecordAt(s.results.topic, s.ordersGroup.sessions[sid]).message && m.event.messageId == m.id
    requires ApplyResult(DbOf(s), m.event).1.Ok?
    ensures var (after, db) := (Apply(s, ApplyInventory(sid)), ApplyResult(DbOf(s), m.event).0);
            && DbOf(after) == db
            && after == s.(
                 orders := db.orders,
                 orderInbox := s.orderInbox + {(m.id, OrdersWorker)},
                 ordersGroup := SetSession(s.ordersGroup, sid, Done))
  {
  }

  lemma ApplyKeeps(s: Saga, sid: nat)
    requires SagaInv(s) && Enabled(s, ApplyInventory(sid))
    ensures SagaInv(Apply(s, ApplyInventory(sid)))
  {
    var m := RecordAt(s.results.topic, s.ordersGroup.sessions[sid]).message;
    RecordIsFromRow(s.results, s.clock, s.ordersGroup, sid);
    ResultNamesOrder(s.orders, s.results.rows, s.history.resultRow, s.uuids, m);
    ApplyKeepsCore(DbOf(s), s.uuids, s.history, m);
    AppliedFields(s, sid, m);
    var inbox := s.orderInbox + {(m.id, OrdersWorker)};
    GrowthKeepsGroup(s.ordersGroup, s.results.topic, s.orderInbox, OrdersWorker, s.results.topic, inbox);
    ProcessedKeeps(s.ordersGroup, s.results.topic, inbox, OrdersWorker, sid, Done);
    var after := Apply(s, ApplyInventory(sid));
    assert CoreInv(DbOf(after), after.uuids, after.history);
  }

  // ----- Every step, every run -----

  lemma TransactionKeeps(s: Saga, step: Step)
    requires SagaInv(s) && Enabled(s, step) && (step.Insert? || step.HandleCreated? || step.ApplyInventory?)
    ensures SagaInv(Apply(s, step))
  {
    match step
    case Insert(request, orderId, messageId, rowId) => InsertKeeps(s, request, orderId, messageId, rowId);
    case HandleCreated(sid, resultId, rowId) => HandleKeeps(s, sid, resultId, rowId);
    case ApplyInventory(sid) => ApplyKeeps(s, sid);
  }

  lemma TransportKeeps(s: Saga, step: Step)
    requires SagaInv(s) && Enabled(s, step)
    requires step.PublishOrders? || step.PublishResults? || step.InventoryGroup? || step.OrdersGroup?
    ensures SagaInv(Apply(s, step))
  {
    match step
    case PublishOrders(pub) => PublishOrdersKeeps(s, pub);
    case PublishResults(pub) => PublishResultsKeeps(s, pub);
    case InventoryGroup(g) => InventoryGroupKeeps(s, g);
    case OrdersGroup(g) => OrdersGroupKeeps(s, g);
  }

  lemma PrecheckKeeps(s: Saga, request: CreateOrderRequest, outcome: PrecheckOutcome)
    requires SagaInv(s) && Enabled(s, Precheck(request, outcome))
    ensures SagaInv(Apply(s, Precheck(request, outcome)))
  {
    assert DbOf(Apply(s, Precheck(request, outcome))) == DbOf(s);
  }

  lemma StepKeepsInv(s: Saga, step: Step)
    requires SagaInv(s) && Enabled(s, step)
    ensures SagaInv(Apply(s, step))
  {
    if step.Insert? || step.HandleCreated? || step.ApplyInventory? {
      TransactionKeeps(s, step);
    } else if RefreshStep(step) {
      RefreshKeeps(s, step);
    } else if step.Precheck? {
      PrecheckKeeps(s, step.request, step.outcome);
    } else if step.Evict? {
      EvictKeeps(s, step.sku);
    } else if step.Tick? {
      TickKeeps(s, step.elapsed);
    } else {
      TransportKeeps(s, step);
    }
  }

  lemma {:induction false} RunKeepsInv(s: Saga, steps: seq<Step>)
    requires SagaInv(s) && Valid(s, steps)
    ensures SagaInv(Exec(s, steps))
    decreases |steps|
  {
    if steps != [] {
      StepKeepsInv(s, steps[0]);
      RunKeepsInv(Apply(s, steps[0]), steps[1..]);
    }
  }
}
