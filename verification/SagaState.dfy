/** The whole order pipeline as one state: the database, both outbox channels, both consumer groups,
    the Redis cache and the requests between their precheck and their insert. */
module SagaState {
  import opened Prelude
  import opened Orders
  import opened Outbox
  import opened Consumers
  import opened Store

  /** Bookkeeping that no step reads: the opening stock, which outbox row belongs to which order,
      and the orders in the order in which their inventory transactions first committed. */
  datatype History = History(
    opening: map<string, i32>, createdRow: map<Uuid, nat>, resultRow: map<Uuid, nat>, ledger: seq<Uuid>)

  datatype Saga = Saga(
    orders: map<Uuid, OrderRecord>,
    stocks: map<string, i32>,
    created: Channel<OrderCreatedEvent>,
    results: Channel<InventoryResultEvent>,
    inventoryInbox: Inbox,
    orderInbox: Inbox,
    inventoryGroup: Group,
    ordersGroup: Group,
    cache: map<string, i32>,
    admitted: multiset<CreateOrderRequest>,
    uuids: set<Uuid>,
    clock: Time,
    history: History)

  function DbOf(s: Saga): Db
  {
    Db(s.orders, s.stocks, s.created.rows, s.results.rows, s.inventoryInbox, s.orderInbox)
  }

  function WithDb(s: Saga, db: Db): Saga
  {
    s.(orders := db.orders, stocks := db.stocks,
       created := s.created.(rows := db.orderOutbox), results := s.results.(rows := db.inventoryOutbox),
       inventoryInbox := db.inventoryInbox, orderInbox := db.orderInbox)
  }

  datatype Step =
    | Precheck(request: CreateOrderRequest, outcome: PrecheckOutcome)
    | Insert(request: CreateOrderRequest, orderId: Uuid, messageId: Uuid, rowId: nat)
    | PublishOrders(pub: PubStep)
    | PublishResults(pub: PubStep)
    | InventoryGroup(step: GroupStep)
    | HandleCreated(session: nat, resultId: Uuid, rowId: nat)
    | LoadForCache(session: nat)
    | StoreInCache(session: nat)
    | GiveUpCache(session: nat)
    | OrdersGroup(step: GroupStep)
    | ApplyInventory(session: nat)
    | Evict(sku: string)
    | Tick(elapsed: nat)

  /** What one GET of the cached stock can come back with. */
  predicate ReadsCache(cache: map<string, i32>, sku: string, outcome: PrecheckOutcome)
  {
    match outcome
    case Known(available) => sku in cache && cache[sku] == available
    case Missing => sku !in cache
    case Unavailable => true
  }

  predicate Holds<E>(g: Group, topic: seq<seq<Record<E>>>, sid: nat)
  {
    && sid in g.sessions && g.sessions[sid].phase == Waiting
    && HasRecord(topic, g.sessions[sid]) && RecordAt(topic, g.sessions[sid]).Good?
  }

  ghost predicate Enabled(s: Saga, step: Step)
  {
    match step
    case Precheck(request, outcome) =>
      && request.Validate().Ok? && ReadsCache(s.cache, request.sku, outcome)
      && DecideOrderCreation(outcome, request.quantity) == Allow
    case Insert(request, orderId, messageId, rowId) =>
      && request in s.admitted && rowId !in s.created.rows
      && orderId !in s.uuids && messageId !in s.uuids && orderId != messageId
    case PublishOrders(pub) => PubEnabled(s.created, s.clock, pub)
    case PublishResults(pub) => PubEnabled(s.results, s.clock, pub)
    case InventoryGroup(g) => GroupEnabled(s.inventoryGroup, s.created.topic, g)
    case HandleCreated(sid, resultId, rowId) =>
      Holds(s.inventoryGroup, s.created.topic, sid) && resultId !in s.uuids && rowId !in s.results.rows
    case LoadForCache(sid) => sid in s.inventoryGroup.sessions && s.inventoryGroup.sessions[sid].phase.Stale?
    case StoreInCache(sid) => sid in s.inventoryGroup.sessions && s.inventoryGroup.sessions[sid].phase.Loaded?
    case GiveUpCache(sid) =>
      && sid in s.inventoryGroup.sessions
      && (s.inventoryGroup.sessions[sid].phase.Stale? || s.inventoryGroup.sessions[sid].phase.Loaded?)
    case OrdersGroup(g) => GroupEnabled(s.ordersGroup, s.results.topic, g)
    case ApplyInventory(sid) => Holds(s.ordersGroup, s.results.topic, sid)
    case Evict(_) => true
    case Tick(_) => true
  }

  /** One inventory transaction. A failed one rolls back and ends the worker process. */
  function HandleStep(s: Saga, sid: nat, resultId: Uuid, rowId: nat): Saga
    requires Holds(s.inventoryGroup, s.created.topic, sid)
  {
    var event := RecordAt(s.created.topic, s.inventoryGroup.sessions[sid]).message.event;
    var (db, handled) := HandleOrderCreated(DbOf(s), event, resultId, rowId);
    match handled
    case Failed => s.(inventoryGroup := s.inventoryGroup.(sessions := s.inventoryGroup.sessions - {sid}))
    case Duplicate => s.(inventoryGroup := SetSession(s.inventoryGroup, sid, Done))
    case Processed(sku) =>
      WithDb(s, db).(
        inventoryGroup := SetSession(s.inventoryGroup, sid, Stale(sku)),
        uuids := s.uuids + {resultId},
        history := s.history.(
          resultRow := s.history.resultRow[event.orderId := rowId],
          ledger := s.history.ledger + [event.orderId]))
  }

  function ApplyStep(s: Saga, sid: nat): Saga
    requires Holds(s.ordersGroup, s.results.topic, sid)
  {
    var event := RecordAt(s.results.topic, s.ordersGroup.sessions[sid]).message.event;
    var (db, applied) := ApplyResult(DbOf(s), event);
    if applied.Err? then s.(ordersGroup := s.ordersGroup.(sessions := s.ordersGroup.sessions - {sid}))
    else WithDb(s, db).(ordersGroup := SetSession(s.ordersGroup, sid, Done))
  }

  /** The refresh writes what it loaded, or deletes the key when the stock row was missing. */
  function StoreStep(s: Saga, sid: nat): Saga
    requires sid in s.inventoryGroup.sessions && s.inventoryGroup.sessions[sid].phase.Loaded?
  {
    var phase := s.inventoryGroup.sessions[sid].phase;
    s.(cache := if phase.quantity.Some? then s.cache[phase.sku := phase.quantity.value] else s.cache - {phase.sku},
       inventoryGroup := SetSession(s.inventoryGroup, sid, Done))
  }

  function Apply(s: Saga, step: Step): Saga
    requires Enabled(s, step)
  {
    match step
    case Precheck(request, _) => s.(admitted := s.admitted + multiset{request})
    case Insert(request, orderId, messageId, rowId) =>
      WithDb(s, InsertOrder(DbOf(s), request, orderId, messageId, rowId)).(
        admitted := s.admitted - multiset{request},
        uuids := s.uuids + {orderId, messageId},
        history := s.history.(createdRow := s.history.createdRow[orderId := rowId]))
    case PublishOrders(pub) => s.(created := PubApply(s.created, s.clock, pub))
    case PublishResults(pub) => s.(results := PubApply(s.results, s.clock, pub))
    case InventoryGroup(g) => s.(inventoryGroup := GroupApply(s.inventoryGroup, s.created.topic, g))
    case HandleCreated(sid, resultId, rowId) => HandleStep(s, sid, resultId, rowId)
    case LoadForCache(sid) =>
      var sku := s.inventoryGroup.sessions[sid].phase.sku;
      s.(inventoryGroup := SetSession(s.inventoryGroup, sid, Loaded(sku, LoadStock(DbOf(s), sku))))
    case StoreInCache(sid) => StoreStep(s, sid)
    case GiveUpCache(sid) => s.(inventoryGroup := SetSession(s.inventoryGroup, sid, Done))
    case OrdersGroup(g) => s.(ordersGroup := GroupApply(s.ordersGroup, s.results.topic, g))
    case ApplyInventory(sid) => ApplyStep(s, sid)
    case Evict(sku) => s.(cache := s.cache - {sku})
    case Tick(elapsed) => s.(clock := s.clock + elapsed)
  }

  ghost predicate Valid(s: Saga, steps: seq<Step>)
    decreases |steps|
  {
    steps == [] || (Enabled(s, steps[0]) && Valid(Apply(s, steps[0]), steps[1..]))
  }

  ghost function Exec(s: Saga, steps: seq<Step>): Saga
    requires Valid(s, steps)
    decreases |steps|
  {
    if steps == [] then s else Exec(Apply(s, steps[0]), steps[1..])
  }

  lemma Cons(s: Saga, step: Step, rest: seq<Step>)
    requires Enabled(s, step) && Valid(Apply(s, step), rest)
    ensures Valid(s, [step] + rest) && Exec(s, [step] + rest) == Exec(Apply(s, step), rest)
  {
    assert ([step] + rest)[1..] == rest;
  }

  lemma {:induction false} ExecAppend(s: Saga, first: seq<Step>, second: seq<Step>)
    requires Valid(s, first) && Valid(Exec(s, first), second)
    ensures Valid(s, first + second) && Exec(s, first + second) == Exec(Exec(s, first), second)
    decreases |first|
  {
    if first == [] {
      assert first + second == second;
    } else {
      var rest := first[1..] + second;
      ExecAppend(Apply(s, first[0]), first[1..], second);
      ConsOf(s, first[0], rest, first + second);
    }
  }

  lemma ConsOf(s: Saga, step: Step, rest: seq<Step>, steps: seq<Step>)
    requires Enabled(s, step) && Valid(Apply(s, step), rest)
    requires |steps| == 1 + |rest| && steps[0] == step && forall i :: 0 <= i < |rest| ==> steps[i + 1] == rest[i]
    ensures Valid(s, steps) && Exec(s, steps) == Exec(Apply(s, step), rest)
  {
    assert steps == [step] + rest;
    Cons(s, step, rest);
  }
}
