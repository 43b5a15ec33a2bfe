/** Stock over whole runs: conservation, and soundness of rejecting a request from the cache. */
module SagaStock {
  import opened Prelude
  import opened Sums
  import opened Orders
  import opened Outbox
  import opened Consumers
  import opened Store
  import opened SagaState
  import opened SagaInvariant
  import opened SagaCore
  import opened SagaSteps
  import opened SagaTheorems

  /** What a confirmed order takes from `sku`. */
  function ConfirmedOf(orders: map<Uuid, OrderRecord>, sku: string): map<Uuid, int>
  {
    map o | o in orders :: if orders[o].status == Confirmed && orders[o].sku == sku then orders[o].quantity else 0
  }

  /** What an order with a success row takes from `sku`, applied or not. */
  function GrantedOf(orders: map<Uuid, OrderRecord>, results: Results, row: map<Uuid, nat>, sku: string): map<Uuid, int>
  {
    map o | o in orders :: if o in row && row[o] in results then Taken(results, sku)[row[o]] else 0
  }

  lemma GrantedIsTaken(orders: map<Uuid, OrderRecord>, results: Results, row: map<Uuid, nat>, uuids: set<Uuid>,
      sku: string)
    requires ResultsOk(orders, results, row, uuids)
    ensures Sum(GrantedOf(orders, results, row, sku)) == Sum(Taken(results, sku))
  {
    forall id | id in results ensures id in row.Values {
      assert row[results[id].event.orderId] == id;
    }
    forall o, p | o in row && p in row && o != p ensures row[o] != row[p] {
      assert results[row[o]].event.orderId == o && results[row[p]].event.orderId == p;
    }
    SumReindex(GrantedOf(orders, results, row, sku), Taken(results, sku), row);
  }

  /** Only an order with a success row can be confirmed. */
  lemma ConfirmedWasGranted(
    orders: map<Uuid, OrderRecord>, results: Results, row: map<Uuid, nat>, inbox: Inbox, uuids: set<Uuid>, sku: string)
    requires ResultsOk(orders, results, row, uuids) && StatusOk(orders, results, row, inbox, uuids)
    requires forall o | o in orders :: orders[o].quantity > 0
    ensures forall o | o in orders :: ConfirmedOf(orders, sku)[o] <= GrantedOf(orders, results, row, sku)[o]
    ensures (forall o | o in orders :: IsApplied(results, row, inbox, o)) ==>
              ConfirmedOf(orders, sku) == GrantedOf(orders, results, row, sku)
  {
    forall o | o in orders
      ensures ConfirmedOf(orders, sku)[o] <= GrantedOf(orders, results, row, sku)[o]
      ensures IsApplied(results, row, inbox, o) ==>
                ConfirmedOf(orders, sku)[o] == GrantedOf(orders, results, row, sku)[o]
    {
      assert Applied(orders[o].status, orders[o].failureReason) == Outcome(results, row, inbox, o);
      assert o in row ==> ResultFor(orders[o], o, results[row[o]]);
    }
  }

  lemma OrdersArePositive(s: Saga)
    requires CoreInv(DbOf(s), s.uuids, s.history)
    ensures forall o | o in s.orders :: s.orders[o].quantity > 0
  {
    forall o | o in s.orders ensures s.orders[o].quantity > 0 {
      assert CreatedFor(s.orders[o], o, Content(s.created.rows)[s.history.createdRow[o]]);
    }
  }

  lemma ConfirmedAtMostTaken(s: Saga, sku: string)
    requires CoreInv(DbOf(s), s.uuids, s.history)
    ensures Sum(ConfirmedOf(s.orders, sku)) <= Sum(Taken(Content(s.results.rows), sku))
    ensures (forall o | o in s.orders :: IsApplied(Content(s.results.rows), s.history.resultRow, s.orderInbox, o)) ==>
              Sum(ConfirmedOf(s.orders, sku)) == Sum(Taken(Content(s.results.rows), sku))
  {
    var results, row := Content(s.results.rows), s.history.resultRow;
    OrdersArePositive(s);
    GrantedIsTaken(s.orders, results, row, s.uuids, sku);
    ConfirmedWasGranted(s.orders, results, row, s.orderInbox, s.uuids, sku);
    SumMonotone(ConfirmedOf(s.orders, sku), GrantedOf(s.orders, results, row, sku));
  }

  /** Conservation. After any run the opening stock of a sku is what is available plus the quantities
      of all success rows; confirmed orders never take more than that; available stock never goes
      above the opening stock, nor below zero unless it opened below zero and was never touched. */
  lemma StockIsConserved(s0: Saga, steps: seq<Step>, sku: string)
    requires Init(s0) && Valid(s0, steps) && sku in s0.stocks
    ensures var s := Exec(s0, steps); var taken := Sum(Taken(Content(s.results.rows), sku));
            && s.stocks.Keys == s0.stocks.Keys
            && s0.stocks[sku] == s.stocks[sku] + taken
            && (0 <= s.stocks[sku] <= s0.stocks[sku] || s.stocks[sku] == s0.stocks[sku])
            && Sum(ConfirmedOf(s.orders, sku)) <= taken
            && (s0.stocks[sku] >= 0 ==> Sum(ConfirmedOf(s.orders, sku)) <= s0.stocks[sku])
  {
    InitHolds(s0);
    RunKeepsInv(s0, steps);
    RunExtends(s0, steps);
    ConfirmedAtMostTaken(Exec(s0, steps), sku);
  }

  // ----- Stock only falls -----

  lemma StepLowersStock(s: Saga, step: Step)
    requires SagaInv(s) && Enabled(s, step)
    ensures var t := Apply(s, step);
            t.stocks.Keys == s.stocks.Keys && forall sku | sku in s.stocks :: t.stocks[sku] <= s.stocks[sku]
  {
    match step {
      case HandleCreated(sid, resultId, rowId) =>
        var m := RecordAt(s.created.topic, s.inventoryGroup.sessions[sid]).message;
        RecordIsFromRow(s.created, s.clock, s.inventoryGroup, sid);
        CreatedNamesOrder(s.orders, s.created.rows, s.history.createdRow, s.uuids, m);
        HandleStepLowersStock(s, sid, resultId, rowId);
      case _ =>
        assert Apply(s, step).stocks == s.stocks by { OthersKeepStock(s, step); }
    }
  }

  lemma HandleStepLowersStock(s: Saga, sid: nat, resultId: Uuid, rowId: nat)
    requires Holds(s.inventoryGroup, s.created.topic, sid)
    requires RecordAt(s.created.topic, s.inventoryGroup.sessions[sid]).message.event.quantity > 0
    ensures var t := HandleStep(s, sid, resultId, rowId);
            t.stocks.Keys == s.stocks.Keys && forall sku | sku in s.stocks :: t.stocks[sku] <= s.stocks[sku]
  {
    HandleLowersStock(
      DbOf(s), RecordAt(s.created.topic, s.inventoryGroup.sessions[sid]).message.event, resultId, rowId);
  }

  lemma OthersKeepStock(s: Saga, step: Step)
    requires Enabled(s, step) && !step.HandleCreated?
    ensures Apply(s, step).stocks == s.stocks
  {
    if step.ApplyInventory? {
      ApplyKeepsStock(s, step.session);
    }
  }

  lemma ApplyKeepsStock(s: Saga, sid: nat)
    requires Holds(s.ordersGroup, s.results.topic, sid)
    ensures ApplyStep(s, sid).stocks == s.stocks
  {
  }

  lemma {:induction false} StockNeverRises(s: Saga, steps: seq<Step>)
    requires SagaInv(s) && Valid(s, steps)
    ensures var t := Exec(s, steps);
            t.stocks.Keys == s.stocks.Keys && forall sku | sku in s.stocks :: t.stocks[sku] <= s.stocks[sku]
    decreases |steps|
  {
    if steps != [] {
      StepLowersStock(s, steps[0]);
      StepKeepsInv(s, steps[0]);
      StockNeverRises(Apply(s, steps[0]), steps[1..]);
    }
  }

  // ----- Rejecting from the cache -----

  /** A request rejected from whatever the cache held at any moment of a run would also have been
      refused by the inventory worker then, and at every later moment of every continuation. */
  lemma PrecheckRejectionIsSound(
    s0: Saga, steps: seq<Step>, request: CreateOrderRequest, later: seq<Step>, event: OrderCreatedEvent)
    requires Init(s0) && Valid(s0, steps) && Valid(Exec(s0, steps), later)
    requires request.sku in Exec(s0, steps).cache
    requires Exec(s0, steps).cache[request.sku] < request.quantity
    requires event.sku == request.sku && event.quantity == request.quantity
    ensures !Decrements(DbOf(Exec(Exec(s0, steps), later)), event)
  {
    InitHolds(s0);
    RunKeepsInv(s0, steps);
    var s := Exec(s0, steps);
    StockNeverRises(s, later);
    assert NotBelow(s.cache[request.sku], s.stocks, request.sku);
  }
}
