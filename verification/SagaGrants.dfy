/** Which orders are inserted and granted, over whole runs and in the request's own terms: the pipeline marks
    no order to fail, inserts only what a precheck let through, and grants an order exactly when the stock
    that is left suffices (src/orders/mod.rs:91-108, src/orders/store.rs:33-101, 217-250). */
module SagaGrants {
  import opened Prelude
  import opened Orders
  import opened Outbox
  import opened Consumers
  import opened Store
  import opened Allocator
  import opened SagaState
  import opened SagaInvariant
  import opened SagaSteps
  import opened SagaTheorems
  import Text

  // ----- Orders are not marked -----

  /** No order that a run adds is marked to fail. */
  ghost predicate AddedOrdersUnmarked(before: map<Uuid, OrderRecord>, after: map<Uuid, OrderRecord>)
  {
    forall o | o in after && o !in before :: !after[o].simulateFailure
  }

  lemma ApplyAddsNoOrder(s: Saga, sid: nat)
    requires Holds(s.ordersGroup, s.results.topic, sid)
    ensures ApplyStep(s, sid).orders.Keys == s.orders.Keys
  {
  }

  lemma StepAddsUnmarked(s: Saga, step: Step)
    requires Enabled(s, step)
    ensures AddedOrdersUnmarked(s.orders, Apply(s, step).orders)
  {
    if step.HandleCreated? {
      HandleKeepsOrders(s, step.session, step.resultId, step.rowId);
    } else if step.ApplyInventory? {
      ApplyAddsNoOrder(s, step.session);
    }
  }

  lemma AddedThenKept(
    first: map<Uuid, OrderRecord>, mid: map<Uuid, OrderRecord>, last: map<Uuid, OrderRecord>)
    requires AddedOrdersUnmarked(first, mid) && AddedOrdersUnmarked(mid, last) && OrdersGrow(mid, last)
    ensures AddedOrdersUnmarked(first, last)
  {
    forall o | o in last && o !in first ensures !last[o].simulateFailure {
      if o in mid {
        assert DemandOf(last[o]) == DemandOf(mid[o]);
      }
    }
  }

  lemma {:induction false} RunAddsUnmarked(s: Saga, steps: seq<Step>)
    requires SagaInv(s) && Valid(s, steps)
    ensures AddedOrdersUnmarked(s.orders, Exec(s, steps).orders)
    decreases |steps|
  {
    if steps != [] {
      var next := Apply(s, steps[0]);
      StepAddsUnmarked(s, steps[0]);
      StepKeepsInv(s, steps[0]);
      RunAddsUnmarked(next, steps[1..]);
      RunExtends(next, steps[1..]);
      AddedThenKept(s.orders, next.orders, Exec(s, steps).orders);
    }
  }

  /** Over every run: an order the pipeline inserted is not marked to fail, and no result row of it says so. */
  lemma InsertedOrdersAreNotSimulated(s0: Saga, steps: seq<Step>, o: Uuid)
    requires Init(s0) && Valid(s0, steps) && o in Exec(s0, steps).orders && o !in s0.orders
    ensures var s := Exec(s0, steps);
            && !s.orders[o].simulateFailure && s.orders[o].failureReason != Some(SimulatedInventoryFailure)
            && forall id | id in s.results.rows && s.results.rows[id].message.event.orderId == o ::
                 s.results.rows[id].message.event.reason != Some(SimulatedInventoryFailure)
  {
    InitHolds(s0);
    RunKeepsInv(s0, steps);
    RunAddsUnmarked(s0, steps);
    UnmarkedIsNotSimulated(Exec(s0, steps), o);
  }

  lemma UnmarkedIsNotSimulated(s: Saga, o: Uuid)
    requires ResultsOk(s.orders, Content(s.results.rows), s.history.resultRow, s.uuids)
    requires StatusOk(s.orders, Content(s.results.rows), s.history.resultRow, s.orderInbox, s.uuids)
    requires o in s.orders && !s.orders[o].simulateFailure
    ensures s.orders[o].failureReason != Some(SimulatedInventoryFailure)
    ensures forall id | id in s.results.rows && s.results.rows[id].message.event.orderId == o ::
              s.results.rows[id].message.event.reason != Some(SimulatedInventoryFailure)
  {
    var results, row := Content(s.results.rows), s.history.resultRow;
    forall id | id in s.results.rows && s.results.rows[id].message.event.orderId == o
      ensures s.results.rows[id].message.event.reason != Some(SimulatedInventoryFailure)
    {
      assert results[id] == s.results.rows[id].message;
      assert o in row && row[o] == id && ResultFor(s.orders[o], o, results[id]);
    }
    assert Applied(s.orders[o].status, s.orders[o].failureReason) == Outcome(results, row, s.orderInbox, o);
    if o in row {
      assert ResultFor(s.orders[o], o, results[row[o]]);
    }
  }

  // ----- Which orders are inserted -----

  /** The step lets such a request through: it is valid, and the cache showed no quantity below its own. */
  predicate LetsThrough(step: Step, sku: string, quantity: i32)
  {
    && step.Precheck? && step.request == CreateOrderRequest(sku, quantity)
    && quantity > 0 && !Text.Blank(sku) && (step.outcome.Known? ==> quantity <= step.outcome.available)
  }

  /** An order was let through by a step of the run, or before it. */
  ghost predicate WasAdmitted(admitted: multiset<CreateOrderRequest>, steps: seq<Step>, order: OrderRecord)
  {
    || CreateOrderRequest(order.sku, order.quantity) in admitted
    || exists j :: 0 <= j < |steps| && LetsThrough(steps[j], order.sku, order.quantity)
  }

  lemma StepAdmits(s: Saga, step: Step, request: CreateOrderRequest)
    requires Enabled(s, step) && request in Apply(s, step).admitted
    ensures request in s.admitted || LetsThrough(step, request.sku, request.quantity)
  {
  }

  lemma StepInsertsAdmitted(s: Saga, step: Step, o: Uuid)
    requires Enabled(s, step) && o in Apply(s, step).orders && o !in s.orders
    ensures var order := Apply(s, step).orders[o]; CreateOrderRequest(order.sku, order.quantity) in s.admitted
  {
    if step.HandleCreated? {
      HandleKeepsOrders(s, step.session, step.resultId, step.rowId);
    } else if step.ApplyInventory? {
      ApplyAddsNoOrder(s, step.session);
    }
  }

  lemma AdmittedEarlier(s: Saga, steps: seq<Step>, order: OrderRecord)
    requires steps != [] && Enabled(s, steps[0]) && WasAdmitted(Apply(s, steps[0]).admitted, steps[1..], order)
    ensures WasAdmitted(s.admitted, steps, order)
  {
    var request := CreateOrderRequest(order.sku, order.quantity);
    if request in Apply(s, steps[0]).admitted {
      StepAdmits(s, steps[0], request);
    } else {
      var j :| 0 <= j < |steps| - 1 && LetsThrough(steps[1..][j], order.sku, order.quantity);
      assert LetsThrough(steps[j + 1], order.sku, order.quantity);
    }
  }

  lemma {:induction false} RunInsertsAdmitted(s: Saga, steps: seq<Step>, o: Uuid)
    requires SagaInv(s) && Valid(s, steps) && o in Exec(s, steps).orders && o !in s.orders
    ensures WasAdmitted(s.admitted, steps, Exec(s, steps).orders[o])
    decreases |steps|
  {
    var next := Apply(s, steps[0]);
    StepKeepsInv(s, steps[0]);
    if o in next.orders {
      StepInsertsAdmitted(s, steps[0], o);
      RunExtends(next, steps[1..]);
      assert DemandOf(next.orders[o]) == DemandOf(Exec(s, steps).orders[o]);
    } else {
      RunInsertsAdmitted(next, steps[1..], o);
      AdmittedEarlier(s, steps, Exec(s, steps).orders[o]);
    }
  }

  /** Over every run: whatever order the pipeline inserted was a valid request that a precheck of the run let
      through, because the cache had no quantity for it, could not be read, or held enough. */
  lemma InsertedOrdersPassed(s0: Saga, steps: seq<Step>, o: Uuid) returns (j: nat)
    requires Init(s0) && Valid(s0, steps) && o in Exec(s0, steps).orders && o !in s0.orders
    ensures var order := Exec(s0, steps).orders[o];
            && order.quantity > 0 && !Text.Blank(order.sku)
            && j < |steps| && steps[j].Precheck?
            && steps[j].request == CreateOrderRequest(order.sku, order.quantity)
            && (steps[j].outcome.Known? ==> order.quantity <= steps[j].outcome.available)
  {
    InitHolds(s0);
    RunInsertsAdmitted(s0, steps, o);
    var order := Exec(s0, steps).orders[o];
    j :| 0 <= j < |steps| && LetsThrough(steps[j], order.sku, order.quantity);
  }

  // ----- Which orders are granted -----

  /** Over every run from a start without orders, `granted` tells for each decided order, in first-commit
      order, what its result row and its status tell; and it is granted exactly when its quantity is at most
      the opening stock of its sku less the quantities granted before it. */
  ghost predicate GrantedByQuantity(s: Saga, opening: map<string, i32>, granted: seq<bool>)
  {
    var ledger := s.history.ledger;
    && |granted| == |ledger|
    && (forall o | o in ledger :: o in s.orders)
    && forall i | 0 <= i < |ledger| ::
      && Decided(s, ledger[i], granted[i])
      && var order := s.orders[ledger[i]];
         granted[i] <==>
         order.sku in opening
         && order.quantity <= opening[order.sku] - Spent(Demands(s.orders, ledger)[..i], granted[..i], order.sku)
  }

  lemma DecidedByQuantity(s0: Saga, steps: seq<Step>) returns (granted: seq<bool>)
    requires Init(s0) && Valid(s0, steps) && s0.orders == map[]
    ensures GrantedByQuantity(Exec(s0, steps), s0.stocks, granted)
  {
    InitHolds(s0);
    RunKeepsInv(s0, steps);
    RunExtends(s0, steps);
    RunAddsUnmarked(s0, steps);
    RefinesSequentialAllocator(s0, steps);
    var s := Exec(s0, steps);
    granted := Allocate(s0.stocks, Demands(s.orders, s.history.ledger)).granted;
    forall i | 0 <= i < |s.history.ledger|
      ensures Decided(s, s.history.ledger[i], granted[i])
      ensures var order := s.orders[s.history.ledger[i]];
              granted[i] <==>
              order.sku in s0.stocks
              && order.quantity <= s0.stocks[order.sku]
                                   - Spent(Demands(s.orders, s.history.ledger)[..i], granted[..i], order.sku)
    {
      GrantedAt(s, s0.stocks, i);
    }
  }

  lemma GrantedAt(s: Saga, opening: map<string, i32>, i: nat)
    requires MatchesClerk(s, opening) && AddedOrdersUnmarked(map[], s.orders) && i < |s.history.ledger|
    ensures var demands, order := Demands(s.orders, s.history.ledger), s.orders[s.history.ledger[i]];
            var granted := Allocate(opening, demands).granted;
            && Decided(s, s.history.ledger[i], granted[i])
            && (granted[i] <==>
                order.sku in opening
                && order.quantity <= opening[order.sku] - Spent(demands[..i], granted[..i], order.sku))
  {
    var demands := Demands(s.orders, s.history.ledger);
    GrantedIffLeft(opening, demands, i);
    GrantedByPrefix(opening, demands, i);
    DemandAt(s.orders, s.history.ledger, i);
    assert s.history.ledger[i] in s.history.ledger;
  }

  lemma {:induction false} DemandAt(orders: map<Uuid, OrderRecord>, ledger: seq<Uuid>, i: nat)
    requires i < |ledger| && forall o | o in ledger :: o in orders
    ensures var d, order := Demands(orders, ledger)[i], orders[ledger[i]];
            d.sku == order.sku && d.quantity == order.quantity && d.simulateFailure == order.simulateFailure
    decreases |ledger|
  {
    if i < |ledger| - 1 {
      DemandAt(orders, ledger[..|ledger| - 1], i);
    }
  }
}
