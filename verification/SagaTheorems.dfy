/** What the pipeline guarantees over whole runs, for every interleaving of requests, leases, sends,
    lost acknowledgements, duplicates, crashes, redeliveries and rebalances. */
module SagaTheorems {
  import opened Prelude
  import opened Sums
  import opened Orders
  import opened Outbox
  import opened Consumers
  import opened Store
  import opened Allocator
  import opened SagaState
  import opened SagaInvariant
  import opened SagaCore
  import opened SagaSteps

  // ----- What no step changes -----

  ghost predicate RowsGrow<E>(before: Table<E>, after: Table<E>)
  {
    forall id | id in before ::
      && id in after && after[id].message == before[id].message
      && (before[id].published ==> after[id].published)
  }

  ghost predicate OrdersGrow(before: map<Uuid, OrderRecord>, after: map<Uuid, OrderRecord>)
  {
    forall o | o in before :: o in after && DemandOf(after[o]) == DemandOf(before[o])
  }

  /** From one state to a later one: orders, rows and recorded messages are only added, the columns
      an order was created with are fixed, and the ledger is only extended. */
  ghost predicate Extends(s: Saga, t: Saga)
  {
    && t.history.opening == s.history.opening
    && s.history.ledger <= t.history.ledger
    && s.inventoryInbox <= t.inventoryInbox && s.orderInbox <= t.orderInbox
    && OrdersGrow(s.orders, t.orders)
    && RowsGrow(s.created.rows, t.created.rows)
    && RowsGrow(s.results.rows, t.results.rows)
  }

  lemma HandleGrowsTables(db: Db, event: OrderCreatedEvent, resultId: Uuid, rowId: nat)
    requires rowId !in db.inventoryOutbox
    ensures var after := HandleOrderCreated(db, event, resultId, rowId).0;
            && after.orders == db.orders && after.orderOutbox == db.orderOutbox && after.orderInbox == db.orderInbox
            && db.inventoryInbox <= after.inventoryInbox
            && RowsGrow(db.inventoryOutbox, after.inventoryOutbox)
  {
  }

  lemma HandleFields(s: Saga, sid: nat, resultId: Uuid, rowId: nat)
    requires Holds(s.inventoryGroup, s.created.topic, sid)
    ensures var event := RecordAt(s.created.topic, s.inventoryGroup.sessions[sid]).message.event;
            var after, db := HandleStep(s, sid, resultId, rowId), HandleOrderCreated(DbOf(s), event, resultId, rowId).0;
            && DbOf(after) == db
            && after.history.opening == s.history.opening && s.history.ledger <= after.history.ledger
  {
    var event := RecordAt(s.created.topic, s.inventoryGroup.sessions[sid]).message.event;
    var result := HandleOrderCreated(DbOf(s), event, resultId, rowId);
    if !result.1.Processed? {
      UnprocessedKeepsTables(DbOf(s), event, resultId, rowId);
    }
  }

  lemma UnprocessedKeepsTables(db: Db, event: OrderCreatedEvent, resultId: Uuid, rowId: nat)
    requires !HandleOrderCreated(db, event, resultId, rowId).1.Processed?
    ensures HandleOrderCreated(db, event, resultId, rowId).0 == db
  {
  }

  lemma HandleExtends(s: Saga, sid: nat, resultId: Uuid, rowId: nat)
    requires Holds(s.inventoryGroup, s.created.topic, sid) && rowId !in s.results.rows
    ensures Extends(s, HandleStep(s, sid, resultId, rowId))
  {
    var event := RecordAt(s.created.topic, s.inventoryGroup.sessions[sid]).message.event;
    var after := HandleStep(s, sid, resultId, rowId);
    HandleGrowsTables(DbOf(s), event, resultId, rowId);
    HandleFields(s, sid, resultId, rowId);
    GrowthExtends(s, after);
  }

  lemma GrowthExtends(s: Saga, t: Saga)
    requires t.history.opening == s.history.opening && s.history.ledger <= t.history.ledger
    requires t.orders == s.orders && t.created.rows == s.created.rows && t.orderInbox == s.orderInbox
    requires s.inventoryInbox <= t.inventoryInbox && RowsGrow(s.results.rows, t.results.rows)
    ensures Extends(s, t)
  {
  }

  lemma ApplyExtends(s: Saga, sid: nat)
    requires Holds(s.ordersGroup, s.results.topic, sid)
    ensures Extends(s, ApplyStep(s, sid))
  {
  }

  lemma StepExtends(s: Saga, step: Step)
    requires BatchesWellFormed(s.created) && BatchesWellFormed(s.results) && s.orders.Keys <= s.uuids
    requires Enabled(s, step)
    ensures Extends(s, Apply(s, step))
  {
    match step {
      case PublishOrders(pub) => PubKeepsRows(s.created, s.clock, pub);
      case PublishResults(pub) => PubKeepsRows(s.results, s.clock, pub);
      case HandleCreated(sid, resultId, rowId) => HandleExtends(s, sid, resultId, rowId);
      case ApplyInventory(sid) => ApplyExtends(s, sid);
      case _ =>
    }
  }

  lemma ExtendsTransitive(r: Saga, s: Saga, t: Saga)
    requires Extends(r, s) && Extends(s, t)
    ensures Extends(r, t)
  {
  }

  lemma {:induction false} RunExtends(s: Saga, steps: seq<Step>)
    requires SagaInv(s) && Valid(s, steps)
    ensures Extends(s, Exec(s, steps))
    decreases |steps|
  {
    if steps != [] {
      StepExtends(s, steps[0]);
      StepKeepsInv(s, steps[0]);
      RunExtends(Apply(s, steps[0]), steps[1..]);
      ExtendsTransitive(s, Apply(s, steps[0]), Exec(s, steps));
    }
  }

  // ----- Refinement of the sequential clerk -----

  /** The clerk's decision on the order at position `i` of the ledger: whether the stock that the orders
      before it have left suffices. */
  function Verdict(s: Saga, opening: map<string, i32>, i: nat): bool
    requires i < |s.history.ledger| && forall o | o in s.history.ledger :: o in s.orders
  {
    var demands := Demands(s.orders, s.history.ledger);
    Grants(Allocate(opening, demands[..i]).stocks, demands[i])
  }

  /** The pipeline did what the clerk does: the stock table is the clerk's, folded over the decided
      orders in first-commit order; each decided order has exactly one result row, whose verdict is
      the clerk's; every order is Pending or carries its verdict, and undecided orders are Pending. */
  ghost predicate MatchesClerk(s: Saga, opening: map<string, i32>)
  {
    var ledger := s.history.ledger;
    && (forall o | o in ledger :: o in s.orders)
    && (forall i, j | 0 <= i < j < |ledger| :: ledger[i] != ledger[j])
    && s.stocks == Allocate(opening, Demands(s.orders, ledger)).stocks
    && (forall id | id in s.results.rows :: s.results.rows[id].message.event.orderId in ledger)
    && (forall a, b | a in s.results.rows && b in s.results.rows && a != b ::
          s.results.rows[a].message.event.orderId != s.results.rows[b].message.event.orderId)
    && (forall i | 0 <= i < |ledger| :: Decided(s, ledger[i], Verdict(s, opening, i)))
    && (forall o | o in s.orders && o !in ledger ::
          s.orders[o].status == Pending && s.orders[o].failureReason == None)
  }

  /** Main theorem of the pipeline: every run refines the sequential clerk. */
  lemma RefinesSequentialAllocator(s0: Saga, steps: seq<Step>)
    requires Init(s0) && Valid(s0, steps)
    ensures MatchesClerk(Exec(s0, steps), s0.stocks)
  {
    InitHolds(s0);
    RunKeepsInv(s0, steps);
    RunExtends(s0, steps);
    CoreRefines(Exec(s0, steps));
  }

  lemma OneRowEach(s: Saga)
    requires CoreInv(DbOf(s), s.uuids, s.history)
    ensures forall id | id in s.results.rows :: s.results.rows[id].message.event.orderId in s.history.ledger
    ensures forall a, b | a in s.results.rows && b in s.results.rows && a != b ::
              s.results.rows[a].message.event.orderId != s.results.rows[b].message.event.orderId
  {
    assert forall id | id in s.results.rows :: Content(s.results.rows)[id] == s.results.rows[id].message;
  }

  lemma CoreRefines(s: Saga)
    requires CoreInv(DbOf(s), s.uuids, s.history)
    ensures MatchesClerk(s, s.history.opening)
  {
    OneRowEach(s);
    forall i | 0 <= i < |s.history.ledger| ensures Decided(s, s.history.ledger[i], Verdict(s, s.history.opening, i)) {
      DecidedAsAllocated(s, i);
    }
  }

  /** The order has a result row with this verdict and the order's columns, and its status is Pending
      or the verdict's, with a reason exactly for rejections. */
  ghost predicate Decided(s: Saga, o: Uuid, granted: bool)
  {
    && o in s.orders
    && (exists id :: id in s.results.rows && IsResultFor(s.orders[o], o, s.results.rows[id].message.event, granted))
    && var applied := ApplyInventoryResult(granted, FailureReason(granted, s.orders[o].simulateFailure));
       || (s.orders[o].status == Pending && s.orders[o].failureReason == None)
       || (s.orders[o].status == applied.status && s.orders[o].failureReason == applied.failureReason)
  }

  ghost predicate IsResultFor(order: OrderRecord, o: Uuid, event: InventoryResultEvent, granted: bool)
  {
    && event.orderId == o && event.sku == order.sku && event.quantity == order.quantity
    && event.success == granted && event.reason == FailureReason(granted, order.simulateFailure)
  }

  /** The verdict a result row records is the clerk's. */
  lemma RowRecordsVerdict(s: Saga, i: nat)
    requires CoreInv(DbOf(s), s.uuids, s.history) && i < |s.history.ledger|
    ensures var o, results := s.history.ledger[i], Content(s.results.rows);
            && o in s.history.resultRow && s.history.resultRow[o] in results
            && results[s.history.resultRow[o]].event.success == Verdict(s, s.history.opening, i)
  {
    assert s.history.ledger[i] in s.history.ledger;
    GrantedByPrefix(s.history.opening, Demands(s.orders, s.history.ledger), i);
  }

  lemma DecidedAsRecorded(s: Saga, o: Uuid)
    requires ResultsOk(s.orders, Content(s.results.rows), s.history.resultRow, s.uuids)
    requires StatusOk(s.orders, Content(s.results.rows), s.history.resultRow, s.orderInbox, s.uuids)
    requires o in s.history.resultRow
    ensures Decided(s, o, Content(s.results.rows)[s.history.resultRow[o]].event.success)
  {
    var results, id := Content(s.results.rows), s.history.resultRow[o];
    assert ResultFor(s.orders[o], o, results[id]);
    assert results[id] == s.results.rows[id].message;
    assert IsResultFor(s.orders[o], o, s.results.rows[id].message.event, results[id].event.success);
    assert Applied(s.orders[o].status, s.orders[o].failureReason)
        == Outcome(results, s.history.resultRow, s.orderInbox, o);
  }

  lemma DecidedAsAllocated(s: Saga, i: nat)
    requires CoreInv(DbOf(s), s.uuids, s.history) && i < |s.history.ledger|
    ensures Decided(s, s.history.ledger[i], Verdict(s, s.history.opening, i))
  {
    RowRecordsVerdict(s, i);
    DecidedAsRecorded(s, s.history.ledger[i]);
  }

  // ----- Final statuses are stable -----

  predicate Settled(s: Saga, o: Uuid)
  {
    o in s.orders && s.orders[o].status != Pending
  }

  /** The part of the invariant that the stability of statuses rests on. */
  ghost predicate StatusInv(s: Saga)
  {
    && ResultsOk(s.orders, Content(s.results.rows), s.history.resultRow, s.uuids)
    && StatusOk(s.orders, Content(s.results.rows), s.history.resultRow, s.orderInbox, s.uuids)
    && TopicFromRows(s.results.rows, s.results.topic)
    && s.orders.Keys <= s.uuids
  }

  lemma StepKeepsStatus(s: Saga, step: Step, o: Uuid)
    requires StatusInv(s) && Enabled(s, step) && Settled(s, o)
    ensures var after := Apply(s, step); o in after.orders && after.orders[o] == s.orders[o]
  {
    match step {
      case ApplyInventory(sid) => ApplyKeepsStatus(s, sid, o);
      case _ => OthersKeepOrders(s, step, o);
    }
  }

  lemma OthersKeepOrders(s: Saga, step: Step, o: Uuid)
    requires Enabled(s, step) && !step.ApplyInventory? && o in s.orders && s.orders.Keys <= s.uuids
    ensures var after := Apply(s, step); o in after.orders && after.orders[o] == s.orders[o]
  {
    if step.HandleCreated? {
      HandleKeepsOrders(s, step.session, step.resultId, step.rowId);
    }
  }

  lemma HandleKeepsOrders(s: Saga, sid: nat, resultId: Uuid, rowId: nat)
    requires Holds(s.inventoryGroup, s.created.topic, sid)
    ensures HandleStep(s, sid, resultId, rowId).orders == s.orders
  {
  }

  lemma ApplyKeepsStatus(s: Saga, sid: nat, o: Uuid)
    requires StatusInv(s) && Holds(s.ordersGroup, s.results.topic, sid) && Settled(s, o)
    ensures var after := ApplyStep(s, sid); o in after.orders && after.orders[o] == s.orders[o]
  {
    SettledWasRecorded(s, RecordAt(s.results.topic, s.ordersGroup.sessions[sid]).message, o);
  }

  /** A result that names a settled order has been recorded in the inbox already. */
  lemma SettledWasRecorded(s: Saga, m: Message<InventoryResultEvent>, o: Uuid)
    requires StatusInv(s) && Settled(s, o) && FromRows(s.results.rows, m)
    ensures (m.event.messageId, OrdersWorker) in s.orderInbox || m.event.orderId != o
  {
    ResultNamesOrder(s.orders, s.results.rows, s.history.resultRow, s.uuids, m);
    assert Applied(s.orders[o].status, s.orders[o].failureReason)
        == Outcome(Content(s.results.rows), s.history.resultRow, s.orderInbox, o);
  }

  lemma {:induction false} SettledStays(s: Saga, steps: seq<Step>, o: Uuid)
    requires SagaInv(s) && Valid(s, steps) && Settled(s, o)
    ensures var t := Exec(s, steps); o in t.orders && t.orders[o] == s.orders[o]
    decreases |steps|
  {
    if steps != [] {
      StepKeepsStatus(s, steps[0], o);
      StepKeepsInv(s, steps[0]);
      SettledStays(Apply(s, steps[0]), steps[1..], o);
    }
  }

  /** Once Confirmed or Rejected in some run, an order keeps its status and reason through every
      continuation, although the UPDATE that sets them has no guard on the current status. */
  lemma FinalStatusIsStable(s0: Saga, steps: seq<Step>, more: seq<Step>, o: Uuid)
    requires Init(s0) && Valid(s0, steps) && Valid(Exec(s0, steps), more) && Settled(Exec(s0, steps), o)
    ensures var (s, t) := (Exec(s0, steps), Exec(Exec(s0, steps), more)); o in t.orders && t.orders[o] == s.orders[o]
  {
    InitHolds(s0);
    RunKeepsInv(s0, steps);
    SettledStays(Exec(s0, steps), more, o);
  }
}
