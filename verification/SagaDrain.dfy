/** Draining: the work left in the pipeline never grows except by new orders, every effective
    delivery shrinks it, it can always be shrunk without any failure, and when none is left every
    order is decided and the books balance. */
module SagaDrain {
  import opened Prelude
  import opened Sums
  import opened Orders
  import opened Outbox
  import opened Consumers
  import opened Store
  import opened SagaState
  import opened SagaInvariant
  import opened SagaCore
  import opened SagaSteps
  import opened SagaTheorems
  import opened SagaStock

  /** Rows whose message the consumer has not recorded. */
  function Unrecorded<E>(rows: Table<E>, inbox: Inbox, consumer: Consumer): set<nat>
  {
    set id | id in rows && (rows[id].message.id, consumer) !in inbox
  }

  /** Deciding an order costs one unit here and creates a result row worth two, hence the three. */
  function Work(s: Saga): nat
  {
    |Unpublished(s.created.rows)| + 3 * |Unrecorded(s.created.rows, s.inventoryInbox, InventoryWorker)|
    + |Unpublished(s.results.rows)| + |Unrecorded(s.results.rows, s.orderInbox, OrdersWorker)|
  }

  ghost predicate Quiescent(s: Saga)
  {
    && Unpublished(s.created.rows) == {} == Unrecorded(s.created.rows, s.inventoryInbox, InventoryWorker)
    && Unpublished(s.results.rows) == {} == Unrecorded(s.results.rows, s.orderInbox, OrdersWorker)
  }

  lemma QuiescentIsNoWork(s: Saga)
    ensures Quiescent(s) <==> Work(s) == 0
  {
  }

  /** A delivery that takes effect: a first publication, a first inventory transaction, a first status update. */
  predicate Effective(s: Saga, step: Step)
  {
    match step
    case PublishOrders(Publish(r)) =>
      r in s.created.batches && s.created.batches[r].remaining != []
      && s.created.batches[r].remaining[0] in Unpublished(s.created.rows)
    case PublishResults(Publish(r)) =>
      r in s.results.batches && s.results.batches[r].remaining != []
      && s.results.batches[r].remaining[0] in Unpublished(s.results.rows)
    case HandleCreated(sid, _, _) =>
      Holds(s.inventoryGroup, s.created.topic, sid)
      && (RecordAt(s.created.topic, s.inventoryGroup.sessions[sid]).message.id, InventoryWorker) !in s.inventoryInbox
    case ApplyInventory(sid) =>
      Holds(s.ordersGroup, s.results.topic, sid)
      && (RecordAt(s.results.topic, s.ordersGroup.sessions[sid]).message.id, OrdersWorker) !in s.orderInbox
    case _ => false
  }

  // ----- How each kind of step changes the work -----

  lemma PubKeepsRecorded<E>(before: Table<E>, after: Table<E>, inbox: Inbox, consumer: Consumer)
    requires RowsKept(before, after)
    ensures Unrecorded(after, inbox, consumer) == Unrecorded(before, inbox, consumer)
    ensures Unpublished(after) <= Unpublished(before) && |Unpublished(after)| <= |Unpublished(before)|
  {
    SubsetCount(Unpublished(after), Unpublished(before));
  }

  lemma SubsetCount(a: set<nat>, b: set<nat>)
    requires a <= b
    ensures |a| <= |b|
    ensures a != b ==> |a| < |b|
  {
    var rest := b - a;
    assert a + rest == b && a !! rest;
    assert a != b ==> rest != {};
  }

  lemma PublishShrinks<E>(c: Channel<E>, clock: Time, r: nat)
    requires BatchesWellFormed(c) && PubEnabled(c, clock, Publish(r))
             && c.batches[r].remaining[0] in Unpublished(c.rows)
    ensures |Unpublished(PubApply(c, clock, Publish(r)).rows)| < |Unpublished(c.rows)|
  {
    PubKeepsRows(c, clock, Publish(r));
    var after := PubApply(c, clock, Publish(r)).rows;
    assert c.batches[r].remaining[0] !in Unpublished(after);
    SubsetCount(Unpublished(after), Unpublished(c.rows));
  }

  lemma RecordingShrinks<E>(rows: Table<E>, inbox: Inbox, consumer: Consumer, m: Message<E>)
    requires FromRows(rows, m) && (m.id, consumer) !in inbox
    ensures |Unrecorded(rows, inbox + {(m.id, consumer)}, consumer)| < |Unrecorded(rows, inbox, consumer)|
  {
    var id :| id in rows && rows[id].message == m;
    var before, after := Unrecorded(rows, inbox, consumer), Unrecorded(rows, inbox + {(m.id, consumer)}, consumer);
    assert id in before && id !in after;
    SubsetCount(after, before);
  }

  lemma NewRowUnpublished<E>(rows: Table<E>, id: nat, m: Message<E>)
    requires id !in rows
    ensures |Unpublished(rows[id := NewRow(m)])| == |Unpublished(rows)| + 1
  {
    assert Unpublished(rows[id := NewRow(m)]) == Unpublished(rows) + {id};
  }

  lemma NewRowAddsWork<E>(rows: Table<E>, id: nat, m: Message<E>, inbox: Inbox, consumer: Consumer)
    requires id !in rows
    ensures |Unpublished(rows[id := NewRow(m)])| == |Unpublished(rows)| + 1
    ensures |Unrecorded(rows[id := NewRow(m)], inbox, consumer)| <= |Unrecorded(rows, inbox, consumer)| + 1
  {
    NewRowUnpublished(rows, id, m);
    var before, after := Unrecorded(rows, inbox, consumer), Unrecorded(rows[id := NewRow(m)], inbox, consumer);
    assert after <= before + {id};
    SubsetCount(after, before + {id});
  }

  lemma InsertAddsFour(s: Saga, request: CreateOrderRequest, orderId: Uuid, messageId: Uuid, rowId: nat)
    requires Enabled(s, Insert(request, orderId, messageId, rowId))
    ensures Work(Apply(s, Insert(request, orderId, messageId, rowId))) <= Work(s) + 4
  {
    NewRowAddsWork(s.created.rows, rowId, CreatedMessage(request, orderId, messageId), s.inventoryInbox,
        InventoryWorker);
  }

  lemma HandleNewShrinks(s: Saga, sid: nat, resultId: Uuid, rowId: nat)
    requires SagaInv(s) && Enabled(s, HandleCreated(sid, resultId, rowId))
             && Effective(s, HandleCreated(sid, resultId, rowId))
    ensures Work(Apply(s, HandleCreated(sid, resultId, rowId))) < Work(s)
  {
    var m := RecordAt(s.created.topic, s.inventoryGroup.sessions[sid]).message;
    RecordIsFromRow(s.created, s.clock, s.inventoryGroup, sid);
    CreatedNamesOrder(s.orders, s.created.rows, s.history.createdRow, s.uuids, m);
    HandleIsServe(DbOf(s), m.event, resultId, rowId, s.orders[m.event.orderId]);
    ProcessedFields(s, sid, resultId, rowId, m);
    RecordingShrinks(s.created.rows, s.inventoryInbox, InventoryWorker, m);
    NewRowAddsWork(s.results.rows, rowId, ResultMessage(DbOf(s), m.event, resultId), s.orderInbox, OrdersWorker);
  }

  lemma ApplyNewShrinks(s: Saga, sid: nat)
    requires SagaInv(s) && Enabled(s, ApplyInventory(sid)) && Effective(s, ApplyInventory(sid))
    ensures Work(Apply(s, ApplyInventory(sid))) < Work(s)
  {
    var m := RecordAt(s.results.topic, s.ordersGroup.sessions[sid]).message;
    RecordIsFromRow(s.results, s.clock, s.ordersGroup, sid);
    ResultNamesOrder(s.orders, s.results.rows, s.history.resultRow, s.uuids, m);
    AppliedFields(s, sid, m);
    RecordingShrinks(s.results.rows, s.orderInbox, OrdersWorker, m);
  }

  lemma PublishStepWork(s: Saga, step: Step)
    requires SagaInv(s) && Enabled(s, step) && (step.PublishOrders? || step.PublishResults?)
    ensures Work(Apply(s, step)) <= Work(s)
    ensures Effective(s, step) ==> Work(Apply(s, step)) < Work(s)
  {
    var t := Apply(s, step);
    if step.PublishOrders? {
      PubKeepsRows(s.created, s.clock, step.pub);
      PubKeepsRecorded(s.created.rows, t.created.rows, s.inventoryInbox, InventoryWorker);
      if Effective(s, step) {
        PublishShrinks(s.created, s.clock, step.pub.replica);
      }
    } else {
      PubKeepsRows(s.results, s.clock, step.pub);
      PubKeepsRecorded(s.results.rows, t.results.rows, s.orderInbox, OrdersWorker);
      if Effective(s, step) {
        PublishShrinks(s.results, s.clock, step.pub.replica);
      }
    }
  }

  lemma HandleDuplicateFields(s: Saga, sid: nat, resultId: Uuid, rowId: nat)
    requires CreatedKeys(s) && Holds(s.inventoryGroup, s.created.topic, sid)
    requires (RecordAt(s.created.topic, s.inventoryGroup.sessions[sid]).message.id, InventoryWorker) in s.inventoryInbox
    ensures HandleStep(s, sid, resultId, rowId) == s.(inventoryGroup := SetSession(s.inventoryGroup, sid, Done))
  {
  }

  lemma ApplyDuplicateFields(s: Saga, sid: nat)
    requires ResultKeys(s) && Holds(s.ordersGroup, s.results.topic, sid)
    requires (RecordAt(s.results.topic, s.ordersGroup.sessions[sid]).message.id, OrdersWorker) in s.orderInbox
    ensures ApplyStep(s, sid) == s.(ordersGroup := SetSession(s.ordersGroup, sid, Done))
  {
  }

  /** The Kafka key of a record is the message id its event carries. */
  ghost predicate CreatedKeys(s: Saga)
  {
    forall p, o | 0 <= p < |s.created.topic| && 0 <= o < |s.created.topic[p]| ::
      s.created.topic[p][o].Good? ==> s.created.topic[p][o].message.event.messageId == s.created.topic[p][o].message.id
  }

  ghost predicate ResultKeys(s: Saga)
  {
    forall p, o | 0 <= p < |s.results.topic| && 0 <= o < |s.results.topic[p]| ::
      s.results.topic[p][o].Good? ==> s.results.topic[p][o].message.event.messageId == s.results.topic[p][o].message.id
  }

  lemma KeysAreMessageIds(s: Saga)
    requires SagaInv(s)
    ensures CreatedKeys(s) && ResultKeys(s)
  {
    forall p, o | 0 <= p < |s.created.topic| && 0 <= o < |s.created.topic[p]| && s.created.topic[p][o].Good?
      ensures s.created.topic[p][o].message.event.messageId == s.created.topic[p][o].message.id
    {
      CreatedNamesOrder(s.orders, s.created.rows, s.history.createdRow, s.uuids, s.created.topic[p][o].message);
    }
    forall p, o | 0 <= p < |s.results.topic| && 0 <= o < |s.results.topic[p]| && s.results.topic[p][o].Good?
      ensures s.results.topic[p][o].message.event.messageId == s.results.topic[p][o].message.id
    {
      ResultNamesOrder(s.orders, s.results.rows, s.history.resultRow, s.uuids, s.results.topic[p][o].message);
    }
  }

  /** Same rows, same inboxes, same work. */
  lemma IdleStepWork(s: Saga, step: Step)
    requires Enabled(s, step)
    requires !step.PublishOrders? && !step.PublishResults? && !step.Insert? && !step.HandleCreated?
             && !step.ApplyInventory?
    ensures Work(Apply(s, step)) == Work(s)
  {
    var t := Apply(s, step);
    assert t.created == s.created && t.results == s.results;
    assert t.inventoryInbox == s.inventoryInbox && t.orderInbox == s.orderInbox;
  }

  /** Only a new order adds work, at most four units; an effective step removes at least one. */
  lemma StepWork(s: Saga, step: Step)
    requires SagaInv(s) && Enabled(s, step)
    ensures Work(Apply(s, step)) + (if Effective(s, step) then 1 else 0) <= Work(s) + (if step.Insert? then 4 else 0)
  {
    if step.Insert? {
      InsertAddsFour(s, step.request, step.orderId, step.messageId, step.rowId);
    } else if step.PublishOrders? || step.PublishResults? {
      PublishStepWork(s, step);
    } else if step.HandleCreated? {
      if Effective(s, step) {
        HandleNewShrinks(s, step.session, step.resultId, step.rowId);
      } else {
        KeysAreMessageIds(s);
        HandleDuplicateFields(s, step.session, step.resultId, step.rowId);
      }
    } else if step.ApplyInventory? {
      if Effective(s, step) {
        ApplyNewShrinks(s, step.session);
      } else {
        KeysAreMessageIds(s);
        ApplyDuplicateFields(s, step.session);
      }
    } else {
      IdleStepWork(s, step);
    }
  }

  // ----- Over whole runs -----

  ghost function EffectiveSteps(s: Saga, steps: seq<Step>): nat
    requires Valid(s, steps)
    decreases |steps|
  {
    if steps == [] then 0
    else (if Effective(s, steps[0]) then 1 else 0) + EffectiveSteps(Apply(s, steps[0]), steps[1..])
  }

  function Inserts(steps: seq<Step>): nat
  {
    if steps == [] then 0 else (if steps[0].Insert? then 1 else 0) + Inserts(steps[1..])
  }

  /** In every run, whatever fails or repeats, the effective deliveries are bounded by the work at the
      start and the orders inserted, and the work left is no more than the rest of that budget. */
  lemma {:induction false} WorkIsBudgeted(s: Saga, steps: seq<Step>)
    requires SagaInv(s) && Valid(s, steps)
    ensures Work(Exec(s, steps)) + EffectiveSteps(s, steps) <= Work(s) + 4 * Inserts(steps)
    decreases |steps|
  {
    if steps != [] {
      StepWork(s, steps[0]);
      StepKeepsInv(s, steps[0]);
      WorkIsBudgeted(Apply(s, steps[0]), steps[1..]);
    }
  }
}
