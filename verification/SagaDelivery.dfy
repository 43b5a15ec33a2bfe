/** Delivery over whole runs: nothing committed is lost, no worker ever meets a message about an
    unknown order, and leases keep replicas apart as long as batches finish in time. */
module SagaDelivery {
  import opened Prelude
  import opened Sums
  import opened Orders
  import opened Outbox
  import opened Consumers
  import opened Store
  import opened SagaState
  import opened SagaInvariant
  import opened SagaCore
  import opened SagaSteps
  import opened SagaTheorems

  // ----- No lost message -----

  /** Everything well-formed below a committed offset was processed, under its own message id. */
  ghost predicate NothingLost<E>(topic: seq<seq<Record<E>>>, committed: seq<nat>, inbox: Inbox, consumer: Consumer)
  {
    forall p, o | 0 <= p < |topic| && p < |committed| && 0 <= o < |topic[p]| && o < committed[p] ::
      topic[p][o].Good? ==> (topic[p][o].message.id, consumer) in inbox
  }

  /** Across crashes, rebalances, stale sessions and delayed, reordered or dropped commits: every
      message below a committed offset has been recorded, and every published row is in its topic. */
  lemma NoMessageIsLost(s0: Saga, steps: seq<Step>)
    requires Init(s0) && Valid(s0, steps)
    ensures var s := Exec(s0, steps);
            && NothingLost(s.created.topic, s.inventoryGroup.committed, s.inventoryInbox, InventoryWorker)
            && NothingLost(s.results.topic, s.ordersGroup.committed, s.orderInbox, OrdersWorker)
            && PublishedAreLogged(s.created) && PublishedAreLogged(s.results)
  {
    InitHolds(s0);
    RunKeepsInv(s0, steps);
    var s := Exec(s0, steps);
    assert forall p | 0 <= p < |s.created.topic| ::
      Covered(s.created.topic, s.inventoryInbox, InventoryWorker, p, s.inventoryGroup.committed[p]);
    assert forall p | 0 <= p < |s.results.topic| ::
      Covered(s.results.topic, s.orderInbox, OrdersWorker, p, s.ordersGroup.committed[p]);
  }

  // ----- Causal existence -----

  /** A creation event a worker receives names an existing order with the same sku and quantity, and
      its transaction never fails on the integer range of the stock column. */
  lemma CreatedEventsNameOrders(s0: Saga, steps: seq<Step>, sid: nat, resultId: Uuid, rowId: nat)
    requires Init(s0) && Valid(s0, steps)
    requires Holds(Exec(s0, steps).inventoryGroup, Exec(s0, steps).created.topic, sid)
    ensures var s := Exec(s0, steps);
            var event := RecordAt(s.created.topic, s.inventoryGroup.sessions[sid]).message.event;
            && event.orderId in s.orders
            && s.orders[event.orderId].sku == event.sku && s.orders[event.orderId].quantity == event.quantity > 0
            && !HandleOrderCreated(DbOf(s), event, resultId, rowId).1.Failed?
  {
    InitHolds(s0);
    RunKeepsInv(s0, steps);
    var s := Exec(s0, steps);
    var m := RecordAt(s.created.topic, s.inventoryGroup.sessions[sid]).message;
    RecordIsFromRow(s.created, s.clock, s.inventoryGroup, sid);
    CreatedNamesOrder(s.orders, s.created.rows, s.history.createdRow, s.uuids, m);
    if (m.id, InventoryWorker) !in s.inventoryInbox {
      HandleIsServe(DbOf(s), m.event, resultId, rowId, s.orders[m.event.orderId]);
    }
  }

  /** A result event a worker receives names an existing order with the same columns, so the
      `order not found` check never fires. */
  lemma ResultEventsNameOrders(s0: Saga, steps: seq<Step>, sid: nat)
    requires Init(s0) && Valid(s0, steps)
    requires Holds(Exec(s0, steps).ordersGroup, Exec(s0, steps).results.topic, sid)
    ensures var s := Exec(s0, steps);
            NamesItsOrder(s, RecordAt(s.results.topic, s.ordersGroup.sessions[sid]).message.event)
  {
    InitHolds(s0);
    RunKeepsInv(s0, steps);
    var s := Exec(s0, steps);
    var m := RecordAt(s.results.topic, s.ordersGroup.sessions[sid]).message;
    RecordIsFromRow(s.results, s.clock, s.ordersGroup, sid);
    ResultNamesItsOrder(s, m);
  }

  lemma ResultNamesItsOrder(s: Saga, m: Message<InventoryResultEvent>)
    requires ResultsOk(s.orders, Content(s.results.rows), s.history.resultRow, s.uuids) && FromRows(s.results.rows, m)
    ensures NamesItsOrder(s, m.event)
  {
    ResultNamesOrder(s.orders, s.results.rows, s.history.resultRow, s.uuids, m);
  }

  ghost predicate NamesItsOrder(s: Saga, event: InventoryResultEvent)
  {
    && event.orderId in s.orders
    && s.orders[event.orderId].sku == event.sku && s.orders[event.orderId].quantity == event.quantity
    && ApplyResult(DbOf(s), event).1.Ok?
  }

  /** In every reachable state an order has a failure reason exactly when it is Rejected. */
  lemma ReasonsMatchStatuses(s0: Saga, steps: seq<Step>, o: Uuid)
    requires Init(s0) && Valid(s0, steps) && o in Exec(s0, steps).orders
    ensures var order := Exec(s0, steps).orders[o]; order.failureReason.Some? <==> order.status == Rejected
  {
    InitHolds(s0);
    RunKeepsInv(s0, steps);
    var s := Exec(s0, steps);
    var results := Content(s.results.rows);
    assert Applied(s.orders[o].status, s.orders[o].failureReason)
        == Outcome(results, s.history.resultRow, s.orderInbox, o);
    assert o in s.history.resultRow ==> ResultFor(s.orders[o], o, results[s.history.resultRow[o]]);
  }

  // ----- Leases -----

  ghost predicate BothExclusive(s: Saga)
  {
    LeasesExclusive(s.created.batches) && LeasesExclusive(s.results.batches)
  }

  ghost predicate BothHeld(s: Saga)
  {
    LeasesHeld(s.created) && LeasesHeld(s.results)
  }

  /** In every state a step of the run starts from, every unfinished batch is younger than the lock period. */
  ghost predicate InTimeThroughout(s: Saga, steps: seq<Step>)
    requires Valid(s, steps)
    decreases |steps|
  {
    steps == [] ||
    (InTime(s.created.batches, s.clock) && InTime(s.results.batches, s.clock)
     && InTimeThroughout(Apply(s, steps[0]), steps[1..]))
  }

  lemma MoreRowsKeepLeases<E>(c: Channel<E>, after: Channel<E>)
    requires LeasesHeld(c) && after.batches == c.batches
    requires forall id | id in c.rows :: id in after.rows && after.rows[id] == c.rows[id]
    ensures LeasesHeld(after)
  {
    forall r | r in after.batches ensures Held(after.rows, after.batches[r]) {
      assert Held(c.rows, c.batches[r]);
    }
  }

  lemma OthersKeepLeases(s: Saga, step: Step)
    requires Enabled(s, step) && !step.PublishOrders? && !step.PublishResults?
    ensures var t := Apply(s, step);
            && t.created.batches == s.created.batches && t.results.batches == s.results.batches
            && (forall id | id in s.created.rows :: id in t.created.rows && t.created.rows[id] == s.created.rows[id])
            && (forall id | id in s.results.rows :: id in t.results.rows && t.results.rows[id] == s.results.rows[id])
  {
    match step {
      case HandleCreated(sid, resultId, rowId) => HandleLeavesRows(s, sid, resultId, rowId);
      case ApplyInventory(sid) => ApplyLeavesRows(s, sid);
      case _ =>
    }
  }

  lemma HandleLeavesRows(s: Saga, sid: nat, resultId: Uuid, rowId: nat)
    requires Holds(s.inventoryGroup, s.created.topic, sid) && rowId !in s.results.rows
    ensures var t := HandleStep(s, sid, resultId, rowId);
            && t.created == s.created && t.results.batches == s.results.batches
            && forall id | id in s.results.rows :: id in t.results.rows && t.results.rows[id] == s.results.rows[id]
  {
  }

  lemma ApplyLeavesRows(s: Saga, sid: nat)
    requires Holds(s.ordersGroup, s.results.topic, sid)
    ensures ApplyStep(s, sid).created == s.created && ApplyStep(s, sid).results == s.results
  {
  }

  lemma StepKeepsLeases(s: Saga, step: Step)
    requires BatchesWellFormed(s.created) && BatchesWellFormed(s.results)
    requires BothExclusive(s) && BothHeld(s) && Enabled(s, step)
    requires InTime(s.created.batches, s.clock) && InTime(s.results.batches, s.clock)
    ensures BothExclusive(Apply(s, step)) && BothHeld(Apply(s, step))
  {
    match step {
      case PublishOrders(pub) => PubKeepsExclusion(s.created, s.clock, pub);
      case PublishResults(pub) => PubKeepsExclusion(s.results, s.clock, pub);
      case _ =>
        OthersKeepLeases(s, step);
        MoreRowsKeepLeases(s.created, Apply(s, step).created);
        MoreRowsKeepLeases(s.results, Apply(s, step).results);
    }
  }

  lemma {:induction false} LeasesExcludeFrom(s: Saga, steps: seq<Step>)
    requires SagaInv(s) && BothExclusive(s) && BothHeld(s)
    requires Valid(s, steps) && InTimeThroughout(s, steps)
    ensures BothExclusive(Exec(s, steps))
    decreases |steps|
  {
    if steps != [] {
      StepKeepsLeases(s, steps[0]);
      StepKeepsInv(s, steps[0]);
      LeasesExcludeFrom(Apply(s, steps[0]), steps[1..]);
    }
  }

  /** If every batch finishes within the lock period of its lease, no outbox row is ever in the
      unfinished part of two replicas' batches. */
  lemma LeasesExclude(s0: Saga, steps: seq<Step>)
    requires Init(s0) && Valid(s0, steps) && InTimeThroughout(s0, steps)
    ensures BothExclusive(Exec(s0, steps))
  {
    InitHolds(s0);
    LeasesExcludeFrom(s0, steps);
  }

  /** Some replica's batch holds an unpublished row and has reached the end of its lease. */
  ghost predicate Overrun<E>(c: Channel<E>, clock: Time)
  {
    exists r, id :: OverrunAt(c, clock, r, id)
  }

  predicate OverrunAt<E>(c: Channel<E>, clock: Time, r: nat, id: nat)
  {
    && r in c.batches && id in c.batches[r].remaining
    && id in c.rows && !c.rows[id].published
    && c.batches[r].leasedAt + OUTBOX_LOCK <= clock
  }

  /** A leasing statement that would break exclusion. */
  ghost predicate Breaks<E>(c: Channel<E>, clock: Time, claim: PubStep)
  {
    claim.Claim? && PubEnabled(c, clock, claim) && !LeasesExclusive(PubApply(c, clock, claim).batches)
  }

  /** Any other replica can lease the row of an overrun batch, whatever else the table holds. */
  lemma OverrunCanBreak<E>(c: Channel<E>, clock: Time, r: nat, id: nat, q: nat) returns (claim: PubStep)
    requires LeasesHeld(c) && OverrunAt(c, clock, r, id) && q !in c.batches
    ensures claim.Claim? && claim.replica == q && Breaks(c, clock, claim)
  {
    var open := ClaimableIds(c.rows, clock);
    assert Held(c.rows, c.batches[r]);
    claim := Claim(q, open - {id}, [id], clock);
    assert open - (open - {id}) == {id} == Elements([id]);
    LowestOfOne(id);
    ClaimStep(c, clock, q, open - {id}, [id], clock);
    var after := Claimed(c, q, [id], clock).batches;
    assert id in after[r].remaining && id in after[q].remaining;
    assert !Disjoint(after[r], after[q]);
  }

  lemma LowestOfOne(id: nat)
    ensures Lowest({id}, BATCH_LIMIT) == {id}
  {
    assert Minimum({id}) == id;
    assert Lowest({id} - {id}, BATCH_LIMIT - 1) == {};
  }

  /** And only such a batch can lose a row. */
  lemma BreakWasOverrun<E>(c: Channel<E>, clock: Time, claim: PubStep)
    requires LeasesExclusive(c.batches) && LeasesHeld(c) && Breaks(c, clock, claim)
    ensures Overrun(c, clock)
  {
    var r, picked := claim.replica, claim.picked;
    ClaimIsApplied(c, clock, claim);
    ClaimReturnsOldestOpenRows(c.rows, claim.skipped, claim.now, picked);
    if forall q | q in c.batches :: Disjoint(c.batches[q], Batch(picked, Ready, claim.now)) {
      NewBatchKeepsExclusion(c.batches, r, Batch(picked, Ready, claim.now));
    } else {
      var q :| q in c.batches && !Disjoint(c.batches[q], Batch(picked, Ready, claim.now));
      var id :| id in c.batches[q].remaining && id in picked;
      assert Held(c.rows, c.batches[q]);
      assert OverrunAt(c, clock, q, id);
    }
  }

  /** The lock period is exact: exclusion can be broken by the next leasing statement if and only if some
      batch with an unpublished row has reached the end of its lease. */
  lemma ExclusionBreaksIffOverrun<E>(c: Channel<E>, clock: Time)
    requires LeasesExclusive(c.batches) && LeasesHeld(c)
    ensures (exists claim :: Breaks(c, clock, claim)) <==> Overrun(c, clock)
  {
    if claim :| Breaks(c, clock, claim) {
      BreakWasOverrun(c, clock, claim);
    }
    if Overrun(c, clock) {
      var r, id :| OverrunAt(c, clock, r, id);
      var q := UpperBound(c.batches.Keys);
      var claim := OverrunCanBreak(c, clock, r, id, q);
      assert Breaks(c, clock, claim);
    }
  }

  lemma PublishedIsNotPicked<E>(
    before: Table<E>, after: Table<E>, id: nat, skipped: set<nat>, now: Time, picked: seq<nat>)
    requires RowsGrow(before, after) && id in before && before[id].published
    requires IsPick(after, skipped, now, picked)
    ensures id !in picked
  {
    ClaimReturnsOldestOpenRows(after, skipped, now, picked);
  }

  /** A row once published is never leased again, in either outbox, in any continuation. */
  lemma PublishedNeverClaimed(s: Saga, steps: seq<Step>, id: nat, skipped: set<nat>, now: Time, picked: seq<nat>)
    requires SagaInv(s) && Valid(s, steps)
    ensures (id in s.created.rows && s.created.rows[id].published
             && IsPick(Exec(s, steps).created.rows, skipped, now, picked)) ==> id !in picked
    ensures (id in s.results.rows && s.results.rows[id].published
             && IsPick(Exec(s, steps).results.rows, skipped, now, picked)) ==> id !in picked
  {
    RunExtends(s, steps);
    var t := Exec(s, steps);
    if id in s.created.rows && s.created.rows[id].published && IsPick(t.created.rows, skipped, now, picked) {
      PublishedIsNotPicked(s.created.rows, t.created.rows, id, skipped, now, picked);
    }
    if id in s.results.rows && s.results.rows[id].published && IsPick(t.results.rows, skipped, now, picked) {
      PublishedIsNotPicked(s.results.rows, t.results.rows, id, skipped, now, picked);
    }
  }

  /** Whatever crashed while holding it, an unpublished row is open to every replica one lock period later. */
  lemma CrashedRowsReturn(s0: Saga, steps: seq<Step>, now: Time)
    requires Init(s0) && Valid(s0, steps) && Exec(s0, steps).clock + OUTBOX_LOCK <= now
    ensures var s := Exec(s0, steps);
            && ClaimableIds(s.created.rows, now) == Unpublished(s.created.rows)
            && ClaimableIds(s.results.rows, now) == Unpublished(s.results.rows)
  {
    InitHolds(s0);
    RunKeepsInv(s0, steps);
    var s := Exec(s0, steps);
    AbandonedRowsReturn(s.created.rows, s.clock, now);
    AbandonedRowsReturn(s.results.rows, s.clock, now);
  }
}
