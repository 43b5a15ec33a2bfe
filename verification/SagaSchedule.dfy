/** No reachable state is a dead end: from each the pipeline can be drained by steps that all succeed. A
    drained pipeline has decided every order, balances its books, and stays as it is until the next order. */
module SagaSchedule {
  import opened Prelude
  import opened Sums
  import opened Orders
  import opened Outbox
  import opened Consumers
  import opened Store
  import opened SagaState
  import opened SagaInvariant
  import opened SagaCore
  import opened SagaSteps
  import opened SagaTheorems
  import opened SagaStock
  import opened SagaDrain

  /** Steps that succeed and order nothing new. The schedules built from them below are possible ones, not
      fair ones: they leave replicas with unfinished batches and sessions behind. What every fair schedule
      does is in SagaFair. */
  predicate Successful(step: Step)
  {
    match step
    case PublishOrders(pub) => SuccessfulPub(pub)
    case PublishResults(pub) => SuccessfulPub(pub)
    case InventoryGroup(g) => g.Assign? || g.Skip? || g.Commit?
    case OrdersGroup(g) => g.Assign? || g.Skip? || g.Commit?
    case HandleCreated(_, _, _) => true
    case ApplyInventory(_) => true
    case Tick(_) => true
    case _ => false
  }

  predicate SuccessfulPub(pub: PubStep)
  {
    pub.Claim? || pub.HandOver? || pub.Append? || pub.Ack? || pub.Publish?
  }

  ghost predicate AllSuccessful(steps: seq<Step>)
  {
    forall i | 0 <= i < |steps| :: Successful(steps[i])
  }

  lemma {:induction false} Enumerate(ids: set<nat>) returns (order: seq<nat>)
    ensures Distinct(order) && Elements(order) == ids
    decreases |ids|
  {
    if ids == {} {
      order := [];
    } else {
      var k :| k in ids;
      var rest := Enumerate(ids - {k});
      assert k !in Elements(rest);
      assert forall i :: 0 <= i < |rest| ==> rest[i] in Elements(rest);
      order := rest + [k];
      assert Elements(order) == Elements(rest) + {k};
    }
  }

  // ----- Publishing one row -----

  ghost predicate Progress<E>(c: Channel<E>, d: Channel<E>)
  {
    RowsKept(c.rows, d.rows) && |Unpublished(d.rows)| < |Unpublished(c.rows)|
  }

  lemma PickOpen<E>(rows: Table<E>, clock: Time) returns (picked: seq<nat>)
    requires ClaimableIds(rows, clock) != {}
    ensures IsPick(rows, {}, clock, picked) && picked != [] && picked[0] in ClaimableIds(rows, clock)
            && picked[0] in rows
  {
    var open := ClaimableIds(rows, clock);
    var low := Lowest(open, BATCH_LIMIT);
    assert Minimum(open) in low;
    picked := Enumerate(low);
    assert open - {} == open;
    assert Minimum(open) in Elements(picked);
    assert picked[0] in Elements(picked);
  }

  lemma LeaseKeepsUnpublished<E>(rows: Table<E>, ids: set<nat>, until: Time)
    ensures RowsKept(rows, Lease(rows, ids, until)) && Unpublished(Lease(rows, ids, until)) == Unpublished(rows)
  {
  }

  lemma FirstIsPublished<E>(rows: Table<E>, leased: Table<E>, after: Table<E>, row: nat)
    requires row in Unpublished(rows) && RowsKept(rows, leased) && after == MarkPublished(leased, row)
    requires Unpublished(leased) == Unpublished(rows)
    ensures RowsKept(rows, after) && |Unpublished(after)| < |Unpublished(rows)|
  {
    assert row !in Unpublished(after);
    SubsetCount(Unpublished(after), Unpublished(rows));
  }

  function SendSteps(r: nat, row: nat): seq<PubStep>
  {
    [HandOver(r), Append(row, 0), Ack(r), Publish(r)]
  }

  lemma SendFirst<E>(c: Channel<E>, clock: Time, r: nat, row: nat)
    requires InPhase(c.batches, r, Ready) && c.batches[r].remaining[0] == row && row in c.rows && |c.topic| > 0
    ensures var pubs := SendSteps(r, row);
            PubValid(c, clock, pubs) && PubExec(c, clock, pubs).rows == MarkPublished(c.rows, row)
  {
    var m := c.rows[row].message;
    var c2 := PubApply(c, clock, HandOver(r));
    var c3 := PubApply(c2, clock, Append(row, 0));
    assert c3.topic[0][|c.topic[0]|] == Good(m);
    assert Logged(c3.topic, m);
    var c4 := PubApply(c3, clock, Ack(r));
    PubCons(c4, clock, Publish(r), []);
    PubCons(c3, clock, Ack(r), [Publish(r)]);
    PubCons(c2, clock, Append(row, 0), [Ack(r), Publish(r)]);
    PubCons(c, clock, HandOver(r), [Append(row, 0), Ack(r), Publish(r)]);
    assert [HandOver(r)] + [Append(row, 0), Ack(r), Publish(r)] == [HandOver(r), Append(row, 0), Ack(r), Publish(r)];
    assert [Append(row, 0)] + [Ack(r), Publish(r)] == [Append(row, 0), Ack(r), Publish(r)];
    assert [Ack(r)] + [Publish(r)] == [Ack(r), Publish(r)];
    assert [Publish(r)] + [] == [Publish(r)];
  }

  lemma LeaseAndSend<E>(c: Channel<E>, clock: Time, r: nat, picked: seq<nat>)
    requires r !in c.batches && picked != [] && IsPick(c.rows, {}, clock, picked)
    requires picked[0] in c.rows && |c.topic| > 0
    ensures var pubs := [Claim(r, {}, picked, clock)] + SendSteps(r, picked[0]);
            && PubValid(c, clock, pubs)
            && PubExec(c, clock, pubs).rows
                == MarkPublished(Lease(c.rows, Elements(picked), clock + OUTBOX_LOCK), picked[0])
  {
    ClaimStep(c, clock, r, {}, picked, clock);
    SendFirst(Claimed(c, r, picked, clock), clock, r, picked[0]);
    PubCons(c, clock, Claim(r, {}, picked, clock), SendSteps(r, picked[0]));
  }

  lemma LeasedProgress<E>(rows: Table<E>, ids: set<nat>, until: Time, row: nat, c: Channel<E>, d: Channel<E>)
    requires c.rows == rows && row in Unpublished(rows) && d.rows == MarkPublished(Lease(rows, ids, until), row)
    ensures Progress(c, d)
  {
    LeaseKeepsUnpublished(rows, ids, until);
    FirstIsPublished(rows, Lease(rows, ids, until), d.rows, row);
  }

  lemma LeaseAndSendSucceed(r: nat, picked: seq<nat>, clock: Time)
    requires picked != []
    ensures var pubs := [Claim(r, {}, picked, clock)] + SendSteps(r, picked[0]);
            forall i | 0 <= i < |pubs| :: SuccessfulPub(pubs[i])
  {
  }

  /** A fresh replica leases the oldest open rows and gets the first one through. */
  lemma PublishOne<E>(c: Channel<E>, clock: Time) returns (pubs: seq<PubStep>)
    requires ClaimableIds(c.rows, clock) == Unpublished(c.rows) != {} && |c.topic| > 0
    ensures PubValid(c, clock, pubs) && Progress(c, PubExec(c, clock, pubs))
    ensures forall i | 0 <= i < |pubs| :: SuccessfulPub(pubs[i])
  {
    var picked := PickOpen(c.rows, clock);
    var r := UpperBound(c.batches.Keys);
    LeaseAndSend(c, clock, r, picked);
    pubs := [Claim(r, {}, picked, clock)] + SendSteps(r, picked[0]);
    LeaseAndSendSucceed(r, picked, clock);
    LeasedProgress(c.rows, Elements(picked), clock + OUTBOX_LOCK, picked[0], c, PubExec(c, clock, pubs));
  }

  function LiftOrders(pubs: seq<PubStep>): (steps: seq<Step>)
    ensures |steps| == |pubs| && forall i | 0 <= i < |pubs| :: steps[i] == PublishOrders(pubs[i])
  {
    seq(|pubs|, i requires 0 <= i < |pubs| => PublishOrders(pubs[i]))
  }

  function LiftResults(pubs: seq<PubStep>): (steps: seq<Step>)
    ensures |steps| == |pubs| && forall i | 0 <= i < |pubs| :: steps[i] == PublishResults(pubs[i])
  {
    seq(|pubs|, i requires 0 <= i < |pubs| => PublishResults(pubs[i]))
  }

  lemma {:induction false} LiftedOrders(s: Saga, pubs: seq<PubStep>)
    requires PubValid(s.created, s.clock, pubs)
    ensures Valid(s, LiftOrders(pubs))
    ensures Exec(s, LiftOrders(pubs)) == s.(created := PubExec(s.created, s.clock, pubs))
    decreases |pubs|
  {
    if pubs != [] {
      LiftedOrders(s.(created := PubApply(s.created, s.clock, pubs[0])), pubs[1..]);
      assert LiftOrders(pubs)[1..] == LiftOrders(pubs[1..]);
    }
  }

  lemma {:induction false} LiftedResults(s: Saga, pubs: seq<PubStep>)
    requires PubValid(s.results, s.clock, pubs)
    ensures Valid(s, LiftResults(pubs))
    ensures Exec(s, LiftResults(pubs)) == s.(results := PubExec(s.results, s.clock, pubs))
    decreases |pubs|
  {
    if pubs != [] {
      LiftedResults(s.(results := PubApply(s.results, s.clock, pubs[0])), pubs[1..]);
      assert LiftResults(pubs)[1..] == LiftResults(pubs[1..]);
    }
  }

  lemma OrdersProgressWork(s: Saga, clock: Time, d: Channel<OrderCreatedEvent>)
    requires Progress(s.created, d)
    ensures Work(s.(clock := clock, created := d)) < Work(s)
  {
    PubKeepsRecorded(s.created.rows, d.rows, s.inventoryInbox, InventoryWorker);
  }

  lemma ResultsProgressWork(s: Saga, clock: Time, d: Channel<InventoryResultEvent>)
    requires Progress(s.results, d)
    ensures Work(s.(clock := clock, results := d)) < Work(s)
  {
    PubKeepsRecorded(s.results.rows, d.rows, s.orderInbox, OrdersWorker);
  }

  lemma OpenAfterLeases<E>(c: Channel<E>, clock: Time) returns (pubs: seq<PubStep>)
    requires LeasesBounded(c.rows, clock) && |c.topic| > 0 && Unpublished(c.rows) != {}
    ensures PubValid(c, clock + OUTBOX_LOCK, pubs) && Progress(c, PubExec(c, clock + OUTBOX_LOCK, pubs))
    ensures forall i | 0 <= i < |pubs| :: SuccessfulPub(pubs[i])
  {
    AbandonedRowsReturn(c.rows, clock, clock + OUTBOX_LOCK);
    pubs := PublishOne(c, clock + OUTBOX_LOCK);
  }

  lemma AfterTick(steps: seq<Step>)
    requires AllSuccessful(steps)
    ensures AllSuccessful([Tick(OUTBOX_LOCK)] + steps)
  {
  }

  lemma LiftedSucceed(pubs: seq<PubStep>)
    requires forall i | 0 <= i < |pubs| :: SuccessfulPub(pubs[i])
    ensures AllSuccessful(LiftOrders(pubs)) && AllSuccessful(LiftResults(pubs))
  {
  }

  lemma OrdersAfterTick(s: Saga, pubs: seq<PubStep>)
    requires PubValid(s.created, s.clock + OUTBOX_LOCK, pubs)
    ensures var steps, clock := [Tick(OUTBOX_LOCK)] + LiftOrders(pubs), s.clock + OUTBOX_LOCK;
            && Valid(s, steps)
            && Exec(s, steps) == s.(clock := clock, created := PubExec(s.created, clock, pubs))
  {
    LiftedOrders(s.(clock := s.clock + OUTBOX_LOCK), pubs);
    Cons(s, Tick(OUTBOX_LOCK), LiftOrders(pubs));
  }

  /** Once all leases have run out, one more row of the order outbox gets published. */
  lemma PublishMoreOrders(s: Saga) returns (steps: seq<Step>)
    requires LeasesBounded(s.created.rows, s.clock) && |s.created.topic| > 0 && Unpublished(s.created.rows) != {}
    ensures Valid(s, steps) && AllSuccessful(steps) && Work(Exec(s, steps)) < Work(s)
  {
    var clock := s.clock + OUTBOX_LOCK;
    var pubs := OpenAfterLeases(s.created, s.clock);
    steps := [Tick(OUTBOX_LOCK)] + LiftOrders(pubs);
    OrdersAfterTick(s, pubs);
    LiftedSucceed(pubs);
    AfterTick(LiftOrders(pubs));
    OrdersProgressWork(s, clock, PubExec(s.created, clock, pubs));
  }

  lemma ResultsAfterTick(s: Saga, pubs: seq<PubStep>)
    requires PubValid(s.results, s.clock + OUTBOX_LOCK, pubs)
    ensures var steps, clock := [Tick(OUTBOX_LOCK)] + LiftResults(pubs), s.clock + OUTBOX_LOCK;
            && Valid(s, steps)
            && Exec(s, steps) == s.(clock := clock, results := PubExec(s.results, clock, pubs))
  {
    LiftedResults(s.(clock := s.clock + OUTBOX_LOCK), pubs);
    Cons(s, Tick(OUTBOX_LOCK), LiftResults(pubs));
  }

  lemma PublishMoreResults(s: Saga) returns (steps: seq<Step>)
    requires LeasesBounded(s.results.rows, s.clock) && |s.results.topic| > 0 && Unpublished(s.results.rows) != {}
    ensures Valid(s, steps) && AllSuccessful(steps) && Work(Exec(s, steps)) < Work(s)
  {
    var clock := s.clock + OUTBOX_LOCK;
    var pubs := OpenAfterLeases(s.results, s.clock);
    steps := [Tick(OUTBOX_LOCK)] + LiftResults(pubs);
    ResultsAfterTick(s, pubs);
    LiftedSucceed(pubs);
    AfterTick(LiftResults(pubs));
    ResultsProgressWork(s, clock, PubExec(s.results, clock, pubs));
  }

  // ----- Consuming up to one unrecorded message -----

  /** Session `sid` waits at or before offset `o`, where an unrecorded message lies. */
  ghost predicate Ahead<E>(g: Group, topic: seq<seq<Record<E>>>, inbox: Inbox, consumer: Consumer, sid: nat, o: nat)
  {
    && sid in g.sessions && g.sessions[sid].phase == Waiting
    && g.sessions[sid].partition < |topic| && g.sessions[sid].position <= o < |topic[g.sessions[sid].partition]|
    && var record := topic[g.sessions[sid].partition][o];
       record.Good? && (record.message.id, consumer) !in inbox
  }

  /** The next record of a session is the unrecorded one. */
  predicate NextIsNew<E>(g: Group, topic: seq<seq<Record<E>>>, inbox: Inbox, consumer: Consumer, sid: nat)
  {
    Holds(g, topic, sid) && (RecordAt(topic, g.sessions[sid]).message.id, consumer) !in inbox
  }

  /** The group after session `sid` has taken its record without effect and committed it. */
  function Passed<E>(g: Group, topic: seq<seq<Record<E>>>, sid: nat): Group
    requires sid in g.sessions
  {
    GroupApply(SetSession(g, sid, Done), topic, Commit(sid))
  }

  lemma TwoSteps(s: Saga, first: Step, second: Step)
    requires Enabled(s, first) && Enabled(Apply(s, first), second)
    ensures Valid(s, [first, second]) && Exec(s, [first, second]) == Apply(Apply(s, first), second)
  {
    Cons(Apply(s, first), second, []);
    Cons(s, first, [second]);
    assert [first] + [second] == [first, second];
    assert [second] + [] == [second];
  }

  /** A record that is malformed or already recorded is stepped over: taken and committed. */
  lemma PassCreated(s: Saga, sid: nat, o: nat) returns (over: seq<Step>)
    requires CreatedKeys(s)
    requires Ahead(s.inventoryGroup, s.created.topic, s.inventoryInbox, InventoryWorker, sid, o)
    requires !NextIsNew(s.inventoryGroup, s.created.topic, s.inventoryInbox, InventoryWorker, sid)
    ensures Valid(s, over) && AllSuccessful(over)
    ensures Exec(s, over) == s.(inventoryGroup := Passed(s.inventoryGroup, s.created.topic, sid))
  {
    if RecordAt(s.created.topic, s.inventoryGroup.sessions[sid]).Malformed? {
      over := [InventoryGroup(Skip(sid)), InventoryGroup(Commit(sid))];
    } else {
      var resultId := UpperBound(s.uuids);
      var rowId := UpperBound(s.results.rows.Keys);
      HandleDuplicateFields(s, sid, resultId, rowId);
      over := [HandleCreated(sid, resultId, rowId), InventoryGroup(Commit(sid))];
    }
    assert Apply(s, over[0]) == s.(inventoryGroup := SetSession(s.inventoryGroup, sid, Done));
    TwoSteps(s, over[0], over[1]);
  }

  lemma {:induction false} PassUntilNewCreated(s: Saga, sid: nat, o: nat) returns (steps: seq<Step>)
    requires CreatedKeys(s)
    requires Ahead(s.inventoryGroup, s.created.topic, s.inventoryInbox, InventoryWorker, sid, o)
    ensures Valid(s, steps) && AllSuccessful(steps)
    ensures Exec(s, steps) == s.(inventoryGroup := Exec(s, steps).inventoryGroup)
    ensures NextIsNew(Exec(s, steps).inventoryGroup, s.created.topic, s.inventoryInbox, InventoryWorker, sid)
    decreases o - s.inventoryGroup.sessions[sid].position
  {
    if NextIsNew(s.inventoryGroup, s.created.topic, s.inventoryInbox, InventoryWorker, sid) {
      steps := [];
    } else {
      var over := PassCreated(s, sid, o);
      var rest := PassUntilNewCreated(Exec(s, over), sid, o);
      ExecAppend(s, over, rest);
      steps := over + rest;
    }
  }

  lemma PassResult(s: Saga, sid: nat, o: nat) returns (over: seq<Step>)
    requires ResultKeys(s)
    requires Ahead(s.ordersGroup, s.results.topic, s.orderInbox, OrdersWorker, sid, o)
    requires !NextIsNew(s.ordersGroup, s.results.topic, s.orderInbox, OrdersWorker, sid)
    ensures Valid(s, over) && AllSuccessful(over)
    ensures Exec(s, over) == s.(ordersGroup := Passed(s.ordersGroup, s.results.topic, sid))
  {
    if RecordAt(s.results.topic, s.ordersGroup.sessions[sid]).Malformed? {
      over := [OrdersGroup(Skip(sid)), OrdersGroup(Commit(sid))];
    } else {
      ApplyDuplicateFields(s, sid);
      over := [ApplyInventory(sid), OrdersGroup(Commit(sid))];
    }
    assert Apply(s, over[0]) == s.(ordersGroup := SetSession(s.ordersGroup, sid, Done));
    TwoSteps(s, over[0], over[1]);
  }

  lemma {:induction false} PassUntilNewResult(s: Saga, sid: nat, o: nat) returns (steps: seq<Step>)
    requires ResultKeys(s)
    requires Ahead(s.ordersGroup, s.results.topic, s.orderInbox, OrdersWorker, sid, o)
    ensures Valid(s, steps) && AllSuccessful(steps)
    ensures Exec(s, steps) == s.(ordersGroup := Exec(s, steps).ordersGroup)
    ensures NextIsNew(Exec(s, steps).ordersGroup, s.results.topic, s.orderInbox, OrdersWorker, sid)
    decreases o - s.ordersGroup.sessions[sid].position
  {
    if NextIsNew(s.ordersGroup, s.results.topic, s.orderInbox, OrdersWorker, sid) {
      steps := [];
    } else {
      var over := PassResult(s, sid, o);
      var rest := PassUntilNewResult(Exec(s, over), sid, o);
      ExecAppend(s, over, rest);
      steps := over + rest;
    }
  }

  // ----- From an unrecorded, published row to its delivery -----

  /** A published row that is not recorded lies at or beyond the committed offset of its partition,
      so a session assigned to that partition now will reach it. */
  lemma UnrecordedLiesAhead<E>(c: Channel<E>, g: Group, inbox: Inbox, consumer: Consumer, id: nat)
    returns (p: nat, o: nat, sid: nat)
    requires PublishedAreLogged(c) && GroupInv(g, c.topic, inbox, consumer)
    requires id in Unrecorded(c.rows, inbox, consumer) && c.rows[id].published
    ensures GroupEnabled(g, c.topic, Assign(sid, p))
    ensures Ahead(GroupApply(g, c.topic, Assign(sid, p)), c.topic, inbox, consumer, sid, o)
  {
    p, o :| 0 <= p < |c.topic| && 0 <= o < |c.topic[p]| && c.topic[p][o] == Good(c.rows[id].message);
    assert Covered(c.topic, inbox, consumer, p, g.committed[p]);
    sid := UpperBound(g.sessions.Keys);
  }

  lemma ReachCreated(s: Saga, id: nat) returns (steps: seq<Step>, sid: nat)
    requires CreatedKeys(s) && PublishedAreLogged(s.created)
    requires GroupInv(s.inventoryGroup, s.created.topic, s.inventoryInbox, InventoryWorker)
    requires id in Unrecorded(s.created.rows, s.inventoryInbox, InventoryWorker) && s.created.rows[id].published
    ensures Valid(s, steps) && AllSuccessful(steps)
    ensures Exec(s, steps) == s.(inventoryGroup := Exec(s, steps).inventoryGroup)
    ensures NextIsNew(Exec(s, steps).inventoryGroup, s.created.topic, s.inventoryInbox, InventoryWorker, sid)
  {
    var p, o;
    p, o, sid := UnrecordedLiesAhead(s.created, s.inventoryGroup, s.inventoryInbox, InventoryWorker, id);
    var assign := InventoryGroup(Assign(sid, p));
    var rest := PassUntilNewCreated(Apply(s, assign), sid, o);
    Cons(s, assign, rest);
    steps := [assign] + rest;
  }

  lemma ReachResult(s: Saga, id: nat) returns (steps: seq<Step>, sid: nat)
    requires ResultKeys(s) && PublishedAreLogged(s.results)
    requires GroupInv(s.ordersGroup, s.results.topic, s.orderInbox, OrdersWorker)
    requires id in Unrecorded(s.results.rows, s.orderInbox, OrdersWorker) && s.results.rows[id].published
    ensures Valid(s, steps) && AllSuccessful(steps)
    ensures Exec(s, steps) == s.(ordersGroup := Exec(s, steps).ordersGroup)
    ensures NextIsNew(Exec(s, steps).ordersGroup, s.results.topic, s.orderInbox, OrdersWorker, sid)
  {
    var p, o;
    p, o, sid := UnrecordedLiesAhead(s.results, s.ordersGroup, s.orderInbox, OrdersWorker, id);
    var assign := OrdersGroup(Assign(sid, p));
    var rest := PassUntilNewResult(Apply(s, assign), sid, o);
    Cons(s, assign, rest);
    steps := [assign] + rest;
  }

  lemma OneMore(s: Saga, steps: seq<Step>, step: Step)
    requires Valid(s, steps) && Enabled(Exec(s, steps), step) && AllSuccessful(steps) && Successful(step)
    ensures Valid(s, steps + [step]) && Exec(s, steps + [step]) == Apply(Exec(s, steps), step)
    ensures AllSuccessful(steps + [step])
  {
    ExecAppend(s, steps, [step]);
  }

  lemma SameTablesSameWork(s: Saga, t: Saga)
    requires t.created.rows == s.created.rows && t.results.rows == s.results.rows
    requires t.inventoryInbox == s.inventoryInbox && t.orderInbox == s.orderInbox
    ensures Work(t) == Work(s)
  {
  }

  lemma TakeNewCreated(t: Saga, sid: nat) returns (take: Step)
    requires SagaInv(t) && NextIsNew(t.inventoryGroup, t.created.topic, t.inventoryInbox, InventoryWorker, sid)
    ensures Enabled(t, take) && Successful(take) && Work(Apply(t, take)) < Work(t)
  {
    var resultId := UpperBound(t.uuids);
    var rowId := UpperBound(t.results.rows.Keys);
    take := HandleCreated(sid, resultId, rowId);
    HandleNewShrinks(t, sid, resultId, rowId);
  }

  lemma TakeNewResult(t: Saga, sid: nat) returns (take: Step)
    requires SagaInv(t) && NextIsNew(t.ordersGroup, t.results.topic, t.orderInbox, OrdersWorker, sid)
    ensures Enabled(t, take) && Successful(take) && Work(Apply(t, take)) < Work(t)
  {
    take := ApplyInventory(sid);
    ApplyNewShrinks(t, sid);
  }

  lemma DeliverCreated(s: Saga, id: nat) returns (steps: seq<Step>)
    requires SagaInv(s) && id in Unrecorded(s.created.rows, s.inventoryInbox, InventoryWorker)
             && s.created.rows[id].published
    ensures Valid(s, steps) && AllSuccessful(steps) && Work(Exec(s, steps)) < Work(s)
  {
    KeysAreMessageIds(s);
    var first, sid := ReachCreated(s, id);
    RunKeepsInv(s, first);
    var take := TakeNewCreated(Exec(s, first), sid);
    SameTablesSameWork(s, Exec(s, first));
    OneMore(s, first, take);
    steps := first + [take];
  }

  lemma DeliverResult(s: Saga, id: nat) returns (steps: seq<Step>)
    requires SagaInv(s) && id in Unrecorded(s.results.rows, s.orderInbox, OrdersWorker) && s.results.rows[id].published
    ensures Valid(s, steps) && AllSuccessful(steps) && Work(Exec(s, steps)) < Work(s)
  {
    KeysAreMessageIds(s);
    var first, sid := ReachResult(s, id);
    RunKeepsInv(s, first);
    var take := TakeNewResult(Exec(s, first), sid);
    SameTablesSameWork(s, Exec(s, first));
    OneMore(s, first, take);
    steps := first + [take];
  }

  /** While there is work, some successful steps do some of it. */
  lemma WorkCanBeDone(s: Saga) returns (steps: seq<Step>)
    requires SagaInv(s) && |s.created.topic| > 0 && |s.results.topic| > 0 && !Quiescent(s)
    ensures Valid(s, steps) && AllSuccessful(steps) && Work(Exec(s, steps)) < Work(s)
  {
    if Unpublished(s.created.rows) != {} {
      steps := PublishMoreOrders(s);
    } else if Unpublished(s.results.rows) != {} {
      steps := PublishMoreResults(s);
    } else if id :| id in Unrecorded(s.created.rows, s.inventoryInbox, InventoryWorker) {
      assert id !in Unpublished(s.created.rows);
      steps := DeliverCreated(s, id);
    } else {
      var id :| id in Unrecorded(s.results.rows, s.orderInbox, OrdersWorker);
      assert id !in Unpublished(s.results.rows);
      steps := DeliverResult(s, id);
    }
  }

  lemma {:induction false} PartitionsStay(s: Saga, steps: seq<Step>)
    requires SagaInv(s) && Valid(s, steps)
    ensures |Exec(s, steps).created.topic| == |s.created.topic| && |Exec(s, steps).results.topic| == |s.results.topic|
  {
    RunKeepsInv(s, steps);
    CommittedStay(s, steps);
  }

  lemma {:induction false} CommittedStay(s: Saga, steps: seq<Step>)
    requires Valid(s, steps)
    ensures |Exec(s, steps).inventoryGroup.committed| == |s.inventoryGroup.committed|
    ensures |Exec(s, steps).ordersGroup.committed| == |s.ordersGroup.committed|
    decreases |steps|
  {
    if steps != [] {
      CommittedStayStep(s, steps[0]);
      CommittedStay(Apply(s, steps[0]), steps[1..]);
    }
  }

  lemma CommittedStayStep(s: Saga, step: Step)
    requires Enabled(s, step)
    ensures |Apply(s, step).inventoryGroup.committed| == |s.inventoryGroup.committed|
    ensures |Apply(s, step).ordersGroup.committed| == |s.ordersGroup.committed|
  {
  }

  /** From every reachable state a finite run of successful steps drains the pipeline; the recursion
      is on the work left. */
  lemma {:induction false} CanAlwaysDrain(s: Saga) returns (steps: seq<Step>)
    requires SagaInv(s) && |s.created.topic| > 0 && |s.results.topic| > 0
    ensures Valid(s, steps) && AllSuccessful(steps) && Quiescent(Exec(s, steps))
    decreases Work(s)
  {
    if Quiescent(s) {
      steps := [];
    } else {
      var first := WorkCanBeDone(s);
      RunKeepsInv(s, first);
      PartitionsStay(s, first);
      var rest := CanAlwaysDrain(Exec(s, first));
      ExecAppend(s, first, rest);
      steps := first + rest;
    }
  }

  // ----- The drained pipeline -----

  lemma QuiescentOrderIsFinal(s: Saga, o: Uuid)
    requires CoreInv(DbOf(s), s.uuids, s.history) && Quiescent(s) && o in s.orders
    ensures IsApplied(Content(s.results.rows), s.history.resultRow, s.orderInbox, o) && s.orders[o].status != Pending
  {
    assert s.history.createdRow[o] !in Unrecorded(s.created.rows, s.inventoryInbox, InventoryWorker);
    assert s.history.resultRow[o] !in Unrecorded(s.results.rows, s.orderInbox, OrdersWorker);
    assert Applied(s.orders[o].status, s.orders[o].failureReason)
        == Outcome(Content(s.results.rows), s.history.resultRow, s.orderInbox, o);
  }

  /** At quiescence no order is Pending, and for every sku what is missing from the opening stock is
      exactly what the confirmed orders took. */
  lemma QuiescenceBalances(s: Saga)
    requires CoreInv(DbOf(s), s.uuids, s.history) && Quiescent(s)
    ensures forall o | o in s.orders :: s.orders[o].status != Pending
    ensures forall sku | sku in s.stocks ::
              sku in s.history.opening && s.history.opening[sku] == s.stocks[sku] + Sum(ConfirmedOf(s.orders, sku))
  {
    forall o | o in s.orders
      ensures IsApplied(Content(s.results.rows), s.history.resultRow, s.orderInbox, o) && s.orders[o].status != Pending
    {
      QuiescentOrderIsFinal(s, o);
    }
    forall sku | sku in s.stocks ensures s.history.opening[sku] == s.stocks[sku] + Sum(ConfirmedOf(s.orders, sku)) {
      ConfirmedAtMostTaken(s, sku);
    }
  }

  /** Every run can be completed, by successful steps alone, to a state in which every order is final
      and the books balance. */
  lemma EveryRunCanBeSettled(s0: Saga, steps: seq<Step>) returns (more: seq<Step>)
    requires Init(s0) && Valid(s0, steps) && |s0.created.topic| > 0 && |s0.results.topic| > 0
    ensures Valid(s0, steps + more) && AllSuccessful(more)
    ensures var s := Exec(s0, steps + more);
            && Quiescent(s)
            && (forall o | o in s.orders :: s.orders[o].status != Pending)
            && (forall sku | sku in s0.stocks ::
                  sku in s.stocks && s0.stocks[sku] == s.stocks[sku] + Sum(ConfirmedOf(s.orders, sku)))
  {
    InitHolds(s0);
    RunKeepsInv(s0, steps);
    PartitionsStay(s0, steps);
    more := CanAlwaysDrain(Exec(s0, steps));
    ExecAppend(s0, steps, more);
    RunKeepsInv(s0, steps + more);
    RunExtends(s0, steps + more);
    QuiescenceBalances(Exec(s0, steps + more));
  }

  /** Without new orders a quiescent pipeline stays quiescent, and no order changes any more. */
  lemma QuiescenceLasts(s: Saga, steps: seq<Step>, o: Uuid)
    requires SagaInv(s) && Quiescent(s) && Valid(s, steps) && Inserts(steps) == 0
    ensures Quiescent(Exec(s, steps))
    ensures o in s.orders ==> o in Exec(s, steps).orders && Exec(s, steps).orders[o] == s.orders[o]
  {
    WorkIsBudgeted(s, steps);
    QuiescentIsNoWork(s);
    QuiescentIsNoWork(Exec(s, steps));
    QuiescenceBalances(s);
    if o in s.orders {
      SettledStays(s, steps, o);
    }
  }
}
