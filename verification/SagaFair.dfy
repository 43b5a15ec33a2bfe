/** The pipeline under a fair schedule. Over every infinite run in which, from some moment on, nothing is
    ordered, no send fails, no replica crashes and no session is lost, and in which nobody stalls for
    ever, the pipeline becomes quiescent and stays so: every order is decided and the books balance. */
module SagaFair {
  import opened Prelude
  import opened Sums
  import opened Orders
  import opened Outbox
  import opened Consumers
  import opened Store
  import opened SagaState
  import opened SagaInvariant
  import opened SagaCore
  import opened SagaSteps
  import opened SagaTheorems
  import opened SagaStock
  import opened SagaDelivery
  import opened SagaDrain
  import opened SagaSchedule
  import opened FairPublishing
  import opened FairConsuming

  type States = nat -> Saga
  type Actions = nat -> Step

  ghost predicate Turn(st: States, act: Actions, i: nat)
  {
    Enabled(st(i), act(i)) && st(i + 1) == Apply(st(i), act(i))
  }

  ghost predicate IsRun(st: States, act: Actions)
  {
    forall i: nat :: Turn(st, act, i)
  }

  /** Late copies, malformed records, lost or late commits, duplicates and failing cache refreshes may go on. */
  predicate Calm(step: Step)
  {
    match step
    case Insert(_, _, _, _) => false
    case PublishOrders(pub) => CalmPub(pub)
    case PublishResults(pub) => CalmPub(pub)
    case InventoryGroup(g) => !g.Drop?
    case OrdersGroup(g) => !g.Drop?
    case _ => true
  }

  ghost predicate CalmFrom(act: Actions, start: nat)
  {
    forall i: nat :: start <= i ==> Calm(act(i))
  }

  // ----- The four parts of a run -----

  function CreatedOf(st: States): Channels<OrderCreatedEvent>
  {
    (i: nat) => st(i).created
  }

  function ResultsOf(st: States): Channels<InventoryResultEvent>
  {
    (i: nat) => st(i).results
  }

  function ClockOf(st: States): Clock
  {
    (i: nat) => st(i).clock
  }

  function OrdersPubs(act: Actions): Pubs
  {
    (i: nat) => if act(i).PublishOrders? then Some(act(i).pub) else None
  }

  function ResultsPubs(act: Actions): Pubs
  {
    (i: nat) => if act(i).PublishResults? then Some(act(i).pub) else None
  }

  function TopicsOf<E>(ch: Channels<E>): Topics<E>
  {
    (i: nat) => ch(i).topic
  }

  function InventoryGroups(st: States): Groups
  {
    (i: nat) => st(i).inventoryGroup
  }

  function OrdersGroups(st: States): Groups
  {
    (i: nat) => st(i).ordersGroup
  }

  function InventoryInboxes(st: States): Inboxes
  {
    (i: nat) => st(i).inventoryInbox
  }

  function OrderInboxes(st: States): Inboxes
  {
    (i: nat) => st(i).orderInbox
  }

  function GroupMover(step: GroupStep): Option<nat>
  {
    if step.Skip? || step.Commit? then Some(step.session) else None
  }

  /** The inventory session whose own step this is. */
  function InventoryMover(step: Step): Option<nat>
  {
    match step
    case InventoryGroup(g) => GroupMover(g)
    case HandleCreated(sid, _, _) => Some(sid)
    case LoadForCache(sid) => Some(sid)
    case StoreInCache(sid) => Some(sid)
    case GiveUpCache(sid) => Some(sid)
    case _ => None
  }

  function OrdersMover(step: Step): Option<nat>
  {
    match step
    case OrdersGroup(g) => GroupMover(g)
    case ApplyInventory(sid) => Some(sid)
    case _ => None
  }

  function InventoryMovers(act: Actions): Movers
  {
    (i: nat) => InventoryMover(act(i))
  }

  function OrdersMovers(act: Actions): Movers
  {
    (i: nat) => OrdersMover(act(i))
  }

  /** Every replica goes on with its batch, open rows get leased again, time passes, partitions with
      records get sessions, and sessions go on with their records. */
  ghost predicate FairFrom(st: States, act: Actions, start: nat)
  {
    && FairPublishers(CreatedOf(st), ClockOf(st), OrdersPubs(act), start)
    && FairPublishers(ResultsOf(st), ClockOf(st), ResultsPubs(act), start)
    && FairConsumers(InventoryGroups(st), TopicsOf(CreatedOf(st)), InventoryMovers(act), start)
    && FairConsumers(OrdersGroups(st), TopicsOf(ResultsOf(st)), OrdersMovers(act), start)
  }

  // ----- One step of a calm run -----

  lemma ClockStep(s: Saga, step: Step)
    requires Enabled(s, step)
    ensures s.clock <= Apply(s, step).clock
  {
  }

  lemma OthersKeepCreated(s: Saga, step: Step)
    requires Enabled(s, step) && Calm(step) && !step.PublishOrders?
    ensures Apply(s, step).created == s.created
  {
    if step.HandleCreated? {
      HandleKeepsCreated(s, step.session, step.resultId, step.rowId);
    }
  }

  lemma HandleKeepsCreated(s: Saga, sid: nat, resultId: Uuid, rowId: nat)
    requires Holds(s.inventoryGroup, s.created.topic, sid)
    ensures HandleStep(s, sid, resultId, rowId).created == s.created
  {
  }

  /** Once every creation message is recorded, handling one again writes no result. */
  lemma OthersKeepResults(s: Saga, step: Step)
    requires SagaInv(s) && Enabled(s, step) && !step.PublishResults?
    requires Unrecorded(s.created.rows, s.inventoryInbox, InventoryWorker) == {}
    ensures Apply(s, step).results == s.results
  {
    if step.HandleCreated? {
      HandleAgain(s, step.session, step.resultId, step.rowId);
    } else {
      OnlyHandlingWritesResults(s, step);
    }
  }

  lemma OnlyHandlingWritesResults(s: Saga, step: Step)
    requires Enabled(s, step) && !step.PublishResults? && !step.HandleCreated?
    ensures Apply(s, step).results == s.results
  {
  }

  lemma HandleAgain(s: Saga, sid: nat, resultId: Uuid, rowId: nat)
    requires SagaInv(s) && Enabled(s, HandleCreated(sid, resultId, rowId))
    requires Unrecorded(s.created.rows, s.inventoryInbox, InventoryWorker) == {}
    ensures HandleStep(s, sid, resultId, rowId).results == s.results
  {
    var m := RecordAt(s.created.topic, s.inventoryGroup.sessions[sid]).message;
    RecordIsFromRow(s.created, s.clock, s.inventoryGroup, sid);
    var id :| id in s.created.rows && s.created.rows[id].message == m;
    assert id !in Unrecorded(s.created.rows, s.inventoryInbox, InventoryWorker);
    KeysAreMessageIds(s);
    HandleDuplicateFields(s, sid, resultId, rowId);
  }

  lemma CreatedTopicGrows(s: Saga, step: Step)
    requires Enabled(s, step) && Calm(step)
    ensures TopicGrows(s.created.topic, Apply(s, step).created.topic)
  {
    if step.PublishOrders? {
      PubGrowsTopic(s.created, s.clock, step.pub);
    } else {
      OthersKeepCreated(s, step);
    }
  }

  lemma ResultTopicGrows(s: Saga, step: Step)
    requires Enabled(s, step)
    ensures TopicGrows(s.results.topic, Apply(s, step).results.topic)
  {
    if step.PublishResults? {
      PubGrowsTopic(s.results, s.clock, step.pub);
    } else if step.HandleCreated? {
      HandleKeepsResultTopic(s, step.session, step.resultId, step.rowId);
    }
  }

  lemma HandleKeepsResultTopic(s: Saga, sid: nat, resultId: Uuid, rowId: nat)
    requires Holds(s.inventoryGroup, s.created.topic, sid)
    ensures HandleStep(s, sid, resultId, rowId).results.topic == s.results.topic
  {
  }

  lemma GroupStepMoves<E>(g: Group, topic: seq<seq<Record<E>>>, step: GroupStep)
    requires GroupEnabled(g, topic, step) && !step.Drop?
    ensures SessionsKept(g, GroupApply(g, topic, step), GroupMover(step))
  {
  }

  lemma PhaseMoves(g: Group, sid: nat, phase: SessionPhase)
    requires sid in g.sessions && PhaseRank(g.sessions[sid].phase) < PhaseRank(phase)
    ensures SessionsKept(g, SetSession(g, sid, phase), Some(sid))
  {
  }

  /** In a reachable state neither transaction fails. */
  lemma HandleSucceeds(s: Saga, sid: nat, resultId: Uuid, rowId: nat)
    requires SagaInv(s) && Enabled(s, HandleCreated(sid, resultId, rowId))
    ensures var event := RecordAt(s.created.topic, s.inventoryGroup.sessions[sid]).message.event;
            !HandleOrderCreated(DbOf(s), event, resultId, rowId).1.Failed?
  {
    var m := RecordAt(s.created.topic, s.inventoryGroup.sessions[sid]).message;
    RecordIsFromRow(s.created, s.clock, s.inventoryGroup, sid);
    CreatedNamesOrder(s.orders, s.created.rows, s.history.createdRow, s.uuids, m);
    if (m.id, InventoryWorker) !in s.inventoryInbox {
      HandleIsServe(DbOf(s), m.event, resultId, rowId, s.orders[m.event.orderId]);
    }
  }

  lemma ApplySucceeds(s: Saga, sid: nat)
    requires SagaInv(s) && Enabled(s, ApplyInventory(sid))
    ensures ApplyResult(DbOf(s), RecordAt(s.results.topic, s.ordersGroup.sessions[sid]).message.event).1.Ok?
  {
    var m := RecordAt(s.results.topic, s.ordersGroup.sessions[sid]).message;
    RecordIsFromRow(s.results, s.clock, s.ordersGroup, sid);
    ResultNamesItsOrder(s, m);
  }

  lemma HandleMoves(s: Saga, sid: nat, resultId: Uuid, rowId: nat)
    requires Holds(s.inventoryGroup, s.created.topic, sid)
    requires var event := RecordAt(s.created.topic, s.inventoryGroup.sessions[sid]).message.event;
             !HandleOrderCreated(DbOf(s), event, resultId, rowId).1.Failed?
    ensures SessionsKept(s.inventoryGroup, HandleStep(s, sid, resultId, rowId).inventoryGroup, Some(sid))
  {
    PhaseMoves(s.inventoryGroup, sid, Done);
    PhaseMoves(s.inventoryGroup, sid,
        Stale(RecordAt(s.created.topic, s.inventoryGroup.sessions[sid]).message.event.sku));
  }

  lemma ApplyMoves(s: Saga, sid: nat)
    requires Holds(s.ordersGroup, s.results.topic, sid)
    requires ApplyResult(DbOf(s), RecordAt(s.results.topic, s.ordersGroup.sessions[sid]).message.event).1.Ok?
    ensures SessionsKept(s.ordersGroup, ApplyStep(s, sid).ordersGroup, Some(sid))
  {
    PhaseMoves(s.ordersGroup, sid, Done);
  }

  lemma NobodyMoves(g: Group)
    ensures SessionsKept(g, g, None)
  {
  }

  lemma RefreshMoves(s: Saga, step: Step)
    requires Enabled(s, step) && RefreshStep(step)
    ensures SessionsKept(s.inventoryGroup, Apply(s, step).inventoryGroup, Some(step.session))
  {
  }

  lemma OthersKeepInventoryGroup(s: Saga, step: Step)
    requires Enabled(s, step) && !step.InventoryGroup? && !step.HandleCreated? && !RefreshStep(step)
    ensures Apply(s, step).inventoryGroup == s.inventoryGroup
  {
  }

  lemma OthersKeepOrdersGroup(s: Saga, step: Step)
    requires Enabled(s, step) && !step.OrdersGroup? && !step.ApplyInventory?
    ensures Apply(s, step).ordersGroup == s.ordersGroup
  {
  }

  lemma InventorySessionsMove(s: Saga, step: Step)
    requires SagaInv(s) && Enabled(s, step) && Calm(step)
    ensures SessionsKept(s.inventoryGroup, Apply(s, step).inventoryGroup, InventoryMover(step))
  {
    if step.InventoryGroup? {
      GroupStepMoves(s.inventoryGroup, s.created.topic, step.step);
    } else if step.HandleCreated? {
      HandleSucceeds(s, step.session, step.resultId, step.rowId);
      HandleMoves(s, step.session, step.resultId, step.rowId);
    } else if RefreshStep(step) {
      RefreshMoves(s, step);
    } else {
      OthersKeepInventoryGroup(s, step);
      NobodyMoves(s.inventoryGroup);
    }
  }

  lemma OrdersSessionsMove(s: Saga, step: Step)
    requires SagaInv(s) && Enabled(s, step) && Calm(step)
    ensures SessionsKept(s.ordersGroup, Apply(s, step).ordersGroup, OrdersMover(step))
  {
    if step.OrdersGroup? {
      GroupStepMoves(s.ordersGroup, s.results.topic, step.step);
    } else if step.ApplyInventory? {
      ApplySucceeds(s, step.session);
      ApplyMoves(s, step.session);
    } else {
      OthersKeepOrdersGroup(s, step);
      NobodyMoves(s.ordersGroup);
    }
  }

  // ----- Whole runs -----

  lemma InvTurn(st: States, act: Actions, i: nat)
    requires IsRun(st, act) && i > 0 && SagaInv(st(i - 1))
    ensures SagaInv(st(i)) && st(i).history.opening == st(i - 1).history.opening
  {
    assert Turn(st, act, i - 1);
    StepKeepsInv(st(i - 1), act(i - 1));
    StepExtends(st(i - 1), act(i - 1));
  }

  lemma {:induction false} InvThroughout(st: States, act: Actions, i: nat)
    requires IsRun(st, act) && SagaInv(st(0))
    ensures SagaInv(st(i)) && st(i).history.opening == st(0).history.opening
    decreases i
  {
    if i > 0 {
      InvThroughout(st, act, i - 1);
      InvTurn(st, act, i);
    }
  }

  lemma CreatedTurn(st: States, act: Actions, i: nat)
    requires Turn(st, act, i) && SagaInv(st(i)) && Calm(act(i))
    ensures PublisherTurn(CreatedOf(st), ClockOf(st), OrdersPubs(act), i)
  {
    ClockStep(st(i), act(i));
    if !act(i).PublishOrders? {
      OthersKeepCreated(st(i), act(i));
    }
  }

  lemma ResultsTurn(st: States, act: Actions, i: nat)
    requires Turn(st, act, i) && SagaInv(st(i)) && Calm(act(i))
    requires Unrecorded(st(i).created.rows, st(i).inventoryInbox, InventoryWorker) == {}
    ensures PublisherTurn(ResultsOf(st), ClockOf(st), ResultsPubs(act), i)
  {
    ClockStep(st(i), act(i));
    if !act(i).PublishResults? {
      OthersKeepResults(st(i), act(i));
    }
  }

  lemma InventoryTurn(st: States, act: Actions, i: nat)
    requires Turn(st, act, i) && SagaInv(st(i)) && Calm(act(i))
    ensures ConsumerTurn(InventoryGroups(st), TopicsOf(CreatedOf(st)), InventoryInboxes(st), InventoryWorker,
            InventoryMovers(act), i)
  {
    CreatedTopicGrows(st(i), act(i));
    InventorySessionsMove(st(i), act(i));
    StepExtends(st(i), act(i));
  }

  lemma OrdersTurn(st: States, act: Actions, i: nat)
    requires Turn(st, act, i) && SagaInv(st(i)) && Calm(act(i))
    ensures ConsumerTurn(OrdersGroups(st), TopicsOf(ResultsOf(st)), OrderInboxes(st), OrdersWorker,
            OrdersMovers(act), i)
  {
    ResultTopicGrows(st(i), act(i));
    OrdersSessionsMove(st(i), act(i));
    StepExtends(st(i), act(i));
  }

  // ----- From published to recorded -----

  /** From `start` on the same messages are in the outbox, all published and in the topic. */
  ghost predicate AllLogged<E>(ch: Channels<E>, start: nat)
  {
    forall i: nat :: start <= i ==>
      Unpublished(ch(i).rows) == {} && PublishedAreLogged(ch(i)) && Content(ch(i).rows) == Content(ch(start).rows)
  }

  lemma UnrecordedShrinks<E>(before: Table<E>, after: Table<E>, inbox: Inbox, later: Inbox, consumer: Consumer, id: nat)
    requires Content(after) == Content(before) && inbox <= later
    requires id in Unrecorded(before, inbox, consumer) && (before[id].message.id, consumer) in later
    ensures |Unrecorded(after, later, consumer)| < |Unrecorded(before, inbox, consumer)|
  {
    UnrecordedSubset(before, after, inbox, later, consumer);
    assert Content(after)[id] == after[id].message && Content(before)[id] == before[id].message;
    SubsetCount(Unrecorded(after, later, consumer), Unrecorded(before, inbox, consumer));
  }

  lemma UnrecordedSubset<E>(before: Table<E>, after: Table<E>, inbox: Inbox, later: Inbox, consumer: Consumer)
    requires Content(after) == Content(before) && inbox <= later
    ensures Unrecorded(after, later, consumer) <= Unrecorded(before, inbox, consumer)
  {
    forall id | id in Unrecorded(after, later, consumer) ensures id in Unrecorded(before, inbox, consumer) {
      assert Content(after)[id] == after[id].message && Content(before)[id] == before[id].message;
    }
  }

  lemma {:induction false} InboxGrows<E>(
    g: Groups, topic: Topics<E>, inbox: Inboxes, consumer: Consumer, movers: Movers, start: nat, i: nat, j: nat)
    requires ConsumerRun(g, topic, inbox, consumer, movers, start) && start <= i <= j
    ensures inbox(i) <= inbox(j)
    decreases j - i
  {
    if i < j {
      assert ConsumerTurn(g, topic, inbox, consumer, movers, i);
      InboxGrows(g, topic, inbox, consumer, movers, start, i + 1, j);
    }
  }

  /** One more message is recorded. */
  lemma OneMoreRecorded<E>(
    ch: Channels<E>, g: Groups, inbox: Inboxes, consumer: Consumer, movers: Movers, start: nat, i: nat) returns (k: nat)
    requires ConsumerRun(g, TopicsOf(ch), inbox, consumer, movers, start)
    requires FairConsumers(g, TopicsOf(ch), movers, start) && AllLogged(ch, start)
    requires start <= i && Unrecorded(ch(i).rows, inbox(i), consumer) != {}
    ensures i <= k && |Unrecorded(ch(k).rows, inbox(k), consumer)| < |Unrecorded(ch(i).rows, inbox(i), consumer)|
  {
    var id :| id in Unrecorded(ch(i).rows, inbox(i), consumer);
    var record := Good(ch(i).rows[id].message);
    assert id !in Unpublished(ch(i).rows);
    var p, o :| 0 <= p < |ch(i).topic| && 0 <= o < |ch(i).topic[p]| && ch(i).topic[p][o] == record;
    assert AtRecord(TopicsOf(ch)(i), p, o, record);
    k := RecordIsProcessed(g, TopicsOf(ch), inbox, consumer, movers, start, i, p, o, record);
    InboxGrows(g, TopicsOf(ch), inbox, consumer, movers, start, i, k);
    UnrecordedShrinks(ch(i).rows, ch(k).rows, inbox(i), inbox(k), consumer, id);
  }

  lemma {:induction false} AllRecorded<E>(
    ch: Channels<E>, g: Groups, inbox: Inboxes, consumer: Consumer, movers: Movers, start: nat, i: nat) returns (n: nat)
    requires ConsumerRun(g, TopicsOf(ch), inbox, consumer, movers, start)
    requires FairConsumers(g, TopicsOf(ch), movers, start) && AllLogged(ch, start) && start <= i
    ensures i <= n && forall m: nat :: n <= m ==> Unrecorded(ch(m).rows, inbox(m), consumer) == {}
    decreases |Unrecorded(ch(i).rows, inbox(i), consumer)|
  {
    if Unrecorded(ch(i).rows, inbox(i), consumer) == {} {
      n := i;
      forall m: nat | n <= m ensures Unrecorded(ch(m).rows, inbox(m), consumer) == {} {
        InboxGrows(g, TopicsOf(ch), inbox, consumer, movers, start, n, m);
        UnrecordedSubset(ch(n).rows, ch(m).rows, inbox(n), inbox(m), consumer);
      }
    } else {
      var k := OneMoreRecorded(ch, g, inbox, consumer, movers, start, i);
      n := AllRecorded(ch, g, inbox, consumer, movers, start, k);
    }
  }

  // ----- The pipeline -----

  lemma {:induction false} ContentStays<E>(
    ch: Channels<E>, clock: Clock, pubs: Pubs, start: nat, i: nat, j: nat)
    requires PublisherRun(ch, clock, pubs, start) && start <= i <= j
    ensures Content(ch(j).rows) == Content(ch(i).rows)
    decreases j - i
  {
    if i < j {
      assert PublisherTurn(ch, clock, pubs, i);
      if pubs(i).Some? {
        PubKeepsRows(ch(i), clock(i), pubs(i).value);
        SameContent(ch(i).rows, ch(i + 1).rows);
      }
      ContentStays(ch, clock, pubs, start, i + 1, j);
    }
  }

  /** A hop under a fair schedule: everything in the outbox gets published, and then recorded. */
  lemma HopDrains<E>(
    ch: Channels<E>, clock: Clock, pubs: Pubs, g: Groups, inbox: Inboxes, consumer: Consumer, movers: Movers,
        start: nat)
    returns (n: nat)
    requires PublisherRun(ch, clock, pubs, start) && FairPublishers(ch, clock, pubs, start)
    requires ConsumerRun(g, TopicsOf(ch), inbox, consumer, movers, start)
             && FairConsumers(g, TopicsOf(ch), movers, start)
    requires forall i: nat :: start <= i ==> PublishedAreLogged(ch(i))
    ensures start <= n
    ensures forall m: nat :: n <= m ==> Unpublished(ch(m).rows) == {} == Unrecorded(ch(m).rows, inbox(m), consumer)
  {
    var k := AllPublished(ch, clock, pubs, start, start);
    forall i: nat | k <= i ensures Content(ch(i).rows) == Content(ch(k).rows) {
      ContentStays(ch, clock, pubs, start, k, i);
    }
    assert AllLogged(ch, k);
    n := AllRecorded(ch, g, inbox, consumer, movers, k, k);
  }

  lemma CreatedHopTurn(st: States, act: Actions, i: nat)
    requires IsRun(st, act) && SagaInv(st(0)) && Calm(act(i))
    ensures PublisherTurn(CreatedOf(st), ClockOf(st), OrdersPubs(act), i) && PublishedAreLogged(CreatedOf(st)(i))
    ensures ConsumerTurn(InventoryGroups(st), TopicsOf(CreatedOf(st)), InventoryInboxes(st), InventoryWorker,
            InventoryMovers(act), i)
  {
    InvThroughout(st, act, i);
    assert Turn(st, act, i);
    CreatedTurn(st, act, i);
    InventoryTurn(st, act, i);
  }

  lemma CreatedHopRuns(st: States, act: Actions, start: nat)
    requires IsRun(st, act) && SagaInv(st(0)) && CalmFrom(act, start)
    ensures PublisherRun(CreatedOf(st), ClockOf(st), OrdersPubs(act), start)
    ensures ConsumerRun(InventoryGroups(st), TopicsOf(CreatedOf(st)), InventoryInboxes(st), InventoryWorker,
                        InventoryMovers(act), start)
    ensures forall i: nat :: start <= i ==> PublishedAreLogged(CreatedOf(st)(i))
  {
    forall i: nat | start <= i
      ensures PublisherTurn(CreatedOf(st), ClockOf(st), OrdersPubs(act), i) && PublishedAreLogged(CreatedOf(st)(i))
      ensures ConsumerTurn(InventoryGroups(st), TopicsOf(CreatedOf(st)), InventoryInboxes(st), InventoryWorker,
                           InventoryMovers(act), i)
    {
      CreatedHopTurn(st, act, i);
    }
  }

  lemma CreatedHopDrains(st: States, act: Actions, start: nat) returns (n: nat)
    requires IsRun(st, act) && SagaInv(st(0)) && CalmFrom(act, start) && FairFrom(st, act, start)
    ensures start <= n
    ensures forall m: nat :: n <= m ==>
              && Unpublished(st(m).created.rows) == {}
              && Unrecorded(st(m).created.rows, st(m).inventoryInbox, InventoryWorker) == {}
  {
    CreatedHopRuns(st, act, start);
    n := HopDrains(CreatedOf(st), ClockOf(st), OrdersPubs(act), InventoryGroups(st), InventoryInboxes(st),
                   InventoryWorker, InventoryMovers(act), start);
    forall m: nat | n <= m
      ensures Unpublished(st(m).created.rows) == {}
              == Unrecorded(st(m).created.rows, st(m).inventoryInbox, InventoryWorker)
    {
      assert CreatedOf(st)(m) == st(m).created && InventoryInboxes(st)(m) == st(m).inventoryInbox;
    }
  }

  lemma ResultsHopTurn(st: States, act: Actions, i: nat)
    requires IsRun(st, act) && SagaInv(st(0)) && Calm(act(i))
    requires Unrecorded(st(i).created.rows, st(i).inventoryInbox, InventoryWorker) == {}
    ensures PublisherTurn(ResultsOf(st), ClockOf(st), ResultsPubs(act), i) && PublishedAreLogged(ResultsOf(st)(i))
    ensures ConsumerTurn(OrdersGroups(st), TopicsOf(ResultsOf(st)), OrderInboxes(st), OrdersWorker,
            OrdersMovers(act), i)
  {
    InvThroughout(st, act, i);
    assert Turn(st, act, i);
    ResultsTurn(st, act, i);
    OrdersTurn(st, act, i);
  }

  lemma ResultsHopRuns(st: States, act: Actions, start: nat)
    requires IsRun(st, act) && SagaInv(st(0)) && CalmFrom(act, start)
    requires forall m: nat :: start <= m ==> Unrecorded(st(m).created.rows, st(m).inventoryInbox, InventoryWorker) == {}
    ensures PublisherRun(ResultsOf(st), ClockOf(st), ResultsPubs(act), start)
    ensures ConsumerRun(OrdersGroups(st), TopicsOf(ResultsOf(st)), OrderInboxes(st), OrdersWorker,
                        OrdersMovers(act), start)
    ensures forall i: nat :: start <= i ==> PublishedAreLogged(ResultsOf(st)(i))
  {
    forall i: nat | start <= i
      ensures PublisherTurn(ResultsOf(st), ClockOf(st), ResultsPubs(act), i) && PublishedAreLogged(ResultsOf(st)(i))
      ensures ConsumerTurn(OrdersGroups(st), TopicsOf(ResultsOf(st)), OrderInboxes(st), OrdersWorker,
                           OrdersMovers(act), i)
    {
      ResultsHopTurn(st, act, i);
    }
  }

  lemma ResultsHopDrains(st: States, act: Actions, start: nat) returns (n: nat)
    requires IsRun(st, act) && SagaInv(st(0)) && CalmFrom(act, start) && FairFrom(st, act, start)
    requires forall m: nat :: start <= m ==> Unrecorded(st(m).created.rows, st(m).inventoryInbox, InventoryWorker) == {}
    ensures start <= n
    ensures forall m: nat :: n <= m ==>
              && Unpublished(st(m).results.rows) == {}
              && Unrecorded(st(m).results.rows, st(m).orderInbox, OrdersWorker) == {}
  {
    ResultsHopRuns(st, act, start);
    n := HopDrains(ResultsOf(st), ClockOf(st), ResultsPubs(act), OrdersGroups(st), OrderInboxes(st), OrdersWorker,
                   OrdersMovers(act), start);
    forall m: nat | n <= m
      ensures Unpublished(st(m).results.rows) == {} == Unrecorded(st(m).results.rows, st(m).orderInbox, OrdersWorker)
    {
      assert ResultsOf(st)(m) == st(m).results && OrderInboxes(st)(m) == st(m).orderInbox;
    }
  }

  /** Fairness that holds from some moment on holds from every later one. */
  lemma FairLater(st: States, act: Actions, start: nat, later: nat)
    requires FairFrom(st, act, start) && start <= later
    ensures FairFrom(st, act, later)
  {
  }

  /** Every fair run drains: from some moment on the pipeline is quiescent. */
  lemma FairRunsDrain(st: States, act: Actions, start: nat) returns (n: nat)
    requires IsRun(st, act) && SagaInv(st(0)) && CalmFrom(act, start) && FairFrom(st, act, start)
    ensures start <= n && forall m: nat :: n <= m ==> Quiescent(st(m))
  {
    var k := CreatedHopDrains(st, act, start);
    FairLater(st, act, start, k);
    n := ResultsHopDrains(st, act, k);
  }

  /** Every fair run from a start settles: from some moment on no order is Pending, and what is missing
      from the opening stock of a sku is exactly what the confirmed orders took. */
  lemma FairRunsSettle(st: States, act: Actions, start: nat) returns (n: nat)
    requires Init(st(0)) && IsRun(st, act) && CalmFrom(act, start) && FairFrom(st, act, start)
    ensures forall m: nat, o: Uuid :: n <= m && o in st(m).orders ==> st(m).orders[o].status != Pending
    ensures forall m: nat, sku: string :: n <= m && sku in st(0).stocks ==>
              sku in st(m).stocks && st(0).stocks[sku] == st(m).stocks[sku] + Sum(ConfirmedOf(st(m).orders, sku))
  {
    InitHolds(st(0));
    n := FairRunsDrain(st, act, start);
    forall m: nat | n <= m
      ensures forall o: Uuid :: o in st(m).orders ==> st(m).orders[o].status != Pending
      ensures forall sku: string :: sku in st(0).stocks ==>
                sku in st(m).stocks && st(0).stocks[sku] == st(m).stocks[sku] + Sum(ConfirmedOf(st(m).orders, sku))
    {
      InvThroughout(st, act, m);
      QuiescenceBalances(st(m));
    }
  }

  // ----- What being caught up means -----

  /** Every partition's committed offset, or some session of it, is at the end of the log. */
  ghost predicate CaughtUp<E>(g: Group, topic: seq<seq<Record<E>>>)
  {
    forall p: nat :: p < |topic| ==> AtEnd(g, topic, p)
  }

  ghost predicate AtEnd<E>(g: Group, topic: seq<seq<Record<E>>>, p: nat)
    requires p < |topic|
  {
    || (p < |g.committed| && g.committed[p] == |topic[p]|)
    || exists sid: nat :: Serves(g, sid, p) && Reached(g.sessions[sid]) == |topic[p]|
  }

  lemma CaughtUpIsRecorded<E>(c: Channel<E>, g: Group, inbox: Inbox, consumer: Consumer)
    requires PublishedAreLogged(c) && Unpublished(c.rows) == {}
    requires GroupInv(g, c.topic, inbox, consumer) && CaughtUp(g, c.topic)
    ensures Unrecorded(c.rows, inbox, consumer) == {}
  {
    forall id | id in c.rows ensures (c.rows[id].message.id, consumer) in inbox {
      assert id !in Unpublished(c.rows);
      var p: nat, o: nat :| p < |c.topic| && o < |c.topic[p]| && c.topic[p][o] == Good(c.rows[id].message);
      assert AtEnd(g, c.topic, p);
      assert Covered(c.topic, inbox, consumer, p, |c.topic[p]|);
    }
  }

  /** Outboxes published and groups caught up are quiescence. */
  lemma CaughtUpIsQuiescent(s: Saga)
    requires SagaInv(s) && Unpublished(s.created.rows) == {} == Unpublished(s.results.rows)
    requires CaughtUp(s.inventoryGroup, s.created.topic) && CaughtUp(s.ordersGroup, s.results.topic)
    ensures Quiescent(s)
  {
    CaughtUpIsRecorded(s.created, s.inventoryGroup, s.inventoryInbox, InventoryWorker);
    CaughtUpIsRecorded(s.results, s.ordersGroup, s.orderInbox, OrdersWorker);
  }

  // ----- The conditions can be met -----

  function Ticking(s: Saga): States
  {
    (i: nat) => s.(clock := i)
  }

  function Ticks(): Actions
  {
    (i: nat) => Tick(1)
  }

  /** An empty pipeline in which only time passes is a fair run from a start. */
  lemma IdleRunIsFair(stocks: map<string, i32>, orderPartitions: nat, resultPartitions: nat)
    ensures var st := Ticking(Start(stocks, orderPartitions, resultPartitions));
            Init(st(0)) && IsRun(st, Ticks()) && CalmFrom(Ticks(), 0) && FairFrom(st, Ticks(), 0)
  {
    StartIsInit(stocks, orderPartitions, resultPartitions);
    var s := Start(stocks, orderPartitions, resultPartitions);
    var st := Ticking(s);
    assert st(0) == s;
    IdleClockPasses(st);
    IdlePublishing(CreatedOf(st), ClockOf(st), OrdersPubs(Ticks()));
    IdlePublishing(ResultsOf(st), ClockOf(st), ResultsPubs(Ticks()));
    assert NoSessionStalls(InventoryGroups(st), TopicsOf(CreatedOf(st)), InventoryMovers(Ticks()), 0);
    assert NoSessionStalls(OrdersGroups(st), TopicsOf(ResultsOf(st)), OrdersMovers(Ticks()), 0);
  }

  lemma IdleClockPasses(st: States)
    requires forall i: nat :: st(i).clock == i
    ensures TimePasses(ClockOf(st))
  {
    forall i: nat, t: Time ensures Passes(ClockOf(st), i, t) {
      var j: nat := if i <= t then t else i;
      assert i <= j && t <= ClockOf(st)(j);
    }
  }

  lemma IdlePublishing<E>(ch: Channels<E>, clock: Clock, pubs: Pubs)
    requires forall i: nat :: ch(i).batches == map[] && ch(i).rows == map[]
    ensures NoReplicaStalls(ch, pubs, 0) && SomebodyPolls(ch, clock, pubs, 0)
  {
    forall i: nat ensures Polled(ch, clock, pubs, i) {
      assert ClaimableIds(ch(i).rows, clock(i)) == {};
    }
  }
}
