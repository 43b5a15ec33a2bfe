/** Consuming under a fair schedule: over every infinite run in which partitions get sessions and
    sessions do not stall, every record of the topic is processed
    (src/bin/inventory-worker.rs:91-121, src/bin/orders-worker.rs:83-109). */
module FairConsuming {
  import opened Prelude
  import opened Orders
  import opened Outbox
  import opened Consumers
  import opened Store

  type Groups = nat -> Group
  type Topics<!E> = nat -> seq<seq<Record<E>>>
  type Inboxes = nat -> Inbox
  type Movers = nat -> Option<nat>

  function PhaseRank(phase: SessionPhase): nat
  {
    match phase
    case Waiting => 0
    case Stale(_) => 1
    case Loaded(_, _) => 2
    case Done => 3
  }

  /** How far a session has come in its partition. */
  function Rank(s: Session): nat
  {
    4 * s.position + PhaseRank(s.phase)
  }

  /** One step of a session: the same partition, further on. */
  predicate Forward(before: Session, after: Session)
  {
    after.partition == before.partition && Rank(before) < Rank(after)
  }

  /** No session is lost, and each moves on by its own steps. */
  predicate SessionsKept(before: Group, after: Group, mover: Option<nat>)
  {
    forall sid | sid in before.sessions ::
      && sid in after.sessions
      && if mover == Some(sid) then Forward(before.sessions[sid], after.sessions[sid])
         else after.sessions[sid] == before.sessions[sid]
  }

  ghost predicate ConsumerTurn<E>(
    g: Groups, topic: Topics<E>, inbox: Inboxes, consumer: Consumer, movers: Movers, i: nat)
  {
    && GroupInv(g(i), topic(i), inbox(i), consumer)
    && TopicGrows(topic(i), topic(i + 1)) && inbox(i) <= inbox(i + 1)
    && SessionsKept(g(i), g(i + 1), movers(i))
  }

  ghost predicate ConsumerRun<E>(
    g: Groups, topic: Topics<E>, inbox: Inboxes, consumer: Consumer, movers: Movers, start: nat)
  {
    forall i: nat :: start <= i ==> ConsumerTurn(g, topic, inbox, consumer, movers, i)
  }

  // ----- Fairness -----

  /** The session has something to do: a record to take, or a turn to finish. */
  predicate CanMove<E>(topic: seq<seq<Record<E>>>, s: Session)
  {
    s.phase != Waiting || HasRecord(topic, s)
  }

  /** A session that has something to do does something, sooner or later. */
  ghost predicate GoesOn<E>(g: Groups, topic: Topics<E>, movers: Movers, i: nat, sid: nat)
  {
    sid in g(i).sessions && CanMove(topic(i), g(i).sessions[sid]) ==> exists j: nat :: i <= j && movers(j) == Some(sid)
  }

  ghost predicate NoSessionStalls<E>(g: Groups, topic: Topics<E>, movers: Movers, start: nat)
  {
    forall i: nat, sid: nat :: start <= i ==> GoesOn(g, topic, movers, i, sid)
  }

  predicate Serves(g: Group, sid: nat, p: nat)
  {
    sid in g.sessions && g.sessions[sid].partition == p
  }

  /** A partition that holds records is assigned to a session, sooner or later. */
  ghost predicate IsServed<E>(g: Groups, topic: Topics<E>, i: nat, p: nat)
  {
    p < |topic(i)| && topic(i)[p] != [] ==> exists j: nat, sid: nat :: i <= j && Serves(g(j), sid, p)
  }

  ghost predicate PartitionsAreServed<E>(g: Groups, topic: Topics<E>, start: nat)
  {
    forall i: nat, p: nat :: start <= i ==> IsServed(g, topic, i, p)
  }

  ghost predicate FairConsumers<E>(g: Groups, topic: Topics<E>, movers: Movers, start: nat)
  {
    NoSessionStalls(g, topic, movers, start) && PartitionsAreServed(g, topic, start)
  }

  // ----- Stretches of the run -----

  ghost predicate AtRecord<E>(topic: seq<seq<Record<E>>>, p: nat, o: nat, record: Record<E>)
  {
    p < |topic| && o < |topic[p]| && topic[p][o] == record
  }

  lemma {:induction false} RecordStays<E>(
    g: Groups, topic: Topics<E>, inbox: Inboxes, consumer: Consumer, movers: Movers, start: nat,
    i: nat, j: nat, p: nat, o: nat, record: Record<E>)
    requires ConsumerRun(g, topic, inbox, consumer, movers, start) && start <= i <= j
    requires AtRecord(topic(i), p, o, record)
    ensures AtRecord(topic(j), p, o, record) && inbox(i) <= inbox(j)
    decreases j - i
  {
    if i < j {
      assert ConsumerTurn(g, topic, inbox, consumer, movers, i);
      assert topic(i)[p] <= topic(i + 1)[p];
      RecordStays(g, topic, inbox, consumer, movers, start, i + 1, j, p, o, record);
    }
  }

  /** The session's next step finds it where it was. */
  lemma {:induction false} NextTurn<E>(
    g: Groups, topic: Topics<E>, inbox: Inboxes, consumer: Consumer, movers: Movers, start: nat,
    i: nat, j: nat, sid: nat) returns (k: nat)
    requires ConsumerRun(g, topic, inbox, consumer, movers, start) && start <= i <= j
    requires sid in g(i).sessions && movers(j) == Some(sid)
    ensures i <= k && sid in g(k + 1).sessions && Forward(g(i).sessions[sid], g(k + 1).sessions[sid])
    decreases j - i
  {
    assert ConsumerTurn(g, topic, inbox, consumer, movers, i);
    if movers(i) == Some(sid) {
      k := i;
    } else {
      k := NextTurn(g, topic, inbox, consumer, movers, start, i + 1, j, sid);
    }
  }

  ghost predicate Processed<E>(inbox: Inbox, consumer: Consumer, record: Record<E>)
  {
    record.Good? ==> (record.message.id, consumer) in inbox
  }

  /** Whatever a session has got past has been processed. */
  lemma PassedIsProcessed<E>(
    g: Group, topic: seq<seq<Record<E>>>, inbox: Inbox, consumer: Consumer, sid: nat, p: nat, o: nat, record: Record<E>)
    requires GroupInv(g, topic, inbox, consumer) && Serves(g, sid, p) && AtRecord(topic, p, o, record)
    requires 4 * o < Rank(g.sessions[sid])
    ensures Processed(inbox, consumer, record)
  {
    assert Covered(topic, inbox, consumer, p, Reached(g.sessions[sid]));
    assert o < Reached(g.sessions[sid]);
  }

  /** A session of the partition gets past every record in it. */
  lemma {:induction false} SessionPasses<E>(
    g: Groups, topic: Topics<E>, inbox: Inboxes, consumer: Consumer, movers: Movers, start: nat,
    i: nat, sid: nat, p: nat, o: nat, record: Record<E>) returns (k: nat)
    requires ConsumerRun(g, topic, inbox, consumer, movers, start) && NoSessionStalls(g, topic, movers, start)
    requires start <= i && Serves(g(i), sid, p) && AtRecord(topic(i), p, o, record)
    ensures i <= k && Processed(inbox(k), consumer, record)
    decreases 4 * o + 1 - Rank(g(i).sessions[sid])
  {
    var s := g(i).sessions[sid];
    if 4 * o < Rank(s) {
      assert ConsumerTurn(g, topic, inbox, consumer, movers, i);
      PassedIsProcessed(g(i), topic(i), inbox(i), consumer, sid, p, o, record);
      k := i;
    } else {
      assert CanMove(topic(i), s) && GoesOn(g, topic, movers, i, sid);
      var j: nat :| i <= j && movers(j) == Some(sid);
      var l := NextTurn(g, topic, inbox, consumer, movers, start, i, j, sid);
      RecordStays(g, topic, inbox, consumer, movers, start, i, l + 1, p, o, record);
      k := SessionPasses(g, topic, inbox, consumer, movers, start, l + 1, sid, p, o, record);
    }
  }

  /** Every record of the topic is processed, sooner or later. */
  lemma RecordIsProcessed<E>(
    g: Groups, topic: Topics<E>, inbox: Inboxes, consumer: Consumer, movers: Movers, start: nat,
    i: nat, p: nat, o: nat, record: Record<E>) returns (k: nat)
    requires ConsumerRun(g, topic, inbox, consumer, movers, start) && FairConsumers(g, topic, movers, start)
    requires start <= i && AtRecord(topic(i), p, o, record)
    ensures i <= k && Processed(inbox(k), consumer, record)
  {
    assert IsServed(g, topic, i, p);
    var j: nat, sid: nat :| i <= j && Serves(g(j), sid, p);
    RecordStays(g, topic, inbox, consumer, movers, start, i, j, p, o, record);
    k := SessionPasses(g, topic, inbox, consumer, movers, start, j, sid, p, o, record);
  }
}
