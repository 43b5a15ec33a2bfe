/** A Kafka consumer group as the two workers use it: manual asynchronous commits, restarts from the
    committed offset, and any number of sessions, live or stale, on one partition
    (src/bin/inventory-worker.rs:91-121, src/bin/orders-worker.rs:83-109). */
module Consumers {
  import opened Prelude
  import opened Orders
  import opened Outbox

  /** Where a session is with the record at its position. `Stale` and `Loaded` are the inventory
      worker's cache refresh between its transaction and its commit. */
  datatype SessionPhase = Waiting | Stale(sku: string) | Loaded(sku: string, quantity: Option<i32>) | Done

  datatype Session = Session(partition: nat, position: nat, phase: SessionPhase)

  /** Committed offsets by partition, sessions, and commit requests still on their way. */
  datatype Group = Group(committed: seq<nat>, sessions: map<nat, Session>, commits: set<(nat, nat)>)

  datatype GroupStep =
    | Assign(session: nat, partition: nat)
    | Skip(session: nat)
    | Commit(session: nat)
    | Drop(session: nat)
    | Land(partition: nat, offset: nat)
    | Lose(partition: nat, offset: nat)

  predicate HasRecord<E>(topic: seq<seq<Record<E>>>, s: Session)
  {
    s.partition < |topic| && s.position < |topic[s.partition]|
  }

  function RecordAt<E>(topic: seq<seq<Record<E>>>, s: Session): Record<E>
    requires HasRecord(topic, s)
  {
    topic[s.partition][s.position]
  }

  predicate GroupEnabled<E>(g: Group, topic: seq<seq<Record<E>>>, step: GroupStep)
  {
    match step
    case Assign(sid, p) => sid !in g.sessions && p < |g.committed|
    case Skip(sid) =>
      && sid in g.sessions && g.sessions[sid].phase == Waiting
      && HasRecord(topic, g.sessions[sid]) && RecordAt(topic, g.sessions[sid]).Malformed?
    case Commit(sid) => sid in g.sessions && g.sessions[sid].phase == Done
    case Drop(sid) => sid in g.sessions
    case Land(p, o) => (p, o) in g.commits && p < |g.committed|
    case Lose(p, o) => (p, o) in g.commits
  }

  function SetSession(g: Group, sid: nat, phase: SessionPhase): Group
    requires sid in g.sessions
  {
    g.(sessions := g.sessions[sid := g.sessions[sid].(phase := phase)])
  }

  function GroupApply<E>(g: Group, topic: seq<seq<Record<E>>>, step: GroupStep): Group
    requires GroupEnabled(g, topic, step)
  {
    match step
    case Assign(sid, p) => g.(sessions := g.sessions[sid := Session(p, g.committed[p], Waiting)])
    case Skip(sid) => SetSession(g, sid, Done)
    case Commit(sid) =>
      var s := g.sessions[sid];
      g.(sessions := g.sessions[sid := Session(s.partition, s.position + 1, Waiting)],
         commits := g.commits + {(s.partition, s.position + 1)})
    case Drop(sid) => g.(sessions := g.sessions - {sid})
    case Land(p, o) => g.(committed := g.committed[p := o], commits := g.commits - {(p, o)})
    case Lose(p, o) => g.(commits := g.commits - {(p, o)})
  }

  /** Every well-formed record of partition `p` below offset `n` has been recorded in the inbox. */
  ghost predicate Covered<E>(topic: seq<seq<Record<E>>>, inbox: set<(Uuid, Consumer)>, consumer: Consumer, p: nat,
      n: nat)
  {
    && p < |topic| && n <= |topic[p]|
    && forall o | 0 <= o < n :: topic[p][o].Good? ==> (topic[p][o].message.id, consumer) in inbox
  }

  function Reached(s: Session): nat
  {
    if s.phase == Waiting then s.position else s.position + 1
  }

  /** Whatever is committed, on its way to be committed, or behind a session, has been processed. */
  ghost predicate GroupInv<E>(g: Group, topic: seq<seq<Record<E>>>, inbox: set<(Uuid, Consumer)>, consumer: Consumer)
  {
    && |g.committed| == |topic|
    && (forall p | 0 <= p < |topic| :: Covered(topic, inbox, consumer, p, g.committed[p]))
    && (forall sid | sid in g.sessions ::
          Covered(topic, inbox, consumer, g.sessions[sid].partition, Reached(g.sessions[sid])))
    && (forall c | c in g.commits :: Covered(topic, inbox, consumer, c.0, c.1))
  }

  lemma CoverOneMore<E>(topic: seq<seq<Record<E>>>, inbox: set<(Uuid, Consumer)>, consumer: Consumer, s: Session)
    requires Covered(topic, inbox, consumer, s.partition, s.position) && HasRecord(topic, s)
    requires RecordAt(topic, s).Good? ==> (RecordAt(topic, s).message.id, consumer) in inbox
    ensures Covered(topic, inbox, consumer, s.partition, s.position + 1)
  {
  }

  lemma GroupStepKeeps<E>(
    g: Group, topic: seq<seq<Record<E>>>, inbox: set<(Uuid, Consumer)>, consumer: Consumer, step: GroupStep)
    requires GroupInv(g, topic, inbox, consumer) && GroupEnabled(g, topic, step)
    ensures GroupInv(GroupApply(g, topic, step), topic, inbox, consumer)
  {
    match step {
      case Skip(sid) =>
        CoverOneMore(topic, inbox, consumer, g.sessions[sid]);
      case _ =>
    }
  }

  /** A record that is done with is committed as the offset behind it; once that has landed, the next session
      of the partition starts there, and nothing else of the group has changed. */
  lemma RestartsBehindCommitted<E>(g: Group, topic: seq<seq<Record<E>>>, sid: nat, next: nat)
    requires sid in g.sessions && g.sessions[sid].phase == Done && g.sessions[sid].partition < |g.committed|
    requires next !in g.sessions
    ensures var p, o := g.sessions[sid].partition, g.sessions[sid].position + 1;
            && GroupEnabled(g, topic, Commit(sid))
            && var requested := GroupApply(g, topic, Commit(sid));
               && requested == Group(g.committed, g.sessions[sid := Session(p, o, Waiting)], g.commits + {(p, o)})
               && GroupEnabled(requested, topic, Land(p, o))
               && var landed := GroupApply(requested, topic, Land(p, o));
                  && landed == Group(g.committed[p := o], requested.sessions, g.commits - {(p, o)})
                  && GroupEnabled(landed, topic, Assign(next, p))
                  && GroupApply(landed, topic, Assign(next, p))
                     == landed.(sessions := landed.sessions[next := Session(p, o, Waiting)])
  {
    assert g.commits + {(g.sessions[sid].partition, g.sessions[sid].position + 1)}
           - {(g.sessions[sid].partition, g.sessions[sid].position + 1)}
        == g.commits - {(g.sessions[sid].partition, g.sessions[sid].position + 1)};
  }

  /** A session moves on within its record once that record is in the inbox. */
  lemma ProcessedKeeps<E>(
    g: Group, topic: seq<seq<Record<E>>>, inbox: set<(Uuid, Consumer)>, consumer: Consumer, sid: nat,
        phase: SessionPhase)
    requires GroupInv(g, topic, inbox, consumer) && sid in g.sessions && HasRecord(topic, g.sessions[sid])
    requires RecordAt(topic, g.sessions[sid]).Good? ==> (RecordAt(topic, g.sessions[sid]).message.id, consumer) in inbox
    ensures GroupInv(SetSession(g, sid, phase), topic, inbox, consumer)
  {
    assert Covered(topic, inbox, consumer, g.sessions[sid].partition, g.sessions[sid].position);
    CoverOneMore(topic, inbox, consumer, g.sessions[sid]);
  }

  /** Appending records and recording more messages only helps. */
  ghost predicate TopicGrows<E>(before: seq<seq<Record<E>>>, after: seq<seq<Record<E>>>)
  {
    |after| == |before| && forall p | 0 <= p < |before| :: before[p] <= after[p]
  }

  lemma GrowthKeepsGroup<E>(
    g: Group, topic: seq<seq<Record<E>>>, inbox: set<(Uuid, Consumer)>, consumer: Consumer,
    topic': seq<seq<Record<E>>>, inbox': set<(Uuid, Consumer)>)
    requires GroupInv(g, topic, inbox, consumer) && TopicGrows(topic, topic') && inbox <= inbox'
    ensures GroupInv(g, topic', inbox', consumer)
  {
    forall p: nat, n: nat | Covered(topic, inbox, consumer, p, n) ensures Covered(topic', inbox', consumer, p, n) {
      assert topic[p] <= topic'[p];
    }
  }
}
