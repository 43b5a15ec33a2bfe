/** The transactional outbox: its table, the Kafka topic it feeds, and the protocol by which any
    number of publisher replicas lease rows, send them and mark them
    (src/orders/store.rs:333-410, src/orders/worker.rs:40-83). */
module Outbox {
  import opened Prelude
  import opened Orders

  /** Microseconds of the database clock. */
  type Time = int

  const OUTBOX_LOCK: Time := 300_000_000
  const BATCH_LIMIT: nat := 50

  /** What a row carries to the topic: the message id is the Kafka key, the event the payload. */
  datatype Message<E> = Message(id: Uuid, event: E)

  datatype Row<E> = Row(
    message: Message<E>, published: bool, lockedUntil: Option<Time>, retryCount: nat, lastError: Option<string>)

  type Table<E> = map<nat, Row<E>>

  function NewRow<E>(message: Message<E>): Row<E>
  {
    Row(message, false, None, 0, None)
  }

  /** The messages of a table, without the publishing columns. */
  function Content<E>(rows: Table<E>): (c: map<nat, Message<E>>)
    ensures c.Keys == rows.Keys
  {
    map id | id in rows :: rows[id].message
  }

  // ----- The three statements -----

  predicate Claimable<E>(row: Row<E>, now: Time)
  {
    !row.published && (row.lockedUntil.None? || row.lockedUntil.value <= now)
  }

  function ClaimableIds<E>(rows: Table<E>, now: Time): set<nat>
  {
    set id | id in rows && Claimable(rows[id], now)
  }

  function Minimum(ids: set<nat>): (m: nat)
    requires ids != {}
    ensures m in ids && forall id :: id in ids ==> m <= id
  {
    assert exists m :: m in ids && forall id :: id in ids ==> m <= id by { var m := MinimumExists(ids); }
    var m :| m in ids && forall id :: id in ids ==> m <= id;
    m
  }

  lemma {:induction false} MinimumExists(ids: set<nat>) returns (m: nat)
    requires ids != {}
    ensures m in ids && forall id :: id in ids ==> m <= id
    decreases |ids|
  {
    var k :| k in ids;
    var rest := ids - {k};
    assert forall id | id in ids :: id == k || id in rest;
    if rest == {} {
      m := k;
    } else {
      var least := MinimumExists(rest);
      m := if least < k then least else k;
    }
  }

  /** `ORDER BY "Id" LIMIT limit` over a set of row ids. */
  function Lowest(ids: set<nat>, limit: nat): (r: set<nat>)
    ensures r <= ids
    ensures |r| <= limit
    ensures forall a, b :: a in r && b in ids && b !in r ==> a < b
    ensures |r| < limit ==> r == ids
    decreases limit
  {
    if limit == 0 || ids == {} then {}
    else
      var m := Minimum(ids);
      {m} + Lowest(ids - {m}, limit - 1)
  }

  /** Everything left out of `r` is above everything in it. */
  predicate LowerPart(r: set<nat>, ids: set<nat>)
  {
    r <= ids && forall a, b | a in r && b in ids - r :: a < b
  }

  lemma LowerPartGrows(r: set<nat>, ids: set<nat>)
    requires LowerPart(r, ids) && ids - r != {}
    ensures LowerPart(r + {Minimum(ids - r)}, ids)
  {
    var m := Minimum(ids - r);
    forall a, b | a in r + {m} && b in ids - (r + {m}) ensures a < b {
      assert b in ids - r;
    }
  }

  lemma LowerPartHasMinimum(r: set<nat>, ids: set<nat>)
    requires LowerPart(r, ids) && r != {}
    ensures Minimum(ids) in r && LowerPart(r - {Minimum(ids)}, ids - {Minimum(ids)})
  {
    var m := Minimum(ids);
    var a :| a in r;
    assert m in r by {
      assert m <= a;
      assert m in ids - r ==> a < m;
    }
    assert ids - {m} - (r - {m}) == ids - r;
  }

  lemma WithoutOne(r: set<nat>, m: nat)
    requires m in r
    ensures |r - {m}| == |r| - 1 && {m} + (r - {m}) == r
  {
  }

  /** `Lowest` is the only lower part with `limit` ids, or with all of them when there are fewer. */
  lemma {:induction false} LowestIsUnique(ids: set<nat>, limit: nat, r: set<nat>)
    requires LowerPart(r, ids) && |r| <= limit && (|r| < limit ==> r == ids)
    ensures r == Lowest(ids, limit)
    decreases limit
  {
    if limit == 0 || ids == {} {
      assert r == {};
    } else {
      var m := Minimum(ids);
      assert r != {};
      LowerPartHasMinimum(r, ids);
      WithoutOne(r, m);
      LowestIsUnique(ids - {m}, limit - 1, r - {m});
    }
  }

  predicate Distinct(ids: seq<nat>)
  {
    forall i, j :: 0 <= i < j < |ids| ==> ids[i] != ids[j]
  }

  function Elements(ids: seq<nat>): set<nat>
  {
    set id | id in ids
  }

  /** The rows a leasing statement returns, in some order: the lowest claimable ids among those no
      concurrent transaction holds a row lock on. */
  predicate IsPick<E>(rows: Table<E>, skipped: set<nat>, now: Time, picked: seq<nat>)
  {
    && Distinct(picked)
    && Elements(picked) == Lowest(ClaimableIds(rows, now) - skipped, BATCH_LIMIT)
  }

  function Lease<E>(rows: Table<E>, ids: set<nat>, until: Time): Table<E>
  {
    map id | id in rows :: if id in ids then rows[id].(lockedUntil := Some(until)) else rows[id]
  }

  function MarkPublished<E>(rows: Table<E>, id: nat): Table<E>
  {
    if id in rows then rows[id := rows[id].(published := true, lockedUntil := None, lastError := None)] else rows
  }

  function MarkFailed<E>(rows: Table<E>, id: nat, error: string): Table<E>
  {
    if id in rows
    then rows[id := rows[id].(retryCount := rows[id].retryCount + 1, lockedUntil := None, lastError := Some(error))]
    else rows
  }

  // ----- The protocol -----

  /** A well-formed Kafka record, or one that does not decode. */
  datatype Record<E> = Good(message: Message<E>) | Malformed

  /** Where a replica is with the first row of its batch. */
  datatype Phase = Ready | Sending | Acked | Nacked

  datatype Batch = Batch(remaining: seq<nat>, phase: Phase, leasedAt: Time)

  /** An outbox table, the batches in flight by replica, the rows handed to a producer at least
      once, and the partitions of the topic. */
  datatype Channel<E> = Channel(
    rows: Table<E>, batches: map<nat, Batch>, handed: set<nat>, topic: seq<seq<Record<E>>>)

  /** One atomic action. `Append` is separate from `Ack` and `Nack`: a record may reach the log any
      number of times, before, after or without the producer learning about it. */
  datatype PubStep =
    | Claim(replica: nat, skipped: set<nat>, picked: seq<nat>, now: Time)
    | HandOver(replica: nat)
    | Append(row: nat, partition: nat)
    | Ack(replica: nat)
    | Nack(replica: nat)
    | Publish(replica: nat)
    | Fail(replica: nat, error: string)
    | Crash(replica: nat)
    | Garbage(partition: nat)

  ghost predicate Logged<E>(topic: seq<seq<Record<E>>>, message: Message<E>)
  {
    exists p, o | 0 <= p < |topic| && 0 <= o < |topic[p]| :: topic[p][o] == Good(message)
  }

  predicate InPhase(batches: map<nat, Batch>, replica: nat, phase: Phase)
  {
    replica in batches && batches[replica].remaining != [] && batches[replica].phase == phase
  }

  /** `now` is the start time of the leasing transaction, so it may lag behind the clock. */
  ghost predicate PubEnabled<E>(c: Channel<E>, clock: Time, step: PubStep)
  {
    match step
    case Claim(r, skipped, picked, now) =>
      r !in c.batches && now <= clock && picked != [] && IsPick(c.rows, skipped, now, picked)
    case HandOver(r) => InPhase(c.batches, r, Ready)
    case Append(row, p) => row in c.handed && row in c.rows && p < |c.topic|
    case Ack(r) =>
      && InPhase(c.batches, r, Sending)
      && var row := c.batches[r].remaining[0]; row in c.rows && Logged(c.topic, c.rows[row].message)
    case Nack(r) => InPhase(c.batches, r, Sending)
    case Publish(r) => InPhase(c.batches, r, Acked)
    case Fail(r, _) => InPhase(c.batches, r, Nacked)
    case Crash(r) => r in c.batches
    case Garbage(p) => p < |c.topic|
  }

  function SetPhase<E>(c: Channel<E>, r: nat, phase: Phase): Channel<E>
    requires r in c.batches
  {
    c.(batches := c.batches[r := c.batches[r].(phase := phase)])
  }

  /** The replica goes on to the next row of its batch, or becomes idle. */
  function Advance<E>(c: Channel<E>, r: nat): Channel<E>
    requires r in c.batches && c.batches[r].remaining != []
  {
    var b := c.batches[r];
    if |b.remaining| == 1 then c.(batches := c.batches - {r})
    else c.(batches := c.batches[r := b.(remaining := b.remaining[1..], phase := Ready)])
  }

  function AppendRecord<E>(topic: seq<seq<Record<E>>>, p: nat, record: Record<E>): seq<seq<Record<E>>>
    requires p < |topic|
  {
    topic[p := topic[p] + [record]]
  }

  function PubApply<E>(c: Channel<E>, clock: Time, step: PubStep): Channel<E>
    requires PubEnabled(c, clock, step)
  {
    match step
    case Claim(r, _, picked, now) =>
      c.(rows := Lease(c.rows, Elements(picked), now + OUTBOX_LOCK),
         batches := c.batches[r := Batch(picked, Ready, now)])
    case HandOver(r) =>
      SetPhase(c, r, Sending).(handed := c.handed + {c.batches[r].remaining[0]})
    case Append(row, p) => c.(topic := AppendRecord(c.topic, p, Good(c.rows[row].message)))
    case Ack(r) => SetPhase(c, r, Acked)
    case Nack(r) => SetPhase(c, r, Nacked)
    case Publish(r) => Advance(c.(rows := MarkPublished(c.rows, c.batches[r].remaining[0])), r)
    case Fail(r, error) => Advance(c.(rows := MarkFailed(c.rows, c.batches[r].remaining[0], error)), r)
    case Crash(r) => c.(batches := c.batches - {r})
    case Garbage(p) => c.(topic := AppendRecord(c.topic, p, Malformed))
  }

  /** The replica has leased these rows. */
  function Claimed<E>(c: Channel<E>, r: nat, picked: seq<nat>, now: Time): Channel<E>
  {
    Channel(Lease(c.rows, Elements(picked), now + OUTBOX_LOCK), c.batches[r := Batch(picked, Ready, now)], c.handed,
        c.topic)
  }

  lemma ClaimIsEnabled<E>(c: Channel<E>, clock: Time, r: nat, skipped: set<nat>, picked: seq<nat>, now: Time)
    requires r !in c.batches && now <= clock && picked != [] && IsPick(c.rows, skipped, now, picked)
    ensures PubEnabled(c, clock, Claim(r, skipped, picked, now))
  {
  }

  lemma ClaimIsApplied<E>(c: Channel<E>, clock: Time, claim: PubStep)
    requires claim.Claim? && PubEnabled(c, clock, claim)
    ensures PubApply(c, clock, claim) == Claimed(c, claim.replica, claim.picked, claim.now)
  {
  }

  lemma ClaimStep<E>(c: Channel<E>, clock: Time, r: nat, skipped: set<nat>, picked: seq<nat>, now: Time)
    requires r !in c.batches && now <= clock && picked != [] && IsPick(c.rows, skipped, now, picked)
    ensures PubEnabled(c, clock, Claim(r, skipped, picked, now))
    ensures PubApply(c, clock, Claim(r, skipped, picked, now)) == Claimed(c, r, picked, now)
  {
    ClaimIsEnabled(c, clock, r, skipped, picked, now);
    ClaimIsApplied(c, clock, Claim(r, skipped, picked, now));
  }

  // ----- Runs of the protocol -----

  ghost predicate PubValid<E>(c: Channel<E>, clock: Time, pubs: seq<PubStep>)
    decreases |pubs|
  {
    pubs == [] || (PubEnabled(c, clock, pubs[0]) && PubValid(PubApply(c, clock, pubs[0]), clock, pubs[1..]))
  }

  ghost function PubExec<E>(c: Channel<E>, clock: Time, pubs: seq<PubStep>): Channel<E>
    requires PubValid(c, clock, pubs)
    decreases |pubs|
  {
    if pubs == [] then c else PubExec(PubApply(c, clock, pubs[0]), clock, pubs[1..])
  }

  lemma PubCons<E>(c: Channel<E>, clock: Time, pub: PubStep, rest: seq<PubStep>)
    requires PubEnabled(c, clock, pub) && PubValid(PubApply(c, clock, pub), clock, rest)
    ensures PubValid(c, clock, [pub] + rest)
    ensures PubExec(c, clock, [pub] + rest) == PubExec(PubApply(c, clock, pub), clock, rest)
  {
    assert ([pub] + rest)[1..] == rest;
  }

  lemma PubOne<E>(c: Channel<E>, clock: Time, pub: PubStep)
    requires PubEnabled(c, clock, pub)
    ensures PubValid(c, clock, [pub]) && PubExec(c, clock, [pub]) == PubApply(c, clock, pub)
  {
    assert [pub][1..] == [];
  }

  lemma {:induction false} PubAppend<E>(c: Channel<E>, clock: Time, pubs: seq<PubStep>, pub: PubStep)
    requires PubValid(c, clock, pubs) && PubEnabled(PubExec(c, clock, pubs), clock, pub)
    ensures PubValid(c, clock, pubs + [pub])
    ensures PubExec(c, clock, pubs + [pub]) == PubApply(PubExec(c, clock, pubs), clock, pub)
    decreases |pubs|
  {
    if pubs == [] {
      PubOne(c, clock, pub);
      assert [] + [pub] == [pub];
    } else {
      var next, rest := PubApply(c, clock, pubs[0]), pubs[1..] + [pub];
      PubAppend(next, clock, pubs[1..], pub);
      PubCons(c, clock, pubs[0], rest);
      assert pubs + [pub] == [pubs[0]] + rest;
    }
  }

  // ----- What every step keeps -----

  ghost predicate FromRows<E>(rows: Table<E>, message: Message<E>)
  {
    exists id :: id in rows && rows[id].message == message
  }

  ghost predicate TopicFromRows<E>(rows: Table<E>, topic: seq<seq<Record<E>>>)
  {
    forall p, o | 0 <= p < |topic| && 0 <= o < |topic[p]| :: topic[p][o].Good? ==> FromRows(rows, topic[p][o].message)
  }

  ghost predicate BatchesWellFormed<E>(c: Channel<E>)
  {
    forall r | r in c.batches ::
      && c.batches[r].remaining != []
      && (forall id | id in c.batches[r].remaining :: id in c.rows)
      && (c.batches[r].phase == Acked ==> Logged(c.topic, c.rows[c.batches[r].remaining[0]].message))
  }

  ghost predicate PublishedAreLogged<E>(c: Channel<E>)
  {
    forall id | id in c.rows && c.rows[id].published :: Logged(c.topic, c.rows[id].message)
  }

  /** No lease reaches further than one lock period past the clock. */
  ghost predicate LeasesBounded<E>(rows: Table<E>, clock: Time)
  {
    forall id | id in rows && rows[id].lockedUntil.Some? :: rows[id].lockedUntil.value <= clock + OUTBOX_LOCK
  }

  ghost predicate ChannelInv<E>(c: Channel<E>, clock: Time)
  {
    && BatchesWellFormed(c)
    && c.handed <= c.rows.Keys
    && TopicFromRows(c.rows, c.topic)
    && PublishedAreLogged(c)
    && LeasesBounded(c.rows, clock)
  }

  /** The publishing columns change; messages and row ids never do, and `published` is never reset. */
  ghost predicate RowsKept<E>(before: Table<E>, after: Table<E>)
  {
    && after.Keys == before.Keys
    && forall id | id in before ::
      after[id].message == before[id].message && (before[id].published ==> after[id].published)
  }

  lemma LoggedStays<E>(topic: seq<seq<Record<E>>>, p: nat, record: Record<E>, message: Message<E>)
    requires p < |topic| && Logged(topic, message)
    ensures Logged(AppendRecord(topic, p, record), message)
  {
    var q, o :| 0 <= q < |topic| && 0 <= o < |topic[q]| && topic[q][o] == Good(message);
    assert AppendRecord(topic, p, record)[q][o] == Good(message);
  }

  lemma PubKeepsRows<E>(c: Channel<E>, clock: Time, step: PubStep)
    requires BatchesWellFormed(c) && PubEnabled(c, clock, step)
    ensures RowsKept(c.rows, PubApply(c, clock, step).rows)
  {
  }

  lemma FromRowsKept<E>(before: Table<E>, after: Table<E>)
    requires RowsKept(before, after)
    ensures forall m: Message<E> :: FromRows(before, m) ==> FromRows(after, m)
  {
    forall m: Message<E> | FromRows(before, m) ensures FromRows(after, m) {
      var id :| id in before && before[id].message == m;
      assert after[id].message == m;
    }
  }

  /** Every step of the publishing protocol keeps the channel invariant: whatever is lost, repeated
      or retried, the topic holds only messages of rows, and a published row is in the topic. */
  lemma PubKeepsChannel<E>(c: Channel<E>, clock: Time, step: PubStep)
    requires ChannelInv(c, clock) && PubEnabled(c, clock, step)
    ensures ChannelInv(PubApply(c, clock, step), clock)
  {
    var after := PubApply(c, clock, step);
    match step {
      case Append(row, p) =>
        AppendKeeps(c, Good(c.rows[row].message), p);
      case Garbage(p) =>
        AppendKeeps(c, Malformed, p);
      case _ =>
        assert after.topic == c.topic;
        PubKeepsRows(c, clock, step);
        FromRowsKept(c.rows, after.rows);
        PubKeepsBatches(c, clock, step);
        PubKeepsPublished(c, clock, step);
    }
  }

  lemma PubKeepsBatches<E>(c: Channel<E>, clock: Time, step: PubStep)
    requires BatchesWellFormed(c) && PubEnabled(c, clock, step) && !step.Append? && !step.Garbage?
    ensures BatchesWellFormed(PubApply(c, clock, step))
  {
    PubKeepsRows(c, clock, step);
    match step {
      case Claim(r, skipped, picked, now) =>
        ClaimIsApplied(c, clock, step);
        ClaimedIsWellFormed(c, r, skipped, picked, now);
      case _ =>
    }
  }

  lemma ClaimedIsWellFormed<E>(c: Channel<E>, r: nat, skipped: set<nat>, picked: seq<nat>, now: Time)
    requires BatchesWellFormed(c) && picked != [] && IsPick(c.rows, skipped, now, picked)
    ensures BatchesWellFormed(Claimed(c, r, picked, now))
  {
    assert forall id | id in picked :: id in Elements(picked);
  }

  lemma PubKeepsPublished<E>(c: Channel<E>, clock: Time, step: PubStep)
    requires BatchesWellFormed(c) && PublishedAreLogged(c)
    requires PubEnabled(c, clock, step) && !step.Append? && !step.Garbage?
    ensures PublishedAreLogged(PubApply(c, clock, step))
  {
    match step {
      case Publish(r) =>
        assert Logged(c.topic, c.rows[c.batches[r].remaining[0]].message);
      case _ =>
    }
  }

  lemma AppendKeeps<E>(c: Channel<E>, record: Record<E>, p: nat)
    requires p < |c.topic| && (record.Good? ==> FromRows(c.rows, record.message))
    requires BatchesWellFormed(c) && TopicFromRows(c.rows, c.topic) && PublishedAreLogged(c)
    ensures var after := c.(topic := AppendRecord(c.topic, p, record));
            BatchesWellFormed(after) && TopicFromRows(after.rows, after.topic) && PublishedAreLogged(after)
  {
    forall m: Message<E> | Logged(c.topic, m) ensures Logged(AppendRecord(c.topic, p, record), m) {
      LoggedStays(c.topic, p, record, m);
    }
  }

  /** A new row joins the table (the INSERT of the two transactions). */
  lemma InsertKeepsChannel<E>(c: Channel<E>, clock: Time, id: nat, message: Message<E>)
    requires ChannelInv(c, clock) && id !in c.rows
    ensures ChannelInv(c.(rows := c.rows[id := NewRow(message)]), clock)
  {
    var rows := c.rows[id := NewRow(message)];
    forall m: Message<E> | FromRows(c.rows, m) ensures FromRows(rows, m) {
      var k :| k in c.rows && c.rows[k].message == m;
      assert rows[k].message == m;
    }
  }

  // ----- Leases -----

  ghost predicate Disjoint(a: Batch, b: Batch)
  {
    forall id | id in a.remaining :: id !in b.remaining
  }

  /** No row is in the unfinished part of two replicas' batches. */
  ghost predicate LeasesExclusive(batches: map<nat, Batch>)
  {
    forall r, q | r in batches && q in batches && r != q :: Disjoint(batches[r], batches[q])
  }

  /** Every unfinished batch is younger than the lock period. */
  ghost predicate InTime(batches: map<nat, Batch>, clock: Time)
  {
    forall r | r in batches :: clock < batches[r].leasedAt + OUTBOX_LOCK
  }

  /** The unfinished rows of a batch are distinct and locked for it. */
  ghost predicate Held<E>(rows: Table<E>, b: Batch)
  {
    && Distinct(b.remaining)
    && forall id | id in b.remaining :: id in rows && rows[id].lockedUntil == Some(b.leasedAt + OUTBOX_LOCK)
  }

  ghost predicate LeasesHeld<E>(c: Channel<E>)
  {
    forall r | r in c.batches :: Held(c.rows, c.batches[r])
  }

  /** One step from exclusive leases to exclusive leases. Only the state before the step has to be in time. */
  lemma PubKeepsExclusion<E>(c: Channel<E>, clock: Time, step: PubStep)
    requires LeasesExclusive(c.batches) && LeasesHeld(c) && InTime(c.batches, clock)
    requires BatchesWellFormed(c) && PubEnabled(c, clock, step)
    ensures var after := PubApply(c, clock, step); LeasesExclusive(after.batches) && LeasesHeld(after)
  {
    match step {
      case Claim(r, skipped, picked, now) =>
        ClaimKeepsExclusion(c, clock, r, skipped, picked, now);
        ClaimIsApplied(c, clock, step);
      case Publish(r) =>
        AdvanceKeepsExclusion(c, r, MarkPublished(c.rows, c.batches[r].remaining[0]));
      case Fail(r, error) =>
        AdvanceKeepsExclusion(c, r, MarkFailed(c.rows, c.batches[r].remaining[0], error));
      case Crash(r) =>
        ShrinkingKeepsExclusion(c.batches, PubApply(c, clock, step).batches);
      case _ =>
        PhaseKeepsExclusion(c, PubApply(c, clock, step));
    }
  }

  /** A batch in time shares no row with what a leasing statement picks. */
  lemma PickAvoids<E>(rows: Table<E>, b: Batch, clock: Time, skipped: set<nat>, now: Time, picked: seq<nat>)
    requires Held(rows, b) && now <= clock < b.leasedAt + OUTBOX_LOCK
    requires IsPick(rows, skipped, now, picked)
    ensures forall id | id in picked :: id !in b.remaining
  {
    forall id | id in picked ensures id !in b.remaining {
      assert id in Elements(picked);
      assert Claimable(rows[id], now);
    }
  }

  lemma LeaseKeepsHeld<E>(rows: Table<E>, b: Batch, picked: seq<nat>, until: Time)
    requires Held(rows, b) && forall id | id in picked :: id !in b.remaining
    ensures Held(Lease(rows, Elements(picked), until), b)
  {
    forall id | id in b.remaining ensures id !in Elements(picked) {
    }
  }

  lemma LeasedIsHeld<E>(rows: Table<E>, skipped: set<nat>, picked: seq<nat>, now: Time)
    requires IsPick(rows, skipped, now, picked)
    ensures Held(Lease(rows, Elements(picked), now + OUTBOX_LOCK), Batch(picked, Ready, now))
  {
    forall id | id in picked
      ensures id in Lease(rows, Elements(picked), now + OUTBOX_LOCK)
              && Lease(rows, Elements(picked), now + OUTBOX_LOCK)[id].lockedUntil == Some(now + OUTBOX_LOCK)
    {
      PickedIsLeased(rows, skipped, picked, now, id);
    }
  }

  lemma PickedIsLeased<E>(rows: Table<E>, skipped: set<nat>, picked: seq<nat>, now: Time, id: nat)
    requires IsPick(rows, skipped, now, picked) && id in picked
    ensures var leased := Lease(rows, Elements(picked), now + OUTBOX_LOCK);
            id in leased && leased[id].lockedUntil == Some(now + OUTBOX_LOCK)
  {
    assert id in Elements(picked);
  }

  lemma NewBatchKeepsExclusion(batches: map<nat, Batch>, r: nat, b: Batch)
    requires LeasesExclusive(batches) && r !in batches
    requires forall q | q in batches :: Disjoint(batches[q], b) && Disjoint(b, batches[q])
    ensures LeasesExclusive(batches[r := b])
  {
  }

  lemma ClaimKeepsExclusion<E>(c: Channel<E>, clock: Time, r: nat, skipped: set<nat>, picked: seq<nat>, now: Time)
    requires LeasesExclusive(c.batches) && LeasesHeld(c) && InTime(c.batches, clock)
    requires r !in c.batches && now <= clock && IsPick(c.rows, skipped, now, picked)
    ensures LeasesExclusive(Claimed(c, r, picked, now).batches) && LeasesHeld(Claimed(c, r, picked, now))
  {
    var b, rows := Batch(picked, Ready, now), Lease(c.rows, Elements(picked), now + OUTBOX_LOCK);
    LeasedIsHeld(c.rows, skipped, picked, now);
    forall q | q in c.batches
      ensures Disjoint(c.batches[q], b) && Disjoint(b, c.batches[q]) && Held(rows, c.batches[q])
    {
      PickAvoids(c.rows, c.batches[q], clock, skipped, now, picked);
      LeaseKeepsHeld(c.rows, c.batches[q], picked, now + OUTBOX_LOCK);
    }
    NewBatchKeepsExclusion(c.batches, r, b);
  }

  /** A batch with fewer rows of the same lease. */
  ghost predicate PartOf(small: Batch, big: Batch)
  {
    small.leasedAt == big.leasedAt && forall id | id in small.remaining :: id in big.remaining
  }

  lemma ShrinkingKeepsExclusion(before: map<nat, Batch>, after: map<nat, Batch>)
    requires LeasesExclusive(before)
    requires forall r | r in after :: r in before && PartOf(after[r], before[r])
    ensures LeasesExclusive(after)
  {
    forall r, q | r in after && q in after && r != q ensures Disjoint(after[r], after[q]) {
      assert Disjoint(before[r], before[q]);
    }
  }

  lemma PhaseKeepsExclusion<E>(c: Channel<E>, after: Channel<E>)
    requires LeasesExclusive(c.batches) && LeasesHeld(c)
    requires after.rows == c.rows && after.batches.Keys == c.batches.Keys
    requires forall r | r in c.batches :: after.batches[r].(phase := Ready) == c.batches[r].(phase := Ready)
    ensures LeasesExclusive(after.batches) && LeasesHeld(after)
  {
    forall r | r in c.batches ensures PartOf(after.batches[r], c.batches[r]) && Held(after.rows, after.batches[r]) {
      assert Held(c.rows, c.batches[r]);
      assert after.batches[r].(phase := Ready).remaining == c.batches[r].(phase := Ready).remaining;
      assert after.batches[r].(phase := Ready).leasedAt == c.batches[r].(phase := Ready).leasedAt;
    }
    ShrinkingKeepsExclusion(c.batches, after.batches);
  }

  /** Marking the first row of a batch touches no row another batch still holds. */
  lemma AdvanceKeepsExclusion<E>(c: Channel<E>, r: nat, rows: Table<E>)
    requires LeasesExclusive(c.batches) && LeasesHeld(c) && r in c.batches && c.batches[r].remaining != []
    requires rows.Keys == c.rows.Keys
    requires forall id | id in c.rows && id != c.batches[r].remaining[0] :: rows[id] == c.rows[id]
    ensures var after := Advance(c.(rows := rows), r); LeasesExclusive(after.batches) && LeasesHeld(after)
  {
    var after := Advance(c.(rows := rows), r);
    var first := c.batches[r].remaining[0];
    forall q | q in after.batches ensures PartOf(after.batches[q], c.batches[q]) && Held(rows, after.batches[q]) {
      assert Held(c.rows, c.batches[q]);
      if q != r {
        assert Disjoint(c.batches[r], c.batches[q]);
        assert first in c.batches[r].remaining;
      }
    }
    ShrinkingKeepsExclusion(c.batches, after.batches);
  }

  /** A leasing statement never returns a published row, and returns every row in `Id` order up to
      its limit: anything it leaves is published, leased, held, or above everything it returns. */
  lemma ClaimReturnsOldestOpenRows<E>(rows: Table<E>, skipped: set<nat>, now: Time, picked: seq<nat>)
    requires IsPick(rows, skipped, now, picked)
    ensures forall id | id in picked :: id in rows && id !in skipped && !rows[id].published
              && (rows[id].lockedUntil.None? || rows[id].lockedUntil.value <= now)
    ensures |picked| <= 50
    ensures forall id | id in rows && id !in picked ::
              || rows[id].published
              || (rows[id].lockedUntil.Some? && now < rows[id].lockedUntil.value)
              || id in skipped
              || (|picked| == 50 && forall p | p in picked :: p < id)
  {
    var open := ClaimableIds(rows, now) - skipped;
    var low := Lowest(open, BATCH_LIMIT);
    assert forall id | id in picked :: id in Elements(picked);
    DistinctCount(picked);
    forall id | id in rows && id !in picked && id in open
      ensures |picked| == BATCH_LIMIT && forall p | p in picked :: p < id
    {
      assert id !in Elements(picked);
    }
  }

  lemma {:induction false} DistinctCount(ids: seq<nat>)
    requires Distinct(ids)
    ensures |Elements(ids)| == |ids|
  {
    if ids != [] {
      var front, last := ids[..|ids| - 1], ids[|ids| - 1];
      DistinctCount(front);
      assert Elements(ids) == Elements(front) + {last};
      assert last !in Elements(front);
    }
  }

  function Unpublished<E>(rows: Table<E>): set<nat>
  {
    set id | id in rows && !rows[id].published
  }

  /** One lock period later every unpublished row is claimable again, whoever had leased it. */
  lemma AbandonedRowsReturn<E>(rows: Table<E>, clock: Time, now: Time)
    requires LeasesBounded(rows, clock) && clock + OUTBOX_LOCK <= now
    ensures ClaimableIds(rows, now) == Unpublished(rows)
  {
  }
}
