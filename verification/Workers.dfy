/** The worker loops, one turn at a time, proved to be runs of the step relation: the publisher's
    tick (src/orders/worker.rs:40-83) and the two consumers' turns
    (src/bin/inventory-worker.rs:97-149, src/bin/orders-worker.rs:88-108). */
module Workers {
  import opened Lists
  import opened Prelude
  import opened Orders
  import opened Outbox
  import opened Consumers
  import opened Store
  import opened OrderStore
  import opened SagaState

  /** What one `producer.send` does: the partitions its copies reach, and whether it is acknowledged; and
      whether the database then fails to mark the row. */
  datatype SendOutcome = SendOutcome(copies: seq<nat>, acked: bool, error: string, markFails: bool)

  /** What marking does to one row: an acknowledged message is published, unlocked and free of errors; any
      other is unlocked, has one retry more and keeps the error. */
  ghost predicate RowMarked<E>(before: Row<E>, after: Row<E>, outcome: SendOutcome)
  {
    && after.message == before.message && after.lockedUntil == None
    && (outcome.acked ==> after.published && after.lastError == None && after.retryCount == before.retryCount)
    && (!outcome.acked ==>
          && after.published == before.published && after.lastError == Some(outcome.error)
          && after.retryCount == before.retryCount + 1)
  }

  /** The first `done` rows have been marked, each by its outcome, and nothing else in the table has changed. */
  ghost predicate MarkedUpTo<E>(
    before: Table<E>, after: Table<E>, messages: seq<nat>, outcomes: seq<SendOutcome>, done: nat)
    requires done <= |messages| <= |outcomes|
  {
    && after.Keys == before.Keys
    && (forall k :: 0 <= k < done && messages[k] in before ==>
          RowMarked(before[messages[k]], after[messages[k]], outcomes[k]))
    && (forall id :: id in before && id !in messages[..done] ==> after[id] == before[id])
  }

  lemma MarkedOneMore<E>(
    before: Table<E>, mid: Table<E>, after: Table<E>, messages: seq<nat>, outcomes: seq<SendOutcome>, k: nat)
    requires k < |messages| <= |outcomes| && Distinct(messages) && messages[k] in before
    requires MarkedUpTo(before, mid, messages, outcomes, k)
    requires after.Keys == mid.Keys && RowMarked(mid[messages[k]], after[messages[k]], outcomes[k])
    requires forall id :: id in mid && id != messages[k] ==> after[id] == mid[id]
    ensures MarkedUpTo(before, after, messages, outcomes, k + 1)
  {
    assert messages[..k + 1] == messages[..k] + [messages[k]];
    assert messages[k] !in messages[..k];
  }

  /** Each partition ends with the copies that reached it. */
  ghost predicate CopiesAppended<E>(
    before: seq<seq<Record<E>>>, after: seq<seq<Record<E>>>, copies: seq<nat>, record: Record<E>)
  {
    && |after| == |before|
    && forall p: nat :: p < |before| ==> after[p] == before[p] + seq(multiset(copies)[p], _ => record)
  }

  lemma OneMoreCopy<E>(
    before: seq<seq<Record<E>>>, mid: seq<seq<Record<E>>>, copies: seq<nat>, i: nat, record: Record<E>)
    requires i < |copies| && copies[i] < |before| && CopiesAppended(before, mid, copies[..i], record)
    ensures CopiesAppended(before, AppendRecord(mid, copies[i], record), copies[..i + 1], record)
  {
    OneMore(copies, i);
    var after := AppendRecord(mid, copies[i], record);
    forall p: nat | p < |before| ensures after[p] == before[p] + seq(multiset(copies[..i + 1])[p], _ => record) {
      assert multiset(copies[..i + 1])[p] == multiset(copies[..i])[p] + if p == copies[i] then 1 else 0;
    }
  }

  lemma CopiesKeepLogged<E>(
    before: seq<seq<Record<E>>>, after: seq<seq<Record<E>>>, copies: seq<nat>, record: Record<E>, m: Message<E>)
    requires CopiesAppended(before, after, copies, record) && Logged(before, m)
    ensures Logged(after, m)
  {
    var p, o :| 0 <= p < |before| && 0 <= o < |before[p]| && before[p][o] == Good(m);
    assert after[p][o] == Good(m);
  }

  lemma CopiesAreLogged<E>(
    before: seq<seq<Record<E>>>, after: seq<seq<Record<E>>>, copies: seq<nat>, m: Message<E>)
    requires CopiesAppended(before, after, copies, Good(m)) && copies != [] && copies[0] < |before|
    ensures Logged(after, m)
  {
    var p := copies[0];
    assert p in multiset(copies);
    assert after[p][|before[p]|] == Good(m);
  }

  class Topic<E> {
    var partitions: seq<seq<Record<E>>>

    constructor (n: nat)
      ensures partitions == seq(n, i => [])
    {
      partitions := seq(n, i => []);
    }

    method AppendTo(p: nat, record: Record<E>)
      requires p < |partitions|
      modifies this
      ensures partitions == AppendRecord(old(partitions), p, record)
    {
      partitions := partitions[p := partitions[p] + [record]];
    }
  }

  /** All batches when replica `r` still has `remaining` to do. */
  ghost function InFlight(
    others: map<nat, Batch>, r: nat, remaining: seq<nat>, phase: Phase, leasedAt: Time): map<nat, Batch>
  {
    if remaining == [] then others else others[r := Batch(remaining, phase, leasedAt)]
  }

  lemma HandOverValue<E>(
    rows: Table<E>, others: map<nat, Batch>, handed: set<nat>, topic: seq<seq<Record<E>>>, clock: Time,
    r: nat, remaining: seq<nat>, t: Time)
    requires r !in others && remaining != []
    ensures var c := Channel(rows, InFlight(others, r, remaining, Ready, t), handed, topic);
            && PubEnabled(c, clock, HandOver(r))
            && PubApply(c, clock, HandOver(r))
               == Channel(rows, InFlight(others, r, remaining, Sending, t), handed + {remaining[0]}, topic)
  {
    assert others[r := Batch(remaining, Ready, t)][r := Batch(remaining, Sending, t)]
        == others[r := Batch(remaining, Sending, t)];
  }

  lemma AdvanceValue<E>(
    rows: Table<E>, others: map<nat, Batch>, handed: set<nat>, topic: seq<seq<Record<E>>>,
    r: nat, remaining: seq<nat>, phase: Phase, t: Time)
    requires r !in others && remaining != []
    ensures Advance(Channel(rows, InFlight(others, r, remaining, phase, t), handed, topic), r)
         == Channel(rows, InFlight(others, r, remaining[1..], Ready, t), handed, topic)
  {
    var b := Batch(remaining, phase, t);
    assert others[r := b] - {r} == others;
    assert others[r := b][r := Batch(remaining[1..], Ready, t)] == others[r := Batch(remaining[1..], Ready, t)];
  }

  lemma AckPublishValue<E>(
    rows: Table<E>, others: map<nat, Batch>, handed: set<nat>, topic: seq<seq<Record<E>>>, clock: Time,
    r: nat, remaining: seq<nat>, t: Time)
    requires r !in others && remaining != [] && remaining[0] in rows && Logged(topic, rows[remaining[0]].message)
    ensures var c := Channel(rows, InFlight(others, r, remaining, Sending, t), handed, topic);
            && PubEnabled(c, clock, Ack(r))
            && var d := PubApply(c, clock, Ack(r));
            && PubEnabled(d, clock, Publish(r))
            && PubApply(d, clock, Publish(r))
               == Channel(MarkPublished(rows, remaining[0]), InFlight(others, r, remaining[1..], Ready, t), handed,
                   topic)
  {
    var b := Batch(remaining, Acked, t);
    assert others[r := Batch(remaining, Sending, t)][r := b] == others[r := b];
    AdvanceValue(MarkPublished(rows, remaining[0]), others, handed, topic, r, remaining, Acked, t);
  }

  lemma NackFailValue<E>(
    rows: Table<E>, others: map<nat, Batch>, handed: set<nat>, topic: seq<seq<Record<E>>>, clock: Time,
    r: nat, remaining: seq<nat>, t: Time, error: string)
    requires r !in others && remaining != []
    ensures var c := Channel(rows, InFlight(others, r, remaining, Sending, t), handed, topic);
            && PubEnabled(c, clock, Nack(r))
            && var d := PubApply(c, clock, Nack(r));
            && PubEnabled(d, clock, Fail(r, error))
            && PubApply(d, clock, Fail(r, error))
               == Channel(MarkFailed(rows, remaining[0], error), InFlight(others, r, remaining[1..], Ready, t), handed,
                   topic)
  {
    var b := Batch(remaining, Nacked, t);
    assert others[r := Batch(remaining, Sending, t)][r := b] == others[r := b];
    AdvanceValue(MarkFailed(rows, remaining[0], error), others, handed, topic, r, remaining, Nacked, t);
  }

  lemma CrashValue<E>(
    rows: Table<E>, others: map<nat, Batch>, handed: set<nat>, topic: seq<seq<Record<E>>>, clock: Time,
    r: nat, remaining: seq<nat>, t: Time)
    requires r !in others && remaining != []
    ensures var c := Channel(rows, InFlight(others, r, remaining, Sending, t), handed, topic);
            && PubEnabled(c, clock, Crash(r))
            && PubApply(c, clock, Crash(r)) == Channel(rows, others, handed, topic)
  {
    assert others[r := Batch(remaining, Sending, t)] - {r} == others;
  }

  lemma PickIsBounded<E>(rows: Table<E>, skipped: set<nat>, picked: seq<nat>, now: Time)
    requires IsPick(rows, skipped, now, picked)
    ensures |picked| <= BATCH_LIMIT && forall id | id in picked :: id in rows
  {
    DistinctCount(picked);
    forall id | id in picked ensures id in rows {
      assert id in Elements(picked);
    }
  }

  lemma ClaimValue<E>(c: Channel<E>, clock: Time, r: nat, skipped: set<nat>, picked: seq<nat>, now: Time)
    requires r !in c.batches && now <= clock && IsPick(c.rows, skipped, now, picked) && picked != []
    ensures var claim := [Claim(r, skipped, picked, now)];
            && PubValid(c, clock, claim)
            && PubExec(c, clock, claim)
               == Channel(Lease(c.rows, Elements(picked), now + OUTBOX_LOCK),
                          InFlight(c.batches, r, picked, Ready, now), c.handed, c.topic)
  {
    ClaimStep(c, clock, r, skipped, picked, now);
    PubOne(c, clock, Claim(r, skipped, picked, now));
  }

  lemma LeaseNothing<E>(rows: Table<E>, until: Time)
    ensures Lease(rows, Elements([]), until) == rows
  {
  }

  class Publisher<E> {
    const outbox: OutboxTable<E>
    const topic: Topic<E>
    const replica: nat

    /** What the other replicas hold, and the rows any producer was ever handed. */
    ghost var others: map<nat, Batch>
    ghost var handed: set<nat>

    /** The protocol steps of the tick under way, and the state it started from. */
    ghost var start: Channel<E>
    ghost var clock: Time
    ghost var trace: seq<PubStep>

    ghost predicate Valid()
      reads this
    {
      replica !in others && outbox as object != topic as object
    }

    constructor (outbox: OutboxTable<E>, topic: Topic<E>, replica: nat)
      requires outbox as object != topic as object
      ensures Valid() && this.outbox == outbox && this.topic == topic && this.replica == replica
    {
      this.outbox, this.topic, this.replica := outbox, topic, replica;
      others, handed, clock, trace := map[], {}, 0, [];
      start := Channel(map[], map[], {}, []);
    }

    /** The channel while this replica still has `remaining` to do. */
    ghost function Value(remaining: seq<nat>, phase: Phase, leasedAt: Time): Channel<E>
      reads this, outbox, topic
    {
      Channel(outbox.rows, InFlight(others, replica, remaining, phase, leasedAt), handed, topic.partitions)
    }

    /** The steps recorded so far lead from the start of the tick to the present tables. */
    ghost predicate Traced(remaining: seq<nat>, phase: Phase, leasedAt: Time)
      reads this, outbox, topic
    {
      PubValid(start, clock, trace) && PubExec(start, clock, trace) == Value(remaining, phase, leasedAt)
    }

    /** Hand the row to the producer; its copies reach the log one by one. */
    method Send(id: nat, outcome: SendOutcome, ghost remaining: seq<nat>, ghost leasedAt: Time)
      requires Valid() && Traced(remaining, Ready, leasedAt)
      requires remaining != [] && remaining[0] == id && id in outbox.rows
      requires forall i | 0 <= i < |outcome.copies| :: outcome.copies[i] < |topic.partitions|
      modifies this`handed, this`trace, topic
      ensures Valid() && Traced(remaining, Sending, leasedAt)
      ensures CopiesAppended(old(topic.partitions), topic.partitions, outcome.copies, Good(outbox.rows[id].message))
    {
      var message := outbox.rows[id].message;
      HandOverValue(outbox.rows, others, handed, topic.partitions, clock, replica, remaining, leasedAt);
      PubAppend(start, clock, trace, HandOver(replica));
      trace := trace + [HandOver(replica)];
      handed := handed + {id};
      assert Traced(remaining, Sending, leasedAt);
      var i := 0;
      while i < |outcome.copies|
        invariant 0 <= i <= |outcome.copies|
        invariant Valid() && Traced(remaining, Sending, leasedAt) && id in handed
        invariant CopiesAppended(old(topic.partitions), topic.partitions, outcome.copies[..i], Good(message))
      {
        OneMoreCopy(old(topic.partitions), topic.partitions, outcome.copies, i, Good(message));
        SendCopy(id, outcome.copies[i], remaining, leasedAt);
        i := i + 1;
      }
      assert outcome.copies[..i] == outcome.copies;
    }

    /** One copy of a row reaches a partition. */
    method SendCopy(id: nat, p: nat, ghost remaining: seq<nat>, ghost leasedAt: Time)
      requires Valid() && Traced(remaining, Sending, leasedAt)
      requires id in handed && id in outbox.rows && p < |topic.partitions|
      modifies this`trace, topic
      ensures Valid() && Traced(remaining, Sending, leasedAt)
      ensures topic.partitions == AppendRecord(old(topic.partitions), p, Good(outbox.rows[id].message))
    {
      PubAppend(start, clock, trace, Append(id, p));
      trace := trace + [Append(id, p)];
      topic.AppendTo(p, Good(outbox.rows[id].message));
    }

    method Mark(id: nat, outcome: SendOutcome, ghost remaining: seq<nat>, ghost leasedAt: Time)
      requires Valid() && Traced(remaining, Sending, leasedAt)
      requires remaining != [] && remaining[0] == id && id in outbox.rows
      requires outcome.acked ==> Logged(topic.partitions, outbox.rows[id].message)
      modifies this`trace, outbox
      ensures Valid() && Traced(remaining[1..], Ready, leasedAt)
      ensures outbox.rows.Keys == old(outbox.rows.Keys)
      ensures RowMarked(old(outbox.rows)[id], outbox.rows[id], outcome)
      ensures forall k :: k in outbox.rows && k != id ==> outbox.rows[k] == old(outbox.rows)[k]
    {
      if outcome.acked {
        AckPublishValue(outbox.rows, others, handed, topic.partitions, clock, replica, remaining, leasedAt);
        PubAppend(start, clock, trace, Ack(replica));
        PubAppend(start, clock, trace + [Ack(replica)], Publish(replica));
        trace := trace + [Ack(replica)] + [Publish(replica)];
        outbox.MarkRowPublished(id);
      } else {
        NackFailValue(outbox.rows, others, handed, topic.partitions, clock, replica, remaining, leasedAt,
            outcome.error);
        PubAppend(start, clock, trace, Nack(replica));
        PubAppend(start, clock, trace + [Nack(replica)], Fail(replica, outcome.error));
        trace := trace + [Nack(replica)] + [Fail(replica, outcome.error)];
        outbox.MarkRowFailed(id, outcome.error);
      }
    }

    /** Lease a batch; an empty one is no step at all. */
    method LeaseBatch(skipped: set<nat>, now: Time, ghost dbClock: Time) returns (messages: seq<nat>)
      requires Valid() && now <= dbClock
      modifies this`trace, this`start, this`clock, outbox
      ensures Valid() && start == old(Value([], Ready, now)) && clock == dbClock
      ensures Traced(messages, Ready, now)
      ensures IsPick(old(outbox.rows), skipped, now, messages)
      ensures outbox.rows == Lease(old(outbox.rows), Elements(messages), now + OUTBOX_LOCK)
      ensures |messages| <= BATCH_LIMIT && forall id | id in messages :: id in outbox.rows
    {
      start, clock, trace := Value([], Ready, now), dbClock, [];
      messages := outbox.ListUnpublished(skipped, now);
      PickIsBounded(start.rows, skipped, messages, now);
      if messages == [] {
        LeaseNothing(start.rows, now + OUTBOX_LOCK);
      } else {
        ClaimValue(start, dbClock, replica, skipped, messages, now);
        trace := [Claim(replica, skipped, messages, now)];
      }
    }

    /** The process ends with rows of its batch unfinished. */
    method GiveUp(ghost remaining: seq<nat>, ghost leasedAt: Time)
      requires Valid() && Traced(remaining, Sending, leasedAt) && remaining != []
      modifies this`trace
      ensures Valid() && Traced([], Ready, leasedAt)
    {
      CrashValue(outbox.rows, others, handed, topic.partitions, clock, replica, remaining, leasedAt);
      PubAppend(start, clock, trace, Crash(replica));
      trace := trace + [Crash(replica)];
    }

    /** One row of a batch: send it, then mark it; false when the marking fails, which ends the process. */
    method WorkOne(id: nat, outcome: SendOutcome, ghost remaining: seq<nat>, ghost now: Time) returns (marked: bool)
      requires Valid() && Traced(remaining, Ready, now)
      requires remaining != [] && remaining[0] == id && id in outbox.rows
      requires forall i | 0 <= i < |outcome.copies| :: outcome.copies[i] < |topic.partitions|
      requires outcome.acked ==> outcome.copies != []
      modifies this`handed, this`trace, outbox, topic
      ensures Valid() && Traced(if marked then remaining[1..] else [], Ready, now)
      ensures marked <==> !outcome.markFails
      ensures CopiesAppended(
                old(topic.partitions), topic.partitions, outcome.copies, Good(old(outbox.rows)[id].message))
      ensures outbox.rows.Keys == old(outbox.rows.Keys)
      ensures marked ==> RowMarked(old(outbox.rows)[id], outbox.rows[id], outcome)
      ensures forall k :: k in outbox.rows && (k != id || !marked) ==> outbox.rows[k] == old(outbox.rows)[k]
    {
      Send(id, outcome, remaining, now);
      if outcome.markFails {
        GiveUp(remaining, now);
        return false;
      }
      if outcome.acked {
        CopiesAreLogged(old(topic.partitions), topic.partitions, outcome.copies, outbox.rows[id].message);
      }
      Mark(id, outcome, remaining, now);
      return true;
    }

    /** Send and mark the rows of a batch in turn, up to the first marking that fails. */
    method WorkThrough(messages: seq<nat>, outcomes: seq<SendOutcome>, ghost now: Time) returns (done: nat)
      requires Valid() && Traced(messages, Ready, now) && Distinct(messages)
      requires |messages| <= |outcomes| && forall id | id in messages :: id in outbox.rows
      requires forall k, i | 0 <= k < |outcomes| && 0 <= i < |outcomes[k].copies| ::
                 outcomes[k].copies[i] < |topic.partitions|
      requires forall k | 0 <= k < |outcomes| :: outcomes[k].acked ==> outcomes[k].copies != []
      modifies this`handed, this`trace, outbox, topic
      ensures Valid() && Traced([], Ready, now)
      ensures done <= |messages| && forall k :: 0 <= k < done ==> !outcomes[k].markFails
      ensures done < |messages| ==> outcomes[done].markFails
      ensures MarkedUpTo(old(outbox.rows), outbox.rows, messages, outcomes, done)
      ensures forall k :: 0 <= k <= done && k < |messages| && outcomes[k].copies != [] ==>
                Logged(topic.partitions, old(outbox.rows)[messages[k]].message)
    {
      done := 0;
      while done < |messages|
        invariant 0 <= done <= |messages|
        invariant Valid() && Traced(messages[done..], Ready, now)
        invariant |topic.partitions| == old(|topic.partitions|)
        invariant forall i :: 0 <= i < done ==> !outcomes[i].markFails
        invariant MarkedUpTo(old(outbox.rows), outbox.rows, messages, outcomes, done)
        invariant forall k :: 0 <= k < done && outcomes[k].copies != [] ==>
                    Logged(topic.partitions, old(outbox.rows)[messages[k]].message)
      {
        ghost var mid, log := outbox.rows, topic.partitions;
        assert mid[messages[done]] == old(outbox.rows)[messages[done]] by {
          assert messages[done] !in messages[..done];
        }
        var marked := WorkOne(messages[done], outcomes[done], messages[done..], now);
        KeepLogged(log, topic.partitions, messages, outcomes, done, old(outbox.rows));
        if !marked {
          assert outbox.rows == mid;
          return;
        }
        MarkedOneMore(old(outbox.rows), mid, outbox.rows, messages, outcomes, done);
        assert messages[done..][1..] == messages[done + 1..];
        done := done + 1;
      }
      assert messages[done..] == [];
    }

    /** One tick of `publish_outbox_loop`: lease a batch, then send and mark its messages in turn, up to the
        first database call that fails, which ends the process. The whole tick is a run of the publishing
        protocol from the tables before it to the tables after it. */
    method Tick(skipped: set<nat>, now: Time, ghost dbClock: Time, listFails: bool, outcomes: seq<SendOutcome>)
      returns (messages: seq<nat>, done: nat, ok: bool)
      requires Valid() && now <= dbClock && |outcomes| == BATCH_LIMIT
      requires forall k, i | 0 <= k < |outcomes| && 0 <= i < |outcomes[k].copies| ::
                 outcomes[k].copies[i] < |topic.partitions|
      requires forall k | 0 <= k < |outcomes| :: outcomes[k].acked ==> outcomes[k].copies != []
      modifies this`handed, this`trace, this`start, this`clock, outbox, topic
      ensures Valid()
      ensures PubValid(old(Value([], Ready, now)), dbClock, trace)
      ensures PubExec(old(Value([], Ready, now)), dbClock, trace) == Value([], Ready, now)
      ensures if listFails then messages == [] else IsPick(old(outbox.rows), skipped, now, messages)
      ensures ok <==> !listFails && done == |messages|
      ensures done <= |messages| <= |outcomes| && forall k :: 0 <= k < done ==> !outcomes[k].markFails
      ensures done < |messages| ==> outcomes[done].markFails
      ensures outbox.rows.Keys == old(outbox.rows.Keys)
      ensures forall k :: 0 <= k < |messages| ==> messages[k] in outbox.rows
      ensures forall k :: 0 <= k < done && outcomes[k].acked ==>
                && outbox.rows[messages[k]].published && outbox.rows[messages[k]].lockedUntil == None
                && outbox.rows[messages[k]].lastError == None
                && outbox.rows[messages[k]].retryCount == old(outbox.rows)[messages[k]].retryCount
      ensures forall k :: 0 <= k < done && !outcomes[k].acked ==>
                && !outbox.rows[messages[k]].published && outbox.rows[messages[k]].lockedUntil == None
                && outbox.rows[messages[k]].lastError == Some(outcomes[k].error)
                && outbox.rows[messages[k]].retryCount == old(outbox.rows)[messages[k]].retryCount + 1
      ensures forall k :: done <= k < |messages| ==>
                && !outbox.rows[messages[k]].published
                && outbox.rows[messages[k]]
                   == old(outbox.rows)[messages[k]].(lockedUntil := Some(now + 300_000_000))
      ensures forall id :: id in outbox.rows && id !in messages ==> outbox.rows[id] == old(outbox.rows)[id]
      ensures forall k :: 0 <= k <= done && k < |messages| && outcomes[k].copies != [] ==>
                Logged(topic.partitions, old(outbox.rows)[messages[k]].message)
    {
      done := 0;
      if listFails {
        start, clock, trace := Value([], Ready, now), dbClock, [];
        return [], 0, false;
      }
      messages := LeaseBatch(skipped, now, dbClock);
      ghost var leased := outbox.rows;
      done := WorkThrough(messages, outcomes, now);
      ok := done == |messages|;
      assert forall id :: id in leased ==> leased[id].message == old(outbox.rows)[id].message;
      TickOutcome(old(outbox.rows), leased, outbox.rows, skipped, now, messages, outcomes, done);
    }
  }

  /** What was logged before a send still is, and so is what it sent. */
  lemma KeepLogged<E>(
    before: seq<seq<Record<E>>>, after: seq<seq<Record<E>>>, messages: seq<nat>, outcomes: seq<SendOutcome>, done: nat,
    rows: Table<E>)
    requires done < |messages| <= |outcomes| && forall id | id in messages :: id in rows
    requires CopiesAppended(before, after, outcomes[done].copies, Good(rows[messages[done]].message))
    requires forall i | 0 <= i < |outcomes[done].copies| :: outcomes[done].copies[i] < |before|
    requires forall k :: 0 <= k < done && outcomes[k].copies != [] ==> Logged(before, rows[messages[k]].message)
    ensures forall k :: 0 <= k <= done && outcomes[k].copies != [] ==> Logged(after, rows[messages[k]].message)
  {
    var copies, record := outcomes[done].copies, Good(rows[messages[done]].message);
    if copies != [] {
      CopiesAreLogged(before, after, copies, rows[messages[done]].message);
    }
    forall k | 0 <= k < done && outcomes[k].copies != [] ensures Logged(after, rows[messages[k]].message) {
      CopiesKeepLogged(before, after, copies, record, rows[messages[k]].message);
    }
  }

  /** Leasing and then marking, row by row. */
  lemma TickOutcome<E>(
    before: Table<E>, leased: Table<E>, after: Table<E>, skipped: set<nat>, now: Time,
    messages: seq<nat>, outcomes: seq<SendOutcome>, done: nat)
    requires IsPick(before, skipped, now, messages) && done <= |messages| <= |outcomes|
    requires leased == Lease(before, Elements(messages), now + OUTBOX_LOCK)
    requires MarkedUpTo(leased, after, messages, outcomes, done)
    ensures after.Keys == before.Keys
    ensures forall k :: 0 <= k < |messages| ==> messages[k] in before && !before[messages[k]].published
    ensures forall k :: 0 <= k < done ==> RowMarked(before[messages[k]], after[messages[k]], outcomes[k])
    ensures forall k :: done <= k < |messages| ==>
              after[messages[k]] == before[messages[k]].(lockedUntil := Some(now + OUTBOX_LOCK))
    ensures forall id :: id in before && id !in messages ==> after[id] == before[id]
  {
    ClaimReturnsOldestOpenRows(before, skipped, now, messages);
    forall k | 0 <= k < |messages|
      ensures messages[k] in before && !before[messages[k]].published
      ensures leased[messages[k]] == before[messages[k]].(lockedUntil := Some(now + OUTBOX_LOCK))
    {
      assert messages[k] in messages && messages[k] in Elements(messages);
    }
    forall k | done <= k < |messages| ensures messages[k] !in messages[..done] {
    }
    forall id | id in before && id !in messages ensures after[id] == before[id] {
      assert id !in Elements(messages) && id !in messages[..done];
    }
  }

  /** Where a cache refresh can stop: nowhere, at loading the quantity, or at writing it to Redis. */
  datatype RefreshFault = NoFault | LoadFails | StoreFails

  /** The cache after a refresh of `sku`. */
  function Refreshed(cache: map<string, i32>, db: Db, sku: string, fault: RefreshFault): map<string, i32>
  {
    if fault != NoFault then cache
    else match LoadStock(db, sku)
         case Some(quantity) => cache[sku := quantity]
         case None => cache - {sku}
  }

  /** The steps of a session after its transaction: refresh as far as it gets, then commit. */
  function RefreshSteps(sid: nat, fault: RefreshFault): seq<Step>
  {
    match fault
    case LoadFails => [GiveUpCache(sid), InventoryGroup(Commit(sid))]
    case StoreFails => [LoadForCache(sid), GiveUpCache(sid), InventoryGroup(Commit(sid))]
    case NoFault => [LoadForCache(sid), StoreInCache(sid), InventoryGroup(Commit(sid))]
  }

  /** A group whose session `sid` has finished with its record and asked for the commit. */
  function Committed(g: Group, sid: nat): Group
    requires sid in g.sessions
  {
    var s := g.sessions[sid];
    g.(sessions := g.sessions[sid := Session(s.partition, s.position + 1, Waiting)],
       commits := g.commits + {(s.partition, s.position + 1)})
  }

  lemma CommitTurn(s: Saga, sid: nat)
    requires sid in s.inventoryGroup.sessions && s.inventoryGroup.sessions[sid].phase == Done
    ensures Valid(s, [InventoryGroup(Commit(sid))])
    ensures Exec(s, [InventoryGroup(Commit(sid))]) == s.(inventoryGroup := Committed(s.inventoryGroup, sid))
  {
    Cons(s, InventoryGroup(Commit(sid)), []);
    assert [InventoryGroup(Commit(sid))] + [] == [InventoryGroup(Commit(sid))];
  }

  lemma CommittedFromDone(g: Group, sid: nat)
    requires sid in g.sessions
    ensures Committed(SetSession(g, sid, Done), sid) == Committed(g, sid)
  {
  }

  lemma ThenCommit(s: Saga, t: Saga, sid: nat, step: Step)
    requires Enabled(s, step) && Apply(s, step) == t
    requires sid in t.inventoryGroup.sessions && t.inventoryGroup.sessions[sid].phase == Done
    ensures Valid(s, [step, InventoryGroup(Commit(sid))])
    ensures Exec(s, [step, InventoryGroup(Commit(sid))]) == t.(inventoryGroup := Committed(t.inventoryGroup, sid))
  {
    CommitTurn(t, sid);
    Cons(s, step, [InventoryGroup(Commit(sid))]);
    assert [step] + [InventoryGroup(Commit(sid))] == [step, InventoryGroup(Commit(sid))];
  }

  /** A step that brings the session to Done, followed by the commit. */
  lemma FinishTurn(s: Saga, sid: nat, step: Step, cache: map<string, i32>)
    requires sid in s.inventoryGroup.sessions && Enabled(s, step)
    requires Apply(s, step) == s.(cache := cache, inventoryGroup := SetSession(s.inventoryGroup, sid, Done))
    ensures Valid(s, [step, InventoryGroup(Commit(sid))])
    ensures Exec(s, [step, InventoryGroup(Commit(sid))])
         == s.(cache := cache, inventoryGroup := Committed(s.inventoryGroup, sid))
  {
    ThenCommit(s, s.(cache := cache, inventoryGroup := SetSession(s.inventoryGroup, sid, Done)), sid, step);
    CommittedFromDone(s.inventoryGroup, sid);
  }

  lemma RefreshTurn(s: Saga, sid: nat, fault: RefreshFault)
    requires sid in s.inventoryGroup.sessions && s.inventoryGroup.sessions[sid].phase.Stale?
    ensures Valid(s, RefreshSteps(sid, fault))
    ensures Exec(s, RefreshSteps(sid, fault))
         == s.(cache := Refreshed(s.cache, DbOf(s), s.inventoryGroup.sessions[sid].phase.sku, fault),
               inventoryGroup := Committed(s.inventoryGroup, sid))
  {
    var commit := InventoryGroup(Commit(sid));
    if fault.LoadFails? {
      FinishTurn(s, sid, GiveUpCache(sid), s.cache);
    } else {
      var sku := s.inventoryGroup.sessions[sid].phase.sku;
      var s1 := Apply(s, LoadForCache(sid));
      var last := if fault.StoreFails? then GiveUpCache(sid) else StoreInCache(sid);
      FinishTurn(s1, sid, last, Refreshed(s.cache, DbOf(s), sku, fault));
      Cons(s, LoadForCache(sid), [last, commit]);
      assert [LoadForCache(sid)] + [last, commit] == RefreshSteps(sid, fault);
    }
  }

  /** The steps of one turn with a creation event, by what becomes of its transaction. */
  ghost function TurnSteps(
    s: Saga, sid: nat, event: OrderCreatedEvent, resultId: Uuid, rowId: nat, fault: RefreshFault): seq<Step>
  {
    var handle := HandleCreated(sid, resultId, rowId);
    match HandleOrderCreated(DbOf(s), event, resultId, rowId).1
    case Failed => [handle]
    case Duplicate => [handle, InventoryGroup(Commit(sid))]
    case Processed(_) => [handle] + RefreshSteps(sid, fault)
  }

  lemma TurnIsRun(s: Saga, sid: nat, event: OrderCreatedEvent, resultId: Uuid, rowId: nat, fault: RefreshFault)
    requires Enabled(s, HandleCreated(sid, resultId, rowId))
    requires event == RecordAt(s.created.topic, s.inventoryGroup.sessions[sid]).message.event
    ensures var (db, handled) := HandleOrderCreated(DbOf(s), event, resultId, rowId);
            var steps := TurnSteps(s, sid, event, resultId, rowId, fault);
            && Valid(s, steps) && DbOf(Exec(s, steps)) == db
            && Exec(s, steps).cache
                == (if handled.Processed? then Refreshed(s.cache, db, event.sku, fault) else s.cache)
            && Exec(s, steps).inventoryGroup ==
               if handled.Failed? then s.inventoryGroup.(sessions := s.inventoryGroup.sessions - {sid})
               else Committed(s.inventoryGroup, sid)
  {
    var handle := HandleCreated(sid, resultId, rowId);
    var handled := HandleOrderCreated(DbOf(s), event, resultId, rowId).1;
    if handled.Failed? {
      Cons(s, handle, []);
      assert [handle] + [] == [handle];
    } else if handled.Duplicate? {
      FinishTurn(s, sid, handle, s.cache);
    } else {
      HandledFields(s, sid, event, resultId, rowId);
      RefreshTurn(Apply(s, handle), sid, fault);
      Cons(s, handle, RefreshSteps(sid, fault));
      CommittedFromStale(s.inventoryGroup, sid, event.sku);
    }
  }

  lemma HandledFields(s: Saga, sid: nat, event: OrderCreatedEvent, resultId: Uuid, rowId: nat)
    requires Enabled(s, HandleCreated(sid, resultId, rowId))
    requires event == RecordAt(s.created.topic, s.inventoryGroup.sessions[sid]).message.event
    requires HandleOrderCreated(DbOf(s), event, resultId, rowId).1.Processed?
    ensures var t := Apply(s, HandleCreated(sid, resultId, rowId));
            && DbOf(t) == HandleOrderCreated(DbOf(s), event, resultId, rowId).0 && t.cache == s.cache
            && t.inventoryGroup == SetSession(s.inventoryGroup, sid, Stale(event.sku))
  {
  }

  lemma CommittedFromStale(g: Group, sid: nat, sku: string)
    requires sid in g.sessions
    ensures Committed(SetSession(g, sid, Stale(sku)), sid) == Committed(g, sid)
  {
  }

  class InventoryWorker {
    const store: OrderStore
    var cache: map<string, i32>

    constructor (store: OrderStore)
      ensures this.store == store && cache == map[]
    {
      this.store, cache := store, map[];
    }

    /** `refresh_redis_stock`: set the key to the stock, or delete it when there is no stock row. */
    method RefreshStock(sku: string, fault: RefreshFault)
      modifies this`cache
      ensures cache == Refreshed(old(cache), store.Value(), sku, fault)
      ensures fault != NoFault ==> cache == old(cache)
      ensures fault == NoFault ==>
                cache == if sku in store.stocks then old(cache)[sku := store.stocks[sku]] else old(cache) - {sku}
    {
      if fault.LoadFails? {
        return;
      }
      var quantity := store.LoadInventoryStockQuantity(sku);
      if fault.StoreFails? {
        return;
      }
      match quantity
      case Some(value) => cache := cache[sku := value];
      case None => cache := cache - {sku};
    }

    /** One received message, up to its commit request; false when the worker process ends instead.
        The turn is a run of session `sid` in the pipeline: transaction first, refresh after it, commit
        last. */
    method ConsumeOne(record: Record<OrderCreatedEvent>, resultId: Uuid, rowId: nat, fault: RefreshFault,
                      ghost s: Saga, ghost sid: nat)
      returns (committed: bool, ghost steps: seq<Step>)
      requires store.Valid() && DbOf(s) == store.Value() && s.cache == cache
      requires sid in s.inventoryGroup.sessions && s.inventoryGroup.sessions[sid].phase == Waiting
      requires HasRecord(s.created.topic, s.inventoryGroup.sessions[sid])
      requires RecordAt(s.created.topic, s.inventoryGroup.sessions[sid]) == record
      requires resultId !in s.uuids && rowId !in s.results.rows
      modifies this, store, store.inventoryInbox, store.inventoryOutbox
      ensures Valid(s, steps) && DbOf(Exec(s, steps)) == store.Value() && Exec(s, steps).cache == cache
      ensures Exec(s, steps).inventoryGroup ==
              if committed then Committed(s.inventoryGroup, sid)
              else s.inventoryGroup.(sessions := s.inventoryGroup.sessions - {sid})
      ensures match record
              case Malformed => committed && store.Value() == old(store.Value()) && cache == old(cache)
              case Good(message) =>
                var (db, handled) := HandleOrderCreated(DbOf(s), message.event, resultId, rowId);
                && store.Value() == db && (committed <==> !handled.Failed?)
                && cache == if handled.Processed? then Refreshed(s.cache, db, message.event.sku, fault) else s.cache
    {
      match record
      case Malformed =>
        FinishTurn(s, sid, InventoryGroup(Skip(sid)), s.cache);
        return true, [InventoryGroup(Skip(sid)), InventoryGroup(Commit(sid))];
      case Good(message) =>
        TurnIsRun(s, sid, message.event, resultId, rowId, fault);
        steps := TurnSteps(s, sid, message.event, resultId, rowId, fault);
        var r := store.HandleOrderCreatedMessage(message.event, resultId, rowId);
        if r.Err? {
          return false, steps;
        }
        if r.value.Some? {
          RefreshStock(r.value.value, fault);
        }
        return true, steps;
    }
  }

  class OrdersWorker {
    const store: OrderStore

    constructor (store: OrderStore)
      ensures this.store == store
    {
      this.store := store;
    }

    /** One received result, up to its commit request; false when the worker process ends instead. */
    method ConsumeOne(record: Record<InventoryResultEvent>, ghost s: Saga, ghost sid: nat)
      returns (committed: bool, ghost steps: seq<Step>)
      requires store.Valid() && DbOf(s) == store.Value()
      requires sid in s.ordersGroup.sessions && s.ordersGroup.sessions[sid].phase == Waiting
      requires HasRecord(s.results.topic, s.ordersGroup.sessions[sid])
      requires RecordAt(s.results.topic, s.ordersGroup.sessions[sid]) == record
      modifies store, store.orderInbox
      ensures Valid(s, steps) && DbOf(Exec(s, steps)) == store.Value()
      ensures Exec(s, steps).ordersGroup ==
              if committed then Committed(s.ordersGroup, sid)
              else s.ordersGroup.(sessions := s.ordersGroup.sessions - {sid})
      ensures match record
              case Malformed => committed && store.Value() == old(store.Value())
              case Good(message) =>
                var (db, applied) := ApplyResult(DbOf(s), message.event);
                store.Value() == db && (committed <==> applied.Ok?)
    {
      ghost var apply, commit := ApplyInventory(sid), OrdersGroup(Commit(sid));
      match record
      case Malformed =>
        FinishResult(s, sid, OrdersGroup(Skip(sid)));
        return true, [OrdersGroup(Skip(sid)), commit];
      case Good(message) =>
        var r := store.ApplyInventoryResultMessage(message.event);
        if r.Err? {
          Cons(s, apply, []);
          assert [apply] + [] == [apply];
          return false, [apply];
        }
        FinishResult(s, sid, apply);
        return true, [apply, commit];
    }
  }

  lemma ThenCommitResult(s: Saga, t: Saga, sid: nat, step: Step)
    requires Enabled(s, step) && Apply(s, step) == t
    requires sid in t.ordersGroup.sessions && t.ordersGroup.sessions[sid].phase == Done
    ensures Valid(s, [step, OrdersGroup(Commit(sid))])
    ensures Exec(s, [step, OrdersGroup(Commit(sid))]) == t.(ordersGroup := Committed(t.ordersGroup, sid))
  {
    var commit := OrdersGroup(Commit(sid));
    Cons(t, commit, []);
    Cons(s, step, [commit]);
    assert [step] + [commit] == [step, commit];
    assert [commit] + [] == [commit];
  }

  lemma FinishResult(s: Saga, sid: nat, step: Step)
    requires sid in s.ordersGroup.sessions && Enabled(s, step)
    requires Apply(s, step).ordersGroup == SetSession(s.ordersGroup, sid, Done)
    ensures Valid(s, [step, OrdersGroup(Commit(sid))])
    ensures Exec(s, [step, OrdersGroup(Commit(sid))])
         == Apply(s, step).(ordersGroup := Committed(s.ordersGroup, sid))
  {
    ThenCommitResult(s, Apply(s, step), sid, step);
    CommittedFromDone(s.ordersGroup, sid);
  }
}
