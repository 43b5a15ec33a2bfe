/** Publishing under a fair schedule: over every infinite run in which no replica stalls, somebody polls
    whenever rows are open, and time passes, every row is published
    (src/orders/worker.rs:59-79, src/orders/store.rs:333-389). */
module FairPublishing {
  import opened Prelude
  import opened Outbox
  import opened SagaDrain

  type Channels<!E> = nat -> Channel<E>
  type Clock = nat -> Time
  type Pubs = nat -> Option<PubStep>

  /** No send fails and no replica crashes. A failure noted earlier may still be written down. */
  predicate CalmPub(pub: PubStep)
  {
    !pub.Nack? && !pub.Crash?
  }

  /** From `start` on the channel is changed by calm publisher steps alone. */
  ghost predicate PublisherRun<E>(ch: Channels<E>, clock: Clock, pubs: Pubs, start: nat)
  {
    forall i: nat :: start <= i ==> PublisherTurn(ch, clock, pubs, i)
  }

  ghost predicate PublisherTurn<E>(ch: Channels<E>, clock: Clock, pubs: Pubs, i: nat)
  {
    && clock(i) <= clock(i + 1)
    && BatchesWellFormed(ch(i)) && LeasesBounded(ch(i).rows, clock(i))
    && (pubs(i).None? ==> ch(i + 1) == ch(i))
    && (pubs(i).Some? ==> PubEnabled(ch(i), clock(i), pubs(i).value) && CalmPub(pubs(i).value))
    && (pubs(i).Some? ==> ch(i + 1) == PubApply(ch(i), clock(i), pubs(i).value))
  }

  // ----- Fairness -----

  /** A step of the replica with its batch. */
  predicate Moves(pub: Option<PubStep>, r: nat)
  {
    pub == Some(HandOver(r)) || pub == Some(Ack(r)) || pub == Some(Publish(r))
    || (pub.Some? && pub.value.Fail? && pub.value.replica == r)
  }

  predicate IsClaim(pub: Option<PubStep>)
  {
    pub.Some? && pub.value.Claim?
  }

  /** A replica with a batch goes on with it, sooner or later. */
  ghost predicate BatchGoesOn<E>(ch: Channels<E>, pubs: Pubs, i: nat, r: nat)
  {
    r in ch(i).batches ==> exists j: nat :: i <= j && Moves(pubs(j), r)
  }

  ghost predicate NoReplicaStalls<E>(ch: Channels<E>, pubs: Pubs, start: nat)
  {
    forall i: nat, r: nat :: start <= i ==> BatchGoesOn(ch, pubs, i, r)
  }

  /** After `i` some replica leases rows, or at some moment there are none to lease. */
  ghost predicate Polled<E>(ch: Channels<E>, clock: Clock, pubs: Pubs, i: nat)
  {
    exists j: nat :: i <= j && (IsClaim(pubs(j)) || ClaimableIds(ch(j).rows, clock(j)) == {})
  }

  ghost predicate SomebodyPolls<E>(ch: Channels<E>, clock: Clock, pubs: Pubs, start: nat)
  {
    forall i: nat :: start <= i ==> Polled(ch, clock, pubs, i)
  }

  ghost predicate Passes(clock: Clock, i: nat, t: Time)
  {
    exists j: nat :: i <= j && t <= clock(j)
  }

  ghost predicate TimePasses(clock: Clock)
  {
    forall i: nat, t: Time :: Passes(clock, i, t)
  }

  ghost predicate FairPublishers<E>(ch: Channels<E>, clock: Clock, pubs: Pubs, start: nat)
  {
    NoReplicaStalls(ch, pubs, start) && SomebodyPolls(ch, clock, pubs, start) && TimePasses(clock)
  }

  // ----- One step -----

  lemma OpenStep<E>(ch: Channels<E>, clock: Clock, pubs: Pubs, i: nat)
    requires PublisherTurn(ch, clock, pubs, i)
    ensures ch(i + 1).rows.Keys == ch(i).rows.Keys
    ensures Unpublished(ch(i + 1).rows) <= Unpublished(ch(i).rows)
  {
    if pubs(i).Some? {
      PubKeepsRows(ch(i), clock(i), pubs(i).value);
    }
  }

  /** Only the replica's own steps touch its batch. */
  lemma OthersKeepBatch<E>(c: Channel<E>, clock: Time, pub: PubStep, r: nat)
    requires r in c.batches && PubEnabled(c, clock, pub) && CalmPub(pub) && !Moves(Some(pub), r)
    ensures r in PubApply(c, clock, pub).batches && PubApply(c, clock, pub).batches[r] == c.batches[r]
  {
  }

  ghost predicate LocksWithin<E>(rows: Table<E>, bound: Time)
  {
    forall id | id in rows && rows[id].lockedUntil.Some? :: rows[id].lockedUntil.value <= bound
  }

  /** Only a claim locks. */
  lemma OthersKeepLocks<E>(c: Channel<E>, clock: Time, pub: PubStep, bound: Time)
    requires BatchesWellFormed(c) && PubEnabled(c, clock, pub) && !pub.Claim? && LocksWithin(c.rows, bound)
    ensures LocksWithin(PubApply(c, clock, pub).rows, bound)
  {
  }

  // ----- Stretches of the run -----

  lemma {:induction false} OpenShrinks<E>(ch: Channels<E>, clock: Clock, pubs: Pubs, start: nat, i: nat, j: nat)
    requires PublisherRun(ch, clock, pubs, start) && start <= i <= j
    ensures Unpublished(ch(j).rows) <= Unpublished(ch(i).rows) && ch(j).rows.Keys == ch(i).rows.Keys
    ensures clock(i) <= clock(j)
    decreases j - i
  {
    if i < j {
      assert PublisherTurn(ch, clock, pubs, i);
      OpenStep(ch, clock, pubs, i);
      OpenShrinks(ch, clock, pubs, start, i + 1, j);
    }
  }

  /** The replica's next step finds its batch as it was. */
  lemma {:induction false} NextMove<E>(ch: Channels<E>, clock: Clock, pubs: Pubs, start: nat, i: nat, j: nat, r: nat)
    returns (k: nat)
    requires PublisherRun(ch, clock, pubs, start) && start <= i <= j
    requires r in ch(i).batches && Moves(pubs(j), r)
    ensures i <= k && Moves(pubs(k), r)
    ensures r in ch(k).batches && ch(k).batches[r] == ch(i).batches[r]
    decreases j - i
  {
    if Moves(pubs(i), r) {
      k := i;
    } else {
      assert PublisherTurn(ch, clock, pubs, i);
      if pubs(i).Some? {
        OthersKeepBatch(ch(i), clock(i), pubs(i).value, r);
      }
      k := NextMove(ch, clock, pubs, start, i + 1, j, r);
    }
  }

  lemma OwnNextMove<E>(ch: Channels<E>, clock: Clock, pubs: Pubs, start: nat, i: nat, r: nat) returns (k: nat)
    requires PublisherRun(ch, clock, pubs, start) && NoReplicaStalls(ch, pubs, start)
    requires start <= i && r in ch(i).batches
    ensures i <= k && Moves(pubs(k), r) && PublisherTurn(ch, clock, pubs, k)
    ensures r in ch(k).batches && ch(k).batches[r] == ch(i).batches[r]
  {
    assert BatchGoesOn(ch, pubs, i, r);
    var j: nat :| i <= j && Moves(pubs(j), r);
    k := NextMove(ch, clock, pubs, start, i, j, r);
  }

  lemma HandOverFollows<E>(c: Channel<E>, clock: Time, pub: PubStep, r: nat)
    requires PubEnabled(c, clock, pub) && Moves(Some(pub), r) && InPhase(c.batches, r, Ready)
    ensures InPhase(PubApply(c, clock, pub).batches, r, Sending)
    ensures PubApply(c, clock, pub).batches[r].remaining == c.batches[r].remaining
  {
  }

  lemma AckFollows<E>(c: Channel<E>, clock: Time, pub: PubStep, r: nat)
    requires PubEnabled(c, clock, pub) && Moves(Some(pub), r) && InPhase(c.batches, r, Sending)
    ensures InPhase(PubApply(c, clock, pub).batches, r, Acked)
    ensures PubApply(c, clock, pub).batches[r].remaining == c.batches[r].remaining
  {
  }

  lemma PublishFollows<E>(c: Channel<E>, clock: Time, pub: PubStep, r: nat)
    requires BatchesWellFormed(c) && PubEnabled(c, clock, pub) && Moves(Some(pub), r) && InPhase(c.batches, r, Acked)
    ensures c.batches[r].remaining[0] !in Unpublished(PubApply(c, clock, pub).rows)
  {
  }

  lemma GetsHandedOver<E>(ch: Channels<E>, clock: Clock, pubs: Pubs, start: nat, i: nat, r: nat) returns (k: nat)
    requires PublisherRun(ch, clock, pubs, start) && NoReplicaStalls(ch, pubs, start)
    requires start <= i && InPhase(ch(i).batches, r, Ready)
    ensures i <= k && InPhase(ch(k).batches, r, Sending) && ch(k).batches[r].remaining == ch(i).batches[r].remaining
  {
    k := OwnNextMove(ch, clock, pubs, start, i, r);
    HandOverFollows(ch(k), clock(k), pubs(k).value, r);
    k := k + 1;
  }

  lemma GetsAcked<E>(ch: Channels<E>, clock: Clock, pubs: Pubs, start: nat, i: nat, r: nat) returns (k: nat)
    requires PublisherRun(ch, clock, pubs, start) && NoReplicaStalls(ch, pubs, start)
    requires start <= i && InPhase(ch(i).batches, r, Sending)
    ensures i <= k && InPhase(ch(k).batches, r, Acked) && ch(k).batches[r].remaining == ch(i).batches[r].remaining
  {
    k := OwnNextMove(ch, clock, pubs, start, i, r);
    AckFollows(ch(k), clock(k), pubs(k).value, r);
    k := k + 1;
  }

  lemma GetsPublished<E>(ch: Channels<E>, clock: Clock, pubs: Pubs, start: nat, i: nat, r: nat) returns (k: nat)
    requires PublisherRun(ch, clock, pubs, start) && NoReplicaStalls(ch, pubs, start)
    requires start <= i && InPhase(ch(i).batches, r, Acked)
    ensures i <= k && ch(i).batches[r].remaining[0] !in Unpublished(ch(k).rows)
  {
    k := OwnNextMove(ch, clock, pubs, start, i, r);
    PublishFollows(ch(k), clock(k), pubs(k).value, r);
    k := k + 1;
  }

  /** A batch that is ready to send its first row gets it published. */
  lemma FirstRowIsPublished<E>(ch: Channels<E>, clock: Clock, pubs: Pubs, start: nat, i: nat, r: nat) returns (k: nat)
    requires PublisherRun(ch, clock, pubs, start) && NoReplicaStalls(ch, pubs, start)
    requires start <= i && InPhase(ch(i).batches, r, Ready)
    ensures i <= k && ch(i).batches[r].remaining[0] !in Unpublished(ch(k).rows)
  {
    k := GetsHandedOver(ch, clock, pubs, start, i, r);
    k := GetsAcked(ch, clock, pubs, start, k, r);
    k := GetsPublished(ch, clock, pubs, start, k, r);
  }

  // ----- A claim comes -----

  /** Up to `j` there is a claim, or the locks stay within the bound. */
  lemma {:induction false} ClaimOrLocksStay<E>(
    ch: Channels<E>, clock: Clock, pubs: Pubs, start: nat, i: nat, j: nat, bound: Time) returns (claim: Option<nat>)
    requires PublisherRun(ch, clock, pubs, start) && start <= i <= j && LocksWithin(ch(i).rows, bound)
    ensures claim.Some? ==> i <= claim.value && IsClaim(pubs(claim.value))
    ensures claim.None? ==> LocksWithin(ch(j).rows, bound)
    decreases j - i
  {
    claim := None;
    if IsClaim(pubs(i)) {
      claim := Some(i);
    } else if i < j {
      assert PublisherTurn(ch, clock, pubs, i);
      if pubs(i).Some? {
        OthersKeepLocks(ch(i), clock(i), pubs(i).value, bound);
      }
      claim := ClaimOrLocksStay(ch, clock, pubs, start, i + 1, j, bound);
    }
  }

  lemma OpenAgain<E>(rows: Table<E>, bound: Time, now: Time)
    requires LocksWithin(rows, bound) && bound <= now
    ensures ClaimableIds(rows, now) == Unpublished(rows)
  {
  }

  /** While rows are unpublished, some replica leases some again. */
  lemma ClaimComes<E>(ch: Channels<E>, clock: Clock, pubs: Pubs, start: nat, i: nat) returns (k: nat)
    requires PublisherRun(ch, clock, pubs, start) && FairPublishers(ch, clock, pubs, start) && start <= i
    ensures i <= k && (IsClaim(pubs(k)) || Unpublished(ch(k).rows) == {})
  {
    var bound := clock(i) + OUTBOX_LOCK;
    assert LocksWithin(ch(i).rows, bound) by { assert PublisherTurn(ch, clock, pubs, i); }
    assert Passes(clock, i, bound);
    var j: nat :| i <= j && bound <= clock(j);
    assert Polled(ch, clock, pubs, j);
    var l: nat :| j <= l && (IsClaim(pubs(l)) || ClaimableIds(ch(l).rows, clock(l)) == {});
    var claim := ClaimOrLocksStay(ch, clock, pubs, start, i, l, bound);
    if claim.Some? {
      k := claim.value;
    } else {
      OpenShrinks(ch, clock, pubs, start, j, l);
      OpenAgain(ch(l).rows, bound, clock(l));
      k := l;
    }
  }

  lemma ClaimedRowIsOpen<E>(c: Channel<E>, clock: Time, claim: PubStep)
    requires claim.Claim? && PubEnabled(c, clock, claim)
    ensures claim.picked != [] && claim.picked[0] in Unpublished(c.rows)
    ensures var after := PubApply(c, clock, claim);
            InPhase(after.batches, claim.replica, Ready) && after.batches[claim.replica].remaining == claim.picked
  {
    ClaimReturnsOldestOpenRows(c.rows, claim.skipped, claim.now, claim.picked);
    ClaimIsApplied(c, clock, claim);
  }

  /** What a replica has leased gets published, at least the first row of it. */
  lemma ClaimPublishes<E>(ch: Channels<E>, clock: Clock, pubs: Pubs, start: nat, i: nat) returns (k: nat)
    requires PublisherRun(ch, clock, pubs, start) && NoReplicaStalls(ch, pubs, start)
    requires start <= i && IsClaim(pubs(i))
    ensures i <= k && |Unpublished(ch(k).rows)| < |Unpublished(ch(i).rows)|
  {
    assert PublisherTurn(ch, clock, pubs, i);
    var claim := pubs(i).value;
    ClaimedRowIsOpen(ch(i), clock(i), claim);
    k := FirstRowIsPublished(ch, clock, pubs, start, i + 1, claim.replica);
    OpenShrinks(ch, clock, pubs, start, i, k);
    OneLess(Unpublished(ch(i).rows), Unpublished(ch(k).rows), claim.picked[0]);
  }

  lemma FewerOpen<E>(ch: Channels<E>, clock: Clock, pubs: Pubs, start: nat, i: nat) returns (k: nat)
    requires PublisherRun(ch, clock, pubs, start) && FairPublishers(ch, clock, pubs, start)
    requires start <= i && Unpublished(ch(i).rows) != {}
    ensures i <= k && |Unpublished(ch(k).rows)| < |Unpublished(ch(i).rows)|
  {
    var j := ClaimComes(ch, clock, pubs, start, i);
    OpenShrinks(ch, clock, pubs, start, i, j);
    SubsetCount(Unpublished(ch(j).rows), Unpublished(ch(i).rows));
    k := j;
    if IsClaim(pubs(j)) {
      k := ClaimPublishes(ch, clock, pubs, start, j);
    }
  }

  lemma OneLess(before: set<nat>, after: set<nat>, row: nat)
    requires after <= before && row in before && row !in after
    ensures |after| < |before|
  {
    SubsetCount(after, before);
  }

  /** Every row that is in the outbox at `i` is published from some moment on. */
  lemma {:induction false} AllPublished<E>(ch: Channels<E>, clock: Clock, pubs: Pubs, start: nat, i: nat)
      returns (n: nat)
    requires PublisherRun(ch, clock, pubs, start) && FairPublishers(ch, clock, pubs, start) && start <= i
    ensures i <= n && forall m: nat :: n <= m ==> Unpublished(ch(m).rows) == {} && ch(m).rows.Keys == ch(i).rows.Keys
    decreases |Unpublished(ch(i).rows)|
  {
    if Unpublished(ch(i).rows) == {} {
      n := i;
    } else {
      var k := FewerOpen(ch, clock, pubs, start, i);
      n := AllPublished(ch, clock, pubs, start, k);
      OpenShrinks(ch, clock, pubs, start, i, k);
    }
    forall m: nat | n <= m ensures Unpublished(ch(m).rows) == {} && ch(m).rows.Keys == ch(i).rows.Keys {
      OpenShrinks(ch, clock, pubs, start, i, m);
      OpenShrinks(ch, clock, pubs, start, n, m);
    }
  }
}
