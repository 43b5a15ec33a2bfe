/** What a client can reconstruct from the events it is sent: its `JoinedRoom` snapshot and the deltas
    dispatched afterwards, replayed by version, are the server's room
    (src/handlers/chat/mod.rs:195-382, 447-604, 716-724). */
module ChatReplica {
  import opened Prelude
  import opened Lists
  import opened Sums
  import opened Members
  import opened ChatSpec
  import opened ChatInvariant
  import opened ChatRuntime
  import opened ChatRooms

  // ----- The client -----

  function InsertAll(joined: seq<Summary>, members: seq<Summary>): seq<Summary>
  {
    if joined == [] then members else InsertAll(joined[1..], Insert(joined[0], members))
  }

  function DeleteAll(left: seq<Summary>, members: seq<Summary>): seq<Summary>
  {
    if left == [] then members else DeleteAll(left[1..], Delete(left[0], members))
  }

  /** A client knows nothing of connections: it keeps sorted summaries and the last twenty messages. */
  function ReplayOne(s: Snapshot, e: Event): Snapshot
  {
    match e
    case PresenceChanged(p) => s.(members := DeleteAll(p.left, InsertAll(p.joined, s.members)), version := p.version)
    case MessagePosted(m) => s.(recent := LastN(s.recent + [m], MAX_RECENT_MESSAGES), version := m.version)
    case _ => s
  }

  function Replay(s: Snapshot, events: seq<Event>): Snapshot
    decreases |events|
  {
    if events == [] then s else Replay(ReplayOne(s, events[0]), events[1..])
  }

  // ----- The events dispatched in a run -----

  ghost predicate StaysThrough(chat: Chat, steps: seq<Step>, c: ConnId, r: RoomId)
    requires Valid(chat, steps)
    decreases |steps|
  {
    Member(chat.hub, c, r) && (steps == [] || StaysThrough(Apply(chat, steps[0]), steps[1..], c, r))
  }

  /** The element of a set with at most one. */
  ghost function Listed(events: set<Event>): seq<Event>
  {
    if events == {} then [] else [Pick(events)]
  }

  /** The deltas of a room dispatched to a connection, in the order of the lock. */
  ghost function Log(chat: Chat, steps: seq<Step>, c: ConnId, r: RoomId): seq<Event>
    requires Valid(chat, steps)
    decreases |steps|
  {
    if steps == [] then []
    else Listed(DeltasTo(chat, steps[0], c, r)) + Log(Apply(chat, steps[0]), steps[1..], c, r)
  }

  /** Every step dispatches at most one delta of the room, so that the log misses none. */
  lemma AtMostOneDelta(chat: Chat, step: Step, c: ConnId, r: RoomId)
    requires ChatInv(chat) && Enabled(chat, step) && Stays(chat, step, c, r)
    ensures |DeltasTo(chat, step, c, r)| <= 1
    ensures forall e :: e in DeltasTo(chat, step, c, r) <==> e in Listed(DeltasTo(chat, step, c, r))
  {
    ToldEachChange(chat, step, c, r);
  }

  // ----- One step -----

  lemma ReplayJoin(r: RoomId, room: Room, c: ConnId, x: Summary)
    requires c !in room.members
    ensures ReplayOne(SnapshotOf(r, room), PresenceChanged(Presence(r, [x], [], room.version + 1)))
         == SnapshotOf(r, RoomJoin(room, c, x))
  {
    JoinInserts(room.members, c, x);
    InsertOne(x, SortedMembers(room.members));
  }

  lemma InsertOne(x: Summary, members: seq<Summary>)
    ensures InsertAll([x], members) == Insert(x, members)
  {
    assert InsertAll([], Insert(x, members)) == Insert(x, members);
  }

  lemma DeleteOne(x: Summary, members: seq<Summary>)
    ensures DeleteAll([x], members) == Delete(x, members)
  {
    assert DeleteAll([], Delete(x, members)) == Delete(x, members);
  }

  lemma ReplayLeave(r: RoomId, room: Room, c: ConnId)
    requires c in room.members
    ensures ReplayOne(SnapshotOf(r, room), PresenceChanged(Presence(r, [], [room.members[c]], room.version + 1)))
         == SnapshotOf(r, RoomLeave(room, c))
  {
    LeaveDeletes(room.members, c);
    DeleteOne(room.members[c], SortedMembers(room.members));
  }

  /** `e` is the news that turns the room `before` into the room `next`, its next version. */
  ghost predicate News(e: Event, before: Room, next: Room, r: RoomId)
  {
    && IsDelta(e, r)
    && DeltaVersion(e) == before.version + 1 == next.version
    && ReplayOne(SnapshotOf(r, before), e) == SnapshotOf(r, next)
  }

  lemma JoinIsNews(r: RoomId, room: Room, c: ConnId, x: Summary)
    requires c !in room.members
    ensures News(PresenceChanged(Presence(r, [x], [], room.version + 1)), room, RoomJoin(room, c, x), r)
  {
    ReplayJoin(r, room, c, x);
  }

  lemma LeaveIsNews(r: RoomId, room: Room, c: ConnId)
    requires c in room.members
    ensures News(PresenceChanged(Presence(r, [], [room.members[c]], room.version + 1)), room, RoomLeave(room, c), r)
  {
    ReplayLeave(r, room, c);
  }

  lemma NewsOfJoin(chat: Chat, step: Step, r: RoomId)
    requires Enabled(chat, step) && Joins(chat, step, r)
    ensures News(Delta(chat, step, r), RoomOf(chat.hub, r), RoomAfter(chat, step, r), r)
  {
    JoinIsNews(r, RoomOf(chat.hub, r), step.actor, SummaryOf(chat.sessions[step.actor]));
  }

  lemma NewsOfLeave(chat: Chat, step: Step, r: RoomId)
    requires Enabled(chat, step) && Leaves(chat, step, r) && RoomAfter(chat, step, r).members != map[]
    ensures News(Delta(chat, step, r), RoomOf(chat.hub, r), RoomAfter(chat, step, r), r)
  {
    LeaveIsNews(r, RoomOf(chat.hub, r), step.actor);
  }

  lemma NewsOfPost(chat: Chat, step: Step, r: RoomId)
    requires Enabled(chat, step) && Posts(chat, step, r)
    ensures News(Delta(chat, step, r), RoomOf(chat.hub, r), RoomAfter(chat, step, r), r)
  {
  }

  lemma NewsOfStep(chat: Chat, step: Step, r: RoomId)
    requires Enabled(chat, step) && Touches(chat, step, r) && RoomAfter(chat, step, r).members != map[]
    ensures News(Delta(chat, step, r), RoomOf(chat.hub, r), RoomAfter(chat, step, r), r)
  {
    if Joins(chat, step, r) {
      NewsOfJoin(chat, step, r);
    } else if Leaves(chat, step, r) {
      NewsOfLeave(chat, step, r);
    } else {
      NewsOfPost(chat, step, r);
    }
  }

  /** The versions are v + 1, v + 2, … without gap or repetition. */
  predicate GapFree(events: seq<Event>, r: RoomId, v: nat)
  {
    forall i :: 0 <= i < |events| ==> IsDelta(events[i], r) && DeltaVersion(events[i]) == v + 1 + i
  }

  lemma GapFreeCons(e: Event, rest: seq<Event>, r: RoomId, v: nat)
    requires IsDelta(e, r) && DeltaVersion(e) == v + 1 && GapFree(rest, r, v + 1)
    ensures GapFree([e] + rest, r, v)
  {
    forall i | 0 <= i < |[e] + rest|
      ensures IsDelta(([e] + rest)[i], r) && DeltaVersion(([e] + rest)[i]) == v + 1 + i
    {
      if i > 0 {
        assert ([e] + rest)[i] == rest[i - 1];
      }
    }
  }

  /** The room `now` is what the log makes of the room `before`, one version at a time. */
  ghost predicate Tracks(log: seq<Event>, before: Room, now: Room, r: RoomId)
  {
    && Replay(SnapshotOf(r, before), log) == SnapshotOf(r, now)
    && GapFree(log, r, before.version)
    && |log| == now.version - before.version
  }

  lemma TracksCons(e: Event, rest: seq<Event>, before: Room, mid: Room, now: Room, r: RoomId)
    requires News(e, before, mid, r) && Tracks(rest, mid, now, r)
    ensures Tracks([e] + rest, before, now, r)
  {
    GapFreeCons(e, rest, r, before.version);
    assert ([e] + rest)[0] == e && ([e] + rest)[1..] == rest;
    assert |[e] + rest| == 1 + |rest|;
  }

  function Told(chat: Chat, step: Step, r: RoomId): seq<Event>
    requires Enabled(chat, step)
  {
    if Touches(chat, step, r) then [Delta(chat, step, r)] else []
  }

  lemma LogCons(chat: Chat, steps: seq<Step>, c: ConnId, r: RoomId)
    requires Valid(chat, steps) && steps != [] && ToldExactly(chat, steps[0], c, r)
    ensures Log(chat, steps, c, r) == Told(chat, steps[0], r) + Log(Apply(chat, steps[0]), steps[1..], c, r)
  {
  }

  // ----- Whole runs -----

  /** While a connection stays in a room, it is sent exactly one delta for each version the room reaches,
      and replaying them turns the room as it was into the room as it is. */
  lemma {:induction false} LogReplaysRoom(chat: Chat, steps: seq<Step>, c: ConnId, r: RoomId)
    requires ChatInv(chat) && Valid(chat, steps) && StaysThrough(chat, steps, c, r)
    ensures Tracks(Log(chat, steps, c, r), RoomOf(chat.hub, r), RoomOf(Exec(chat, steps).hub, r), r)
    decreases |steps|
  {
    if steps != [] {
      var step, next := steps[0], Apply(chat, steps[0]);
      StepKeeps(chat, step);
      LogReplaysRoom(next, steps[1..], c, r);
      assert Member(next.hub, c, r);
      ToldEachChange(chat, step, c, r);
      LogCons(chat, steps, c, r);
      RoomStep(chat, step, r);
      var rest := Log(next, steps[1..], c, r);
      if Touches(chat, step, r) {
        NewsOfStep(chat, step, r);
        TracksCons(Delta(chat, step, r), rest, RoomOf(chat.hub, r), RoomOf(next.hub, r),
            RoomOf(Exec(chat, steps).hub, r), r);
      } else {
        assert [] + rest == rest;
      }
    }
  }

  // ----- Any order of arrival -----

  predicate ByVersion(events: seq<Event>, r: RoomId)
  {
    && (forall i :: 0 <= i < |events| ==> IsDelta(events[i], r))
    && (forall i, j :: 0 <= i < j < |events| ==> DeltaVersion(events[i]) < DeltaVersion(events[j]))
  }

  lemma SameFirst(log: seq<Event>, arrived: seq<Event>, r: RoomId)
    requires ByVersion(log, r) && ByVersion(arrived, r) && log != [] && arrived != []
    requires log[0] in arrived && arrived[0] in log
    ensures log[0] == arrived[0]
  {
    var i :| 0 <= i < |arrived| && arrived[i] == log[0];
    var j :| 0 <= j < |log| && log[j] == arrived[0];
    assert DeltaVersion(arrived[0]) <= DeltaVersion(arrived[i]);
    assert DeltaVersion(log[0]) <= DeltaVersion(log[j]);
  }

  lemma ByVersionRest(events: seq<Event>, r: RoomId)
    requires ByVersion(events, r) && events != []
    ensures ByVersion(events[1..], r)
  {
  }

  /** Events are queued after the lock is released, in any order; sorting by version restores the log. */
  lemma {:induction false} VersionsRestoreOrder(log: seq<Event>, arrived: seq<Event>, r: RoomId)
    requires ByVersion(log, r) && ByVersion(arrived, r) && multiset(arrived) == multiset(log)
    ensures arrived == log
    decreases |log|
  {
    if log != [] {
      FirstIsIn(log, arrived);
      FirstIsIn(arrived, log);
      SameFirst(log, arrived, r);
      RestsAgree(log, arrived);
      ByVersionRest(log, r);
      ByVersionRest(arrived, r);
      VersionsRestoreOrder(log[1..], arrived[1..], r);
      assert log == [log[0]] + log[1..] && arrived == [arrived[0]] + arrived[1..];
    } else if arrived != [] {
      FirstIsIn(arrived, log);
    }
  }

  /** A join, new or repeated, is answered to the joiner with the server's room, and with nothing else. */
  lemma JoinIsAnswered(chat: Chat, c: ConnId, raw: string)
    requires ChatInv(chat) && c in chat.sessions && NormalizeRoomId(raw).Ok?
    ensures var step, r := Handle(c, JoinRoom(raw)), NormalizeRoomId(raw).value;
            && Member(Apply(chat, step).hub, c, r)
            && Dispatch(c, JoinedRoom(SnapshotOf(r, RoomOf(Apply(chat, step).hub, r)))) in Dispatches(chat, step)
            && (forall d :: d in Dispatches(chat, step) && d.to == c ==>
                  d.event == JoinedRoom(SnapshotOf(r, RoomOf(Apply(chat, step).hub, r))))
  {
    var user, r := chat.sessions[c], NormalizeRoomId(raw).value;
    assert user.connectionId == c;
    JoinKeeps(chat.hub, user, r);
    var answer := JoinedRoom(SnapshotOf(r, RoomOf(Join(chat.hub, user, r), r)));
    FanOutHas({c}, chat.senders, answer, Dispatch(c, answer));
    assert Dispatches(chat, Handle(c, JoinRoom(raw))) == JoinDispatches(chat.hub, chat.senders, user, r);
  }

  // ----- Every version on the way -----

  lemma TakeRest(steps: seq<Step>, j: nat)
    requires steps != [] && j < |steps|
    ensures steps[..j + 1] != [] && steps[..j + 1][0] == steps[0] && steps[..j + 1][1..] == steps[1..][..j]
  {
  }

  /** Beginning with a step and going on with part of what follows it. */
  lemma PrefixCons(chat: Chat, steps: seq<Step>, c: ConnId, r: RoomId, j: nat)
    requires Valid(chat, steps) && steps != [] && j < |steps| && StaysThrough(chat, steps, c, r)
    requires ToldExactly(chat, steps[0], c, r)
    requires var next := Apply(chat, steps[0]);
             Valid(next, steps[1..][..j]) && StaysThrough(next, steps[1..][..j], c, r)
    ensures Valid(chat, steps[..j + 1]) && StaysThrough(chat, steps[..j + 1], c, r)
    ensures Log(chat, steps[..j + 1], c, r) == Told(chat, steps[0], r)
            + Log(Apply(chat, steps[0]), steps[1..][..j], c, r)
  {
    TakeRest(steps, j);
    LogCons(chat, steps[..j + 1], c, r);
  }

  lemma StayOneStep(chat: Chat, steps: seq<Step>, c: ConnId, r: RoomId)
    requires ChatInv(chat) && Valid(chat, steps) && StaysThrough(chat, steps, c, r) && steps != []
    ensures var next := Apply(chat, steps[0]);
            && ChatInv(next) && Valid(next, steps[1..]) && StaysThrough(next, steps[1..], c, r)
            && ToldExactly(chat, steps[0], c, r)
            && Log(chat, steps, c, r) == Told(chat, steps[0], r) + Log(next, steps[1..], c, r)
  {
    StepKeeps(chat, steps[0]);
    assert Member(Apply(chat, steps[0]).hub, c, r);
    ToldEachChange(chat, steps[0], c, r);
    LogCons(chat, steps, c, r);
  }

  lemma TakeOfSum<T>(a: seq<T>, b: seq<T>, k: nat)
    requires |a| <= k <= |a| + |b|
    ensures (a + b)[..k] == a + b[..k - |a|]
  {
  }

  /** Every part of the log from its beginning is the log of a part of the run. */
  lemma {:induction false} LogPrefix(chat: Chat, steps: seq<Step>, c: ConnId, r: RoomId, k: nat) returns (j: nat)
    requires ChatInv(chat) && Valid(chat, steps) && StaysThrough(chat, steps, c, r)
    requires k <= |Log(chat, steps, c, r)|
    ensures j <= |steps| && Valid(chat, steps[..j]) && StaysThrough(chat, steps[..j], c, r)
    ensures Log(chat, steps[..j], c, r) == Log(chat, steps, c, r)[..k]
    decreases |steps|
  {
    if k == 0 {
      j := 0;
    } else {
      var next, told := Apply(chat, steps[0]), Told(chat, steps[0], r);
      StayOneStep(chat, steps, c, r);
      j := LogPrefix(next, steps[1..], c, r, k - |told|);
      TakeOfSum(told, Log(next, steps[1..], c, r), k);
      PrefixCons(chat, steps, c, r, j);
      j := j + 1;
    }
  }

  /** The room after the first `j` steps of the run. */
  ghost predicate IsRoomAfter(chat: Chat, steps: seq<Step>, j: nat, r: RoomId, s: Snapshot)
  {
    j <= |steps| && Valid(chat, steps[..j]) && s == SnapshotOf(r, RoomOf(Exec(chat, steps[..j]).hub, r))
  }

  /** The server's room at some moment of the run. */
  ghost predicate WasRoom(chat: Chat, steps: seq<Step>, r: RoomId, s: Snapshot)
  {
    exists j: nat :: IsRoomAfter(chat, steps, j, r, s)
  }

  lemma PrefixWasRoom(chat: Chat, steps: seq<Step>, c: ConnId, r: RoomId, k: nat)
    requires ChatInv(chat) && Valid(chat, steps) && StaysThrough(chat, steps, c, r)
    requires k <= |Log(chat, steps, c, r)|
    ensures WasRoom(chat, steps, r, Replay(SnapshotOf(r, RoomOf(chat.hub, r)), Log(chat, steps, c, r)[..k]))
  {
    var j := LogPrefix(chat, steps, c, r, k);
    LogReplaysRoom(chat, steps[..j], c, r);
    assert IsRoomAfter(chat, steps, j, r, Replay(SnapshotOf(r, RoomOf(chat.hub, r)), Log(chat, steps, c, r)[..k]));
  }

  /** What a client makes of the snapshot and the events it was sent during `steps`: the room as it is, and
      after each event the room as it was at that version. */
  ghost predicate Replicates(chat: Chat, steps: seq<Step>, r: RoomId, answer: Snapshot, arrived: seq<Event>)
    requires Valid(chat, steps)
  {
    && GapFree(arrived, r, answer.version)
    && |arrived| == RoomOf(Exec(chat, steps).hub, r).version - answer.version
    && Replay(answer, arrived) == SnapshotOf(r, RoomOf(Exec(chat, steps).hub, r))
    && forall k :: 0 <= k <= |arrived| ==> WasRoom(chat, steps, r, Replay(answer, arrived[..k]))
  }

  lemma LogReplicates(chat: Chat, steps: seq<Step>, c: ConnId, r: RoomId)
    requires ChatInv(chat) && Valid(chat, steps) && StaysThrough(chat, steps, c, r)
    ensures Replicates(chat, steps, r, SnapshotOf(r, RoomOf(chat.hub, r)), Log(chat, steps, c, r))
  {
    LogReplaysRoom(chat, steps, c, r);
    forall k | 0 <= k <= |Log(chat, steps, c, r)|
      ensures WasRoom(chat, steps, r, Replay(SnapshotOf(r, RoomOf(chat.hub, r)), Log(chat, steps, c, r)[..k]))
    {
      PrefixWasRoom(chat, steps, c, r, k);
    }
  }

  /** The client replica, over every run from an empty server: whatever happened before, whenever and how
      often `c` joins `r`, and whatever happens after while it stays, in whatever order its events arrive. */
  lemma ClientReplica(before: seq<Step>, c: ConnId, raw: string, after: seq<Step>, r: RoomId, arrived: seq<Event>)
    requires Valid(EMPTY_CHAT, before) && c in Exec(EMPTY_CHAT, before).sessions && NormalizeRoomId(raw) == Ok(r)
    requires var joined := Apply(Exec(EMPTY_CHAT, before), Handle(c, JoinRoom(raw)));
             && Valid(joined, after) && StaysThrough(joined, after, c, r)
             && ByVersion(arrived, r) && multiset(arrived) == multiset(Log(joined, after, c, r))
    ensures var chat, step := Exec(EMPTY_CHAT, before), Handle(c, JoinRoom(raw));
            exists answer: Snapshot ::
              && Dispatch(c, JoinedRoom(answer)) in Dispatches(chat, step)
              && Replicates(Apply(chat, step), after, r, answer, arrived)
  {
    EmptyChatInv();
    RunKeeps(EMPTY_CHAT, before);
    var chat, step := Exec(EMPTY_CHAT, before), Handle(c, JoinRoom(raw));
    var joined := Apply(chat, step);
    StepKeeps(chat, step);
    JoinIsAnswered(chat, c, raw);
    LogReplicates(joined, after, c, r);
    LogReplaysRoom(joined, after, c, r);
    VersionsRestoreOrder(Log(joined, after, c, r), arrived, r);
    var answer := SnapshotOf(r, RoomOf(joined.hub, r));
    assert Dispatch(c, JoinedRoom(answer)) in Dispatches(chat, step);
  }

  /** Asking for the room state gives the replica back: resynchronising never contradicts the deltas. */
  lemma SyncAgreesWithReplica(chat: Chat, steps: seq<Step>, c: ConnId, r: RoomId, raw: string)
    requires ChatInv(chat) && Valid(chat, steps) && StaysThrough(chat, steps, c, r) && NormalizeRoomId(raw) == Ok(r)
    ensures var now := Exec(chat, steps);
            && c in now.sessions
            && Dispatches(now, Handle(c, SyncRoomState(raw)))
               == {Dispatch(c, RoomState(Replay(SnapshotOf(r, RoomOf(chat.hub, r)), Log(chat, steps, c, r))))}
  {
    LogReplaysRoom(chat, steps, c, r);
    RunKeeps(chat, steps);
    StaysAtEnd(chat, steps, c, r);
    var now := Exec(chat, steps);
    var state := RoomState(SnapshotOf(r, now.hub.rooms[r]));
    assert now.sessions[c].connectionId == c;
    assert FanOut({c}, now.senders, state) == {Dispatch(c, state)} by {
      FanOutHas({c}, now.senders, state, Dispatch(c, state));
    }
  }

  lemma {:induction false} StaysAtEnd(chat: Chat, steps: seq<Step>, c: ConnId, r: RoomId)
    requires Valid(chat, steps) && StaysThrough(chat, steps, c, r)
    ensures Member(Exec(chat, steps).hub, c, r)
    decreases |steps|
  {
    if steps != [] {
      StaysAtEnd(Apply(chat, steps[0]), steps[1..], c, r);
    }
  }
}
