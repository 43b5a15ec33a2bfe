/** What versions, histories and ids mean over whole runs of the chat, and who can be reached
    (src/handlers/chat/mod.rs:221-230, 266-268, 309-324, 365-378, 415-434, 482-604, 634-707). */
module ChatHistory {
  import opened Prelude
  import opened Members
  import opened ChatSpec
  import opened ChatInvariant
  import opened ChatRuntime
  import opened ChatRooms
  import Text

  // ----- Histories and versions -----

  /** The messages accepted for one room, in order. */
  ghost function Accepted(chat: Chat, steps: seq<Step>, r: RoomId): seq<RoomMessage>
    requires Valid(chat, steps)
    decreases |steps|
  {
    if steps == [] then []
    else (if Posts(chat, steps[0], r) then [Posted(chat, steps[0], r)] else [])
         + Accepted(Apply(chat, steps[0]), steps[1..], r)
  }

  /** The number of new joins, leaves, disconnections and messages of one room. */
  ghost function Touched(chat: Chat, steps: seq<Step>, r: RoomId): nat
    requires Valid(chat, steps)
    decreases |steps|
  {
    if steps == [] then 0
    else (if Touches(chat, steps[0], r) then 1 else 0) + Touched(Apply(chat, steps[0]), steps[1..], r)
  }

  ghost predicate Lives(chat: Chat, steps: seq<Step>, r: RoomId)
    requires Valid(chat, steps)
    decreases |steps|
  {
    r in chat.hub.rooms && (steps == [] || Lives(Apply(chat, steps[0]), steps[1..], r))
  }

  lemma LastNAppend<T>(s: seq<T>, t: seq<T>, n: nat)
    ensures LastN(LastN(s, n) + t, n) == LastN(s + t, n)
  {
  }

  /** The room `now` is the room `before` after `count` changes, among them these messages. */
  predicate Grown(before: Room, now: Room, messages: seq<RoomMessage>, count: nat)
  {
    now.version == before.version + count && now.recent == LastN(before.recent + messages, MAX_RECENT_MESSAGES)
  }

  lemma GrownCompose(before: Room, mid: Room, now: Room, first: seq<RoomMessage>, rest: seq<RoomMessage>, m: nat,
      n: nat)
    requires Grown(before, mid, first, m) && Grown(mid, now, rest, n)
    ensures Grown(before, now, first + rest, m + n)
  {
    LastNAppend(before.recent + first, rest, MAX_RECENT_MESSAGES);
    assert before.recent + first + rest == before.recent + (first + rest);
  }

  lemma NothingNew(chat: Chat, r: RoomId)
    requires ChatInv(chat)
    ensures Grown(RoomOf(chat.hub, r), RoomOf(chat.hub, r), [], 0)
  {
    assert r in chat.hub.rooms ==> HistoryOrdered(r, chat.hub.rooms[r]);
    assert RoomOf(chat.hub, r).recent + [] == RoomOf(chat.hub, r).recent;
  }

  /** One step of a room that lives on. */
  lemma LivingRoomStep(chat: Chat, step: Step, r: RoomId)
    requires ChatInv(chat) && Enabled(chat, step) && r in Apply(chat, step).hub.rooms
    ensures var before, next := RoomOf(chat.hub, r), RoomOf(Apply(chat, step).hub, r);
            Grown(before, next, if Posts(chat, step, r) then [Posted(chat, step, r)] else [],
                  if Touches(chat, step, r) then 1 else 0)
  {
    RoomStep(chat, step, r);
    StepKeeps(chat, step);
    NothingNew(chat, r);
    assert RoomOf(Apply(chat, step).hub, r).members != map[];
  }

  /** While a room lives, its version counts what happened to it, and its history is the last twenty
      of the messages it had and the messages accepted since. */
  lemma {:induction false} LivingRoom(chat: Chat, steps: seq<Step>, r: RoomId)
    requires ChatInv(chat) && Valid(chat, steps) && Lives(chat, steps, r)
    ensures Grown(RoomOf(chat.hub, r), RoomOf(Exec(chat, steps).hub, r), Accepted(chat, steps, r),
            Touched(chat, steps, r))
    decreases |steps|
  {
    if steps == [] {
      NothingNew(chat, r);
    } else {
      var step, next := steps[0], Apply(chat, steps[0]);
      StepKeeps(chat, step);
      LivingRoom(next, steps[1..], r);
      LivingRoomStep(chat, step, r);
      GrownCompose(RoomOf(chat.hub, r), RoomOf(next.hub, r), RoomOf(Exec(chat, steps).hub, r),
                   if Posts(chat, step, r) then [Posted(chat, step, r)] else [], Accepted(next, steps[1..], r),
                   if Touches(chat, step, r) then 1 else 0, Touched(next, steps[1..], r));
    }
  }

  /** Over every run, from the step that creates a room on and for as long as it lives: its version is
      the number of joins, leaves, disconnections and messages since, the creating join included, and its
      history is the last twenty messages accepted since, with strictly increasing versions. */
  lemma HistoryMeaning(before: seq<Step>, creating: Step, after: seq<Step>, r: RoomId)
    requires Valid(EMPTY_CHAT, before) && Enabled(Exec(EMPTY_CHAT, before), creating)
    requires r !in Exec(EMPTY_CHAT, before).hub.rooms
    requires var created := Apply(Exec(EMPTY_CHAT, before), creating); Valid(created, after) && Lives(created, after, r)
    ensures var created := Apply(Exec(EMPTY_CHAT, before), creating);
            var room := Exec(created, after).hub.rooms;
            && Joins(Exec(EMPTY_CHAT, before), creating, r)
            && r in room
            && room[r].version == 1 + Touched(created, after, r)
            && room[r].recent == LastN(Accepted(created, after, r), MAX_RECENT_MESSAGES)
            && HistoryOrdered(r, room[r])
  {
    EmptyChatInv();
    RunKeeps(EMPTY_CHAT, before);
    var chat := Exec(EMPTY_CHAT, before);
    var created := Apply(chat, creating);
    RoomStep(chat, creating, r);
    StepKeeps(chat, creating);
    assert created.hub.rooms[r].members != map[];
    assert Joins(chat, creating, r);
    LivingRoom(created, after, r);
    RunKeeps(created, after);
    LivesAtEnd(created, after, r);
    assert [] + Accepted(created, after, r) == Accepted(created, after, r);
  }

  lemma {:induction false} LivesAtEnd(chat: Chat, steps: seq<Step>, r: RoomId)
    requires Valid(chat, steps) && Lives(chat, steps, r)
    ensures r in Exec(chat, steps).hub.rooms
    decreases |steps|
  {
    if steps != [] {
      LivesAtEnd(Apply(chat, steps[0]), steps[1..], r);
    }
  }

  // ----- Message ids -----

  predicate Sends(chat: Chat, step: Step)
    requires Enabled(chat, step)
  {
    step.Handle? && step.command.SendRoomMessage? && Process(chat.hub, chat.sessions[step.actor], step.command).Ok?
  }

  function SentBy(chat: Chat, step: Step): RoomMessage
    requires Enabled(chat, step) && Sends(chat, step)
  {
    NewMessage(chat.hub, chat.sessions[step.actor].connectionId,
               NormalizeRoomId(step.command.roomId).value, NormalizeContent(step.command.content).value)
  }

  /** The messages accepted in a run, whatever their room. */
  ghost function AllAccepted(chat: Chat, steps: seq<Step>): seq<RoomMessage>
    requires Valid(chat, steps)
    decreases |steps|
  {
    if steps == [] then []
    else (if Sends(chat, steps[0]) then [SentBy(chat, steps[0])] else [])
         + AllAccepted(Apply(chat, steps[0]), steps[1..])
  }

  /** The counter goes up with every message, whose id is the new count, and with nothing else. */
  lemma CounterStep(chat: Chat, step: Step)
    requires Enabled(chat, step)
    ensures Apply(chat, step).hub.nextMessageId == chat.hub.nextMessageId + if Sends(chat, step) then 1 else 0
    ensures Sends(chat, step) ==> SentBy(chat, step).messageId == MessageId(chat.hub.nextMessageId + 1)
  {
  }

  predicate MessagesFrom(messages: seq<RoomMessage>, n: nat)
  {
    forall i :: 0 <= i < |messages| ==> messages[i].messageId == MessageId(n + i)
  }

  lemma MessagesCons(m: RoomMessage, rest: seq<RoomMessage>, n: nat)
    requires m.messageId == MessageId(n) && MessagesFrom(rest, n + 1)
    ensures MessagesFrom([m] + rest, n)
  {
    var all := [m] + rest;
    forall i | 0 <= i < |all| ensures all[i].messageId == MessageId(n + i) {
      if i > 0 { assert all[i] == rest[i - 1]; }
    }
  }

  lemma {:induction false} MessagesAreNumbered(chat: Chat, steps: seq<Step>)
    requires Valid(chat, steps)
    ensures MessagesFrom(AllAccepted(chat, steps), chat.hub.nextMessageId + 1)
    decreases |steps|
  {
    if steps != [] {
      var next := Apply(chat, steps[0]);
      MessagesAreNumbered(next, steps[1..]);
      var rest := AllAccepted(next, steps[1..]);
      CounterStep(chat, steps[0]);
      if Sends(chat, steps[0]) {
        MessagesCons(SentBy(chat, steps[0]), rest, chat.hub.nextMessageId + 1);
      } else {
        assert [] + rest == rest;
      }
    }
  }

  lemma MessageIdInjective(a: nat, b: nat)
    requires MessageId(a) == MessageId(b)
    ensures a == b
  {
    assert MessageId(a)[4..] == Text.Decimal(a);
    assert MessageId(b)[4..] == Text.Decimal(b);
    Text.DecimalInjective(a, b);
  }

  /** No two messages of a run share an id, whatever their rooms, and rooms that are created anew included. */
  lemma MessageIdsAreUnique(chat: Chat, steps: seq<Step>, i: nat, j: nat)
    requires Valid(chat, steps) && i < |AllAccepted(chat, steps)| && j < |AllAccepted(chat, steps)|
    ensures AllAccepted(chat, steps)[i].messageId == AllAccepted(chat, steps)[j].messageId <==> i == j
  {
    MessagesAreNumbered(chat, steps);
    if AllAccepted(chat, steps)[i].messageId == AllAccepted(chat, steps)[j].messageId {
      MessageIdInjective(chat.hub.nextMessageId + 1 + i, chat.hub.nextMessageId + 1 + j);
    }
  }

  /** Each room's messages are among them. */
  lemma {:induction false} AcceptedAreAmongAll(chat: Chat, steps: seq<Step>, r: RoomId, m: RoomMessage)
    requires ChatInv(chat) && Valid(chat, steps) && m in Accepted(chat, steps, r)
    ensures m in AllAccepted(chat, steps) && m.roomId == r
    decreases |steps|
  {
    var next := Apply(chat, steps[0]);
    StepKeeps(chat, steps[0]);
    if Posts(chat, steps[0], r) && m == Posted(chat, steps[0], r) {
      assert chat.sessions[steps[0].actor].connectionId == steps[0].actor;
      assert AllAccepted(chat, steps)[0] == m;
    } else {
      AcceptedAreAmongAll(next, steps[1..], r, m);
    }
  }

  // ----- Connection ids and senders -----

  /** The ids given out by the registrations of a run. */
  ghost function IssuedIds(chat: Chat, steps: seq<Step>): seq<ConnId>
    requires Valid(chat, steps)
    decreases |steps|
  {
    if steps == [] then []
    else (if steps[0].Register? then [ConnectionId(chat.nextConnectionId + 1)] else [])
         + IssuedIds(Apply(chat, steps[0]), steps[1..])
  }

  predicate IdsFrom(ids: seq<ConnId>, n: nat)
  {
    forall i :: 0 <= i < |ids| ==> ids[i] == ConnectionId(n + i)
  }

  lemma IdsCons(rest: seq<ConnId>, n: nat)
    requires IdsFrom(rest, n + 1)
    ensures IdsFrom([ConnectionId(n)] + rest, n)
  {
    var all := [ConnectionId(n)] + rest;
    forall i | 0 <= i < |all| ensures all[i] == ConnectionId(n + i) {
      if i > 0 { assert all[i] == rest[i - 1]; }
    }
  }

  lemma IdCounterStep(chat: Chat, step: Step)
    requires Enabled(chat, step)
    ensures Apply(chat, step).nextConnectionId == chat.nextConnectionId + if step.Register? then 1 else 0
  {
  }

  lemma IssuedCons(chat: Chat, steps: seq<Step>)
    requires Valid(chat, steps) && steps != []
    ensures IssuedIds(chat, steps)
         == (if steps[0].Register? then [ConnectionId(chat.nextConnectionId + 1)] else [])
            + IssuedIds(Apply(chat, steps[0]), steps[1..])
  {
  }

  lemma {:induction false} IdsAreNumbered(chat: Chat, steps: seq<Step>)
    requires Valid(chat, steps)
    ensures IdsFrom(IssuedIds(chat, steps), chat.nextConnectionId + 1)
    decreases |steps|
  {
    if steps != [] {
      var next := Apply(chat, steps[0]);
      IdsAreNumbered(next, steps[1..]);
      var rest := IssuedIds(next, steps[1..]);
      IdCounterStep(chat, steps[0]);
      IssuedCons(chat, steps);
      if steps[0].Register? {
        IdsCons(rest, chat.nextConnectionId + 1);
      } else {
        assert [] + rest == rest;
      }
    }
  }

  lemma IssuedAt(chat: Chat, steps: seq<Step>, i: nat)
    requires Valid(chat, steps) && i < |IssuedIds(chat, steps)|
    ensures IssuedIds(chat, steps)[i] == ConnectionId(chat.nextConnectionId + 1 + i)
  {
    IdsAreNumbered(chat, steps);
  }

  lemma DifferentCountsDiffer(n: nat, i: nat, j: nat)
    ensures ConnectionId(n + i) == ConnectionId(n + j) <==> i == j
  {
    if ConnectionId(n + i) == ConnectionId(n + j) {
      ConnectionIdInjective(n + i, n + j);
    }
  }

  lemma LaterIsNotLive(chat: Chat, i: nat)
    requires SessionsOwnIds(chat)
    ensures ConnectionId(chat.nextConnectionId + 1 + i) !in chat.sessions
  {
    LaterIdIsNew(chat.nextConnectionId, chat.nextConnectionId + 1 + i);
  }

  /** Connection ids are never reused, closed connections' ids included. */
  lemma ConnectionIdsAreNeverReused(chat: Chat, steps: seq<Step>, i: nat, j: nat)
    requires SessionsOwnIds(chat) && Valid(chat, steps) && i < |IssuedIds(chat, steps)| && j < |IssuedIds(chat, steps)|
    ensures IssuedIds(chat, steps)[i] == IssuedIds(chat, steps)[j] <==> i == j
    ensures IssuedIds(chat, steps)[i] !in chat.sessions
  {
    IssuedAt(chat, steps, i);
    IssuedAt(chat, steps, j);
    DifferentCountsDiffer(chat.nextConnectionId + 1, i, j);
    LaterIsNotLive(chat, i);
  }

  /** In every reachable state every member of every room has a registered sender, so the filter of the
      fan-out drops nobody: with more senders the same events would be dispatched to the same connections. */
  lemma LiveSenders(steps: seq<Step>, step: Step, more: set<ConnId>)
    requires Valid(EMPTY_CHAT, steps) && Enabled(Exec(EMPTY_CHAT, steps), step)
    ensures var chat := Exec(EMPTY_CHAT, steps);
            && (forall c, r :: Member(chat.hub, c, r) ==> c in chat.senders)
            && Dispatches(chat.(senders := chat.senders + more), step) == Dispatches(chat, step)
  {
    EmptyChatInv();
    RunKeeps(EMPTY_CHAT, steps);
    var chat := Exec(EMPTY_CHAT, steps);
    if step.Handle? {
      AnswersReachAll(chat, step.actor, step.command, more);
    } else if step.Unregister? {
      DisconnectReachesAll(chat, step.actor, more);
    }
  }

  lemma FanOutReachesAll(recipients: set<ConnId>, senders: set<ConnId>, more: set<ConnId>, event: Event)
    requires recipients <= senders
    ensures FanOut(recipients, senders + more, event) == FanOut(recipients, senders, event)
  {
  }

  lemma MembersAreSenders(chat: Chat, r: RoomId)
    requires ChatInv(chat)
    ensures RoomOf(chat.hub, r).members.Keys <= chat.senders
  {
    forall c | c in RoomOf(chat.hub, r).members ensures c in chat.senders {
      assert Member(chat.hub, c, r);
    }
  }

  lemma AnswersReachAll(chat: Chat, c: ConnId, command: Command, more: set<ConnId>)
    requires ChatInv(chat) && c in chat.sessions
    ensures Answers(chat.hub, chat.senders + more, chat.sessions[c], command)
         == Answers(chat.hub, chat.senders, chat.sessions[c], command)
  {
    var hub, senders, user, outcome := chat.hub, chat.senders, chat.sessions[c],
        Process(chat.hub, chat.sessions[c], command);
    assert user.connectionId == c;
    if outcome.Err? {
      FanOutReachesAll({c}, senders, more, Failed(outcome.error));
    } else {
      match command
      case Ping => FanOutReachesAll({c}, senders, more, Pong);
      case JoinRoom(raw) => JoinReachesAll(chat, c, NormalizeRoomId(raw).value, more);
      case LeaveRoom(raw) =>
        var r := NormalizeRoomId(raw).value;
        MembersAreSenders(chat, r);
        FanOutReachesAll({c}, senders, more, LeftRoom(r, hub.rooms[r].version + 1));
        FanOutReachesAll(hub.rooms[r].members.Keys - {c}, senders, more, PresenceChanged(LeavePresence(hub, c, r)));
      case SendRoomMessage(raw, content) =>
        var r := NormalizeRoomId(raw).value;
        MembersAreSenders(chat, r);
        FanOutReachesAll(hub.rooms[r].members.Keys, senders, more,
                         MessagePosted(NewMessage(hub, c, r, NormalizeContent(content).value)));
      case SyncRoomState(raw) =>
        var r := NormalizeRoomId(raw).value;
        FanOutReachesAll({c}, senders, more, RoomState(SnapshotOf(r, hub.rooms[r])));
    }
  }

  lemma JoinReachesAll(chat: Chat, c: ConnId, r: RoomId, more: set<ConnId>)
    requires ChatInv(chat) && c in chat.sessions
    ensures JoinDispatches(chat.hub, chat.senders + more, chat.sessions[c], r)
         == JoinDispatches(chat.hub, chat.senders, chat.sessions[c], r)
  {
    var user := chat.sessions[c];
    assert user.connectionId == c;
    MembersAreSenders(chat, r);
    var room := RoomOf(Join(chat.hub, user, r), r);
    FanOutReachesAll({c}, chat.senders, more, JoinedRoom(SnapshotOf(r, room)));
    FanOutReachesAll(room.members.Keys - {c}, chat.senders, more,
                     PresenceChanged(Presence(r, [SummaryOf(user)], [], room.version)));
  }

  lemma DisconnectReachesAll(chat: Chat, c: ConnId, more: set<ConnId>)
    requires ChatInv(chat) && c in chat.sessions
    ensures DisconnectDispatches(chat.hub, chat.senders + more, c) == DisconnectDispatches(chat.hub, chat.senders, c)
  {
    var after := Disconnect(chat.hub, c);
    forall p, r | p in RoomOf(after, r).members ensures p in chat.senders - {c} {
      assert Member(after, p, r);
      DisconnectEffect(chat.hub, c, p, r);
    }
    var changes, narrow := DisconnectPresences(chat.hub, c), DisconnectDispatches(chat.hub, chat.senders, c);
    forall d | d in DisconnectDispatches(chat.hub, chat.senders + more, c) ensures d in narrow {
      var r :| r in changes && d.to in RoomOf(after, r).members && d.event == PresenceChanged(changes[r]);
      assert d.to in chat.senders - {c};
    }
    forall d | d in narrow ensures d in DisconnectDispatches(chat.hub, chat.senders + more, c) {
      var r :| r in changes && d.to in RoomOf(after, r).members && d.event == PresenceChanged(changes[r]);
      assert d.to in chat.senders + more - {c};
    }
  }

  /** In every reachable state, closing a connection leaves the hub and announces what leaving each of its
      rooms would, in any order and with any spelling: within a session the user never changes. */
  lemma ClosingIsLeaving(steps: seq<Step>, c: ConnId, raws: seq<string>)
    requires Valid(EMPTY_CHAT, steps)
    requires NamesAllRooms(Exec(EMPTY_CHAT, steps).hub, c, raws)
    ensures var hub := Exec(EMPTY_CHAT, steps).hub;
            && LeaveEach(hub, c, raws) == Disconnect(hub, c)
            && LeaveEachPresences(hub, c, raws) == DisconnectPresences(hub, c)
  {
    EmptyChatInv();
    RunKeeps(EMPTY_CHAT, steps);
    var chat := Exec(EMPTY_CHAT, steps);
    assert UserFixed(chat.hub, c);
    DisconnectIsLeavingEach(chat.hub, c, raws);
    SameAnnouncementsIffUserFixed(chat.hub, c, raws);
  }

  // ----- Closed connections -----

  /** Issued, but with no session any more. */
  predicate Closed(chat: Chat, c: ConnId)
  {
    Issued(c, chat.nextConnectionId) && c !in chat.sessions
  }

  lemma ClosedStays(chat: Chat, step: Step, c: ConnId)
    requires ChatInv(chat) && Closed(chat, c) && Enabled(chat, step)
    ensures Closed(Apply(chat, step), c)
  {
    NextIdIsNew(chat);
    IssuedStays(c, chat.nextConnectionId, Apply(chat, step).nextConnectionId);
  }

  lemma ClosedIsNotAddressed(chat: Chat, step: Step, c: ConnId, d: Dispatch)
    requires ChatInv(chat) && Closed(chat, c) && Enabled(chat, step) && d in Dispatches(chat, step)
    ensures d.to != c
  {
    NextIdIsNew(chat);
    if step.Handle? {
      assert chat.sessions[step.actor].connectionId == step.actor;
    }
  }

  lemma {:induction false} ClosedThroughout(chat: Chat, steps: seq<Step>, c: ConnId)
    requires ChatInv(chat) && Closed(chat, c) && Valid(chat, steps)
    ensures ChatInv(Exec(chat, steps)) && Closed(Exec(chat, steps), c)
    decreases |steps|
  {
    if steps != [] {
      ClosedStays(chat, steps[0], c);
      StepKeeps(chat, steps[0]);
      ClosedThroughout(Apply(chat, steps[0]), steps[1..], c);
    }
  }

  /** A closed connection stays closed, is in no room, and is sent nothing by any later step. */
  lemma ClosedHearsNothing(chat: Chat, steps: seq<Step>, c: ConnId)
    requires ChatInv(chat) && Closed(chat, c) && Valid(chat, steps)
    ensures var now := Exec(chat, steps);
            && Closed(now, c)
            && (forall r :: !Member(now.hub, c, r))
            && (forall step, d :: Enabled(now, step) && d in Dispatches(now, step) ==> d.to != c)
  {
    ClosedThroughout(chat, steps, c);
    var now := Exec(chat, steps);
    forall step, d | Enabled(now, step) && d in Dispatches(now, step) ensures d.to != c {
      ClosedIsNotAddressed(now, step, c, d);
    }
  }
}
