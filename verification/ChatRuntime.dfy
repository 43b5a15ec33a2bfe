/** The chat runtime as a state machine: sessions register, send commands and unregister once; every
    command is one step under the lock, and dispatches its events when the lock is released
    (src/handlers/chat/mod.rs:397-707). */
module ChatRuntime {
  import opened Prelude
  import opened Members
  import opened ChatSpec
  import opened ChatInvariant
  import Text

  datatype Event =
    | Connected(user: Summary)
    | JoinedRoom(joined: Snapshot)
    | LeftRoom(roomId: RoomId, version: nat)
    | MessagePosted(message: RoomMessage)
    | RoomState(state: Snapshot)
    | PresenceChanged(presence: Presence)
    | Pong
    | Failed(error: ChatError)

  datatype Dispatch = Dispatch(to: ConnId, event: Event)

  /** What a text frame decodes to; `Undecodable` is one that is no command. */
  datatype Command =
    | JoinRoom(roomId: string)
    | LeaveRoom(roomId: string)
    | SendRoomMessage(roomId: string, content: string)
    | SyncRoomState(roomId: string)
    | Ping
    | Undecodable

  /** `senders` holds the connections with a registered queue; `sessions` the running sockets. */
  datatype Chat = Chat(hub: Hub, senders: set<ConnId>, nextConnectionId: nat, sessions: map<ConnId, SessionUser>)

  datatype Step =
    | Register(userId: string, userName: string)
    | Handle(actor: ConnId, command: Command)
    | Unregister(actor: ConnId)

  const EMPTY_CHAT := Chat(EMPTY_HUB, {}, 0, map[])

  function ConnectionId(n: nat): ConnId
  {
    "chat-" + Text.Decimal(n)
  }

  /** Commands come from a session that has registered and not yet unregistered. */
  predicate Enabled(chat: Chat, step: Step)
  {
    step.Register? || step.actor in chat.sessions
  }

  ghost function SnapshotOf(r: RoomId, room: Room): Snapshot
  {
    Snapshot(r, SortedMembers(room.members), room.recent, room.version)
  }

  // ----- What a step changes -----

  /** The hub after a command, or the error for which it stays as it was. */
  function Process(hub: Hub, user: SessionUser, command: Command): Result<Hub, ChatError>
  {
    var c := user.connectionId;
    match command
    case Ping => Ok(hub)
    case Undecodable => Err(InvalidMessage)
    case JoinRoom(raw) => (
      var id := NormalizeRoomId(raw);
      if id.Err? then Err(id.error) else Ok(Join(hub, user, id.value)))
    case LeaveRoom(raw) => (
      var id := NormalizeRoomId(raw);
      if id.Err? then Err(id.error)
      else if CanLeave(hub, c, id.value) then Ok(Leave(hub, c, id.value)) else Err(NotInRoom(id.value)))
    case SendRoomMessage(raw, content) => (
      var id, text := NormalizeRoomId(raw), NormalizeContent(content);
      if id.Err? then Err(id.error)
      else if text.Err? then Err(text.error)
      else if CanLeave(hub, c, id.value) then Ok(Send(hub, c, id.value, text.value)) else Err(NotInRoom(id.value)))
    case SyncRoomState(raw) => (
      var id := NormalizeRoomId(raw);
      if id.Err? then Err(id.error)
      else if Member(hub, c, id.value) then Ok(hub) else Err(NotInRoom(id.value)))
  }

  function HubAfter(hub: Hub, user: SessionUser, command: Command): Hub
  {
    var outcome := Process(hub, user, command);
    if outcome.Ok? then outcome.value else hub
  }

  function Apply(chat: Chat, step: Step): Chat
    requires Enabled(chat, step)
  {
    match step
    case Register(userId, userName) => (
      var c := ConnectionId(chat.nextConnectionId + 1);
      Chat(chat.hub, chat.senders + {c}, chat.nextConnectionId + 1,
          chat.sessions[c := SessionUser(c, userId, userName)]))
    case Handle(c, command) => chat.(hub := HubAfter(chat.hub, chat.sessions[c], command))
    case Unregister(c) =>
      Chat(Disconnect(chat.hub, c), chat.senders - {c}, chat.nextConnectionId, chat.sessions - {c})
  }

  // ----- What a step sends -----

  /** One event for every recipient with a registered sender; the others are skipped. */
  function FanOut(recipients: set<ConnId>, senders: set<ConnId>, event: Event): set<Dispatch>
  {
    set c | c in recipients && c in senders :: Dispatch(c, event)
  }

  ghost function JoinDispatches(hub: Hub, senders: set<ConnId>, user: SessionUser, r: RoomId): set<Dispatch>
  {
    var c, room := user.connectionId, RoomOf(Join(hub, user, r), r);
    FanOut({c}, senders, JoinedRoom(SnapshotOf(r, room)))
    + if c in RoomOf(hub, r).members then {}
      else FanOut(room.members.Keys - {c}, senders, PresenceChanged(Presence(r, [SummaryOf(user)], [], room.version)))
  }

  function LeaveDispatches(hub: Hub, senders: set<ConnId>, c: ConnId, r: RoomId): set<Dispatch>
    requires Member(hub, c, r)
  {
    FanOut({c}, senders, LeftRoom(r, hub.rooms[r].version + 1))
    + FanOut(hub.rooms[r].members.Keys - {c}, senders, PresenceChanged(LeavePresence(hub, c, r)))
  }

  function SendDispatches(hub: Hub, senders: set<ConnId>, c: ConnId, r: RoomId, text: string): set<Dispatch>
    requires CanLeave(hub, c, r)
  {
    FanOut(hub.rooms[r].members.Keys, senders, MessagePosted(NewMessage(hub, c, r, text)))
  }

  /** A failed command is answered with its error. */
  ghost function Answers(hub: Hub, senders: set<ConnId>, user: SessionUser, command: Command): set<Dispatch>
  {
    var c, outcome := user.connectionId, Process(hub, user, command);
    if outcome.Err? then FanOut({c}, senders, Failed(outcome.error))
    else match command
      case Ping => FanOut({c}, senders, Pong)
      case JoinRoom(raw) => JoinDispatches(hub, senders, user, NormalizeRoomId(raw).value)
      case LeaveRoom(raw) => LeaveDispatches(hub, senders, c, NormalizeRoomId(raw).value)
      case SendRoomMessage(raw, content) =>
        SendDispatches(hub, senders, c, NormalizeRoomId(raw).value, NormalizeContent(content).value)
      case SyncRoomState(raw) => (
        var r := NormalizeRoomId(raw).value;
        FanOut({c}, senders, RoomState(SnapshotOf(r, hub.rooms[r]))))
  }

  /** The presence change of each of these rooms, for every remaining member. */
  function Farewells(rooms: set<RoomId>, changes: map<RoomId, Presence>, after: Hub,
      senders: set<ConnId>): set<Dispatch>
  {
    set r, p | r in rooms && r in changes && p in RoomOf(after, r).members && p in senders ::
      Dispatch(p, PresenceChanged(changes[r]))
  }

  /** The members that remain in a room hear of the leaver; its own sender is gone already. */
  function DisconnectDispatches(hub: Hub, senders: set<ConnId>, c: ConnId): set<Dispatch>
  {
    var changes := DisconnectPresences(hub, c);
    Farewells(changes.Keys, changes, Disconnect(hub, c), senders - {c})
  }

  /** Everything one step sends: each event to each recipient once. */
  ghost function Dispatches(chat: Chat, step: Step): set<Dispatch>
    requires Enabled(chat, step)
  {
    match step
    case Register(userId, userName) =>
      {Dispatch(ConnectionId(chat.nextConnectionId + 1), Connected(Summary(userId, userName)))}
    case Handle(c, command) => Answers(chat.hub, chat.senders, chat.sessions[c], command)
    case Unregister(c) => DisconnectDispatches(chat.hub, chat.senders, c)
  }

  // ----- Runs -----

  ghost predicate Valid(chat: Chat, steps: seq<Step>)
    decreases |steps|
  {
    steps == [] || (Enabled(chat, steps[0]) && Valid(Apply(chat, steps[0]), steps[1..]))
  }

  ghost function Exec(chat: Chat, steps: seq<Step>): Chat
    requires Valid(chat, steps)
    decreases |steps|
  {
    if steps == [] then chat else Exec(Apply(chat, steps[0]), steps[1..])
  }

  lemma {:induction false} ExecAppend(chat: Chat, before: seq<Step>, after: seq<Step>)
    requires Valid(chat, before) && Valid(Exec(chat, before), after)
    ensures Valid(chat, before + after)
    ensures Exec(chat, before + after) == Exec(Exec(chat, before), after)
    decreases |before|
  {
    if before == [] {
      assert before + after == after;
    } else {
      ExecAppend(Apply(chat, before[0]), before[1..], after);
      assert (before + after)[1..] == before[1..] + after;
    }
  }

  // ----- Invariant -----

  /** Some registration so far was given this id. */
  predicate Issued(c: ConnId, count: nat)
  {
    exists n: nat :: 1 <= n <= count && c == ConnectionId(n)
  }

  predicate SessionsOwnIds(chat: Chat)
  {
    forall c :: c in chat.sessions ==> chat.sessions[c].connectionId == c && Issued(c, chat.nextConnectionId)
  }

  /** A connection's user is its session's, and so is its entry in every room. */
  ghost predicate UsersKnown(chat: Chat)
  {
    && (forall c :: c in chat.hub.connections ==>
          c in chat.sessions && chat.hub.connections[c].user == chat.sessions[c])
    && (forall c, r :: Member(chat.hub, c, r) ==>
          c in chat.sessions && chat.hub.rooms[r].members[c] == SummaryOf(chat.sessions[c]))
  }

  ghost predicate ChatInv(chat: Chat)
  {
    HubInv(chat.hub) && SessionsOwnIds(chat) && UsersKnown(chat) && chat.senders == chat.sessions.Keys
  }

  lemma EmptyChatInv()
    ensures ChatInv(EMPTY_CHAT)
  {
    EmptyHubInv();
  }

  lemma ConnectionIdInjective(a: nat, b: nat)
    requires ConnectionId(a) == ConnectionId(b)
    ensures a == b
  {
    assert ConnectionId(a)[5..] == Text.Decimal(a);
    assert ConnectionId(b)[5..] == Text.Decimal(b);
    Text.DecimalInjective(a, b);
  }

  lemma LaterIdIsNew(count: nat, later: nat)
    requires count < later
    ensures !Issued(ConnectionId(later), count)
  {
    if Issued(ConnectionId(later), count) {
      var n: nat :| 1 <= n <= count && ConnectionId(later) == ConnectionId(n);
      ConnectionIdInjective(n, later);
    }
  }

  /** The next id has not been issued. */
  lemma NextIdIsNew(chat: Chat)
    requires SessionsOwnIds(chat)
    ensures !Issued(ConnectionId(chat.nextConnectionId + 1), chat.nextConnectionId)
    ensures ConnectionId(chat.nextConnectionId + 1) !in chat.sessions
  {
    LaterIdIsNew(chat.nextConnectionId, chat.nextConnectionId + 1);
  }

  lemma IssuedStays(c: ConnId, count: nat, more: nat)
    requires Issued(c, count) && count <= more
    ensures Issued(c, more)
  {
    var n: nat :| 1 <= n <= count && c == ConnectionId(n);
    assert n <= more;
  }

  lemma RegisterKeepsIds(chat: Chat, userId: string, userName: string)
    requires SessionsOwnIds(chat)
    ensures SessionsOwnIds(Apply(chat, Register(userId, userName)))
  {
    var after := Apply(chat, Register(userId, userName));
    forall c | c in after.sessions
      ensures after.sessions[c].connectionId == c && Issued(c, after.nextConnectionId)
    {
      if c in chat.sessions {
        IssuedStays(c, chat.nextConnectionId, after.nextConnectionId);
      } else {
        assert c == ConnectionId(after.nextConnectionId);
      }
    }
  }

  lemma RegisterKeepsUsers(chat: Chat, c: ConnId, user: SessionUser)
    requires UsersKnown(chat) && c !in chat.sessions
    ensures UsersKnown(chat.(sessions := chat.sessions[c := user]))
  {
  }

  lemma RegisterKeeps(chat: Chat, userId: string, userName: string)
    requires ChatInv(chat)
    ensures ChatInv(Apply(chat, Register(userId, userName)))
  {
    NextIdIsNew(chat);
    RegisterKeepsIds(chat, userId, userName);
    var c := ConnectionId(chat.nextConnectionId + 1);
    RegisterKeepsUsers(chat, c, SessionUser(c, userId, userName));
  }

  lemma UsersKnownAfterJoin(chat: Chat, c: ConnId, r: RoomId)
    requires UsersKnown(chat) && SessionsOwnIds(chat) && c in chat.sessions
    ensures UsersKnown(chat.(hub := Join(chat.hub, chat.sessions[c], r)))
  {
    var after := Join(chat.hub, chat.sessions[c], r);
    forall d, q | Member(after, d, q)
      ensures d in chat.sessions && after.rooms[q].members[d] == SummaryOf(chat.sessions[d])
    {
      if !(d == c && q == r) {
        assert Member(chat.hub, d, q) && after.rooms[q].members[d] == chat.hub.rooms[q].members[d];
      } else if Member(chat.hub, c, r) {
        assert after.rooms[q].members[d] == chat.hub.rooms[q].members[d];
      }
    }
  }

  lemma UsersKnownAfterLeave(chat: Chat, c: ConnId, r: RoomId)
    requires UsersKnown(chat) && CanLeave(chat.hub, c, r)
    ensures UsersKnown(chat.(hub := Leave(chat.hub, c, r)))
  {
    var after := Leave(chat.hub, c, r);
    forall d, q | Member(after, d, q)
      ensures d in chat.sessions && after.rooms[q].members[d] == SummaryOf(chat.sessions[d])
    {
      LeaveEffect(chat.hub, c, r, d, q);
      assert Member(chat.hub, d, q) && after.rooms[q].members[d] == chat.hub.rooms[q].members[d];
    }
  }

  lemma UsersKnownAfterSend(chat: Chat, c: ConnId, r: RoomId, text: string)
    requires UsersKnown(chat) && CanLeave(chat.hub, c, r)
    ensures UsersKnown(chat.(hub := Send(chat.hub, c, r, text)))
  {
    var after := Send(chat.hub, c, r, text);
    forall d, q | Member(after, d, q)
      ensures d in chat.sessions && after.rooms[q].members[d] == SummaryOf(chat.sessions[d])
    {
      assert Member(chat.hub, d, q) && after.rooms[q].members[d] == chat.hub.rooms[q].members[d];
    }
  }

  lemma HandleKeeps(chat: Chat, c: ConnId, command: Command)
    requires ChatInv(chat) && c in chat.sessions
    ensures ChatInv(Apply(chat, Handle(c, command)))
  {
    var user := chat.sessions[c];
    var hub, outcome := chat.hub, Process(chat.hub, user, command);
    if outcome.Ok? {
      match command {
        case JoinRoom(raw) =>
          var r := NormalizeRoomId(raw).value;
          JoinKeeps(hub, user, r);
          UsersKnownAfterJoin(chat, c, r);
        case LeaveRoom(raw) =>
          var r := NormalizeRoomId(raw).value;
          LeaveKeeps(hub, c, r);
          UsersKnownAfterLeave(chat, c, r);
        case SendRoomMessage(raw, content) =>
          var r, text := NormalizeRoomId(raw).value, NormalizeContent(content).value;
          SendKeeps(hub, c, r, text);
          UsersKnownAfterSend(chat, c, r, text);
        case SyncRoomState(_) =>
        case Ping =>
      }
    }
  }

  lemma UnregisterKeeps(chat: Chat, c: ConnId)
    requires ChatInv(chat) && c in chat.sessions
    ensures ChatInv(Apply(chat, Unregister(c)))
  {
    DisconnectKeeps(chat.hub, c);
    var after := Apply(chat, Unregister(c));
    forall d, q | Member(after.hub, d, q)
      ensures d in after.sessions && after.hub.rooms[q].members[d] == SummaryOf(after.sessions[d])
    {
      DisconnectEffect(chat.hub, c, d, q);
      assert after.hub.rooms[q].members[d] == chat.hub.rooms[q].members[d];
    }
    assert UsersKnown(after);
  }

  lemma StepKeeps(chat: Chat, step: Step)
    requires ChatInv(chat) && Enabled(chat, step)
    ensures ChatInv(Apply(chat, step))
  {
    match step
    case Register(userId, userName) => RegisterKeeps(chat, userId, userName);
    case Handle(c, command) => HandleKeeps(chat, c, command);
    case Unregister(c) => UnregisterKeeps(chat, c);
  }

  lemma {:induction false} RunKeeps(chat: Chat, steps: seq<Step>)
    requires ChatInv(chat) && Valid(chat, steps)
    ensures ChatInv(Exec(chat, steps))
    decreases |steps|
  {
    if steps != [] {
      StepKeeps(chat, steps[0]);
      RunKeeps(Apply(chat, steps[0]), steps[1..]);
    }
  }
}
