/** The chat hub on values: what every operation of `ChatHub` computes
    (src/handlers/chat/mod.rs:157-394, 716-745). */
module ChatSpec {
  import opened Prelude
  import opened Members
  import Text

  type ConnId = string
  type RoomId = string

  const MAX_ROOM_ID_LEN := 64
  const MAX_MESSAGE_LEN := 500
  const MAX_RECENT_MESSAGES := 20

  datatype SessionUser = SessionUser(connectionId: ConnId, userId: string, userName: string)

  function SummaryOf(user: SessionUser): Summary
  {
    Summary(user.userId, user.userName)
  }

  datatype RoomMessage = RoomMessage(
    roomId: RoomId, messageId: string, senderId: string, senderName: string, content: string, version: nat)

  datatype Room = Room(version: nat, members: map<ConnId, Summary>, recent: seq<RoomMessage>)

  datatype Connection = Connection(user: SessionUser, joinedRooms: set<RoomId>)

  datatype Hub = Hub(rooms: map<RoomId, Room>, connections: map<ConnId, Connection>, nextMessageId: nat)

  datatype ChatError = InvalidRoomId | EmptyContent | ContentTooLong | NotInRoom(roomId: RoomId) | InvalidMessage

  datatype Presence = Presence(roomId: RoomId, joined: seq<Summary>, left: seq<Summary>, version: nat)

  datatype Snapshot = Snapshot(roomId: RoomId, members: seq<Summary>, recent: seq<RoomMessage>, version: nat)

  const EMPTY_HUB := Hub(map[], map[], 0)

  // ----- Normalisation -----

  predicate NormalRoomId(r: RoomId)
  {
    Text.Trimmed(r) && r != "" && Text.Utf8Length(r) <= MAX_ROOM_ID_LEN
  }

  function NormalizeRoomId(raw: string): (r: Result<RoomId, ChatError>)
    ensures r.Ok? ==> NormalRoomId(r.value)
  {
    var id := Text.Trim(raw);
    if id == "" || Text.Utf8Length(id) > MAX_ROOM_ID_LEN then Err(InvalidRoomId) else Ok(id)
  }

  /** Exactly which room ids are accepted, and as what. */
  lemma AcceptedRoomIds(raw: string, id: RoomId)
    ensures NormalizeRoomId(raw) == Ok(id) <==>
              !Text.Blank(raw) && id == Text.Trim(raw) && Text.Utf8Length(id) <= 64
  {
    Text.TrimBlank(raw);
  }

  /** The room ids that can be stored are exactly the fixed points of normalisation. */
  lemma NormalIsFixedPoint(r: RoomId)
    ensures NormalRoomId(r) <==> NormalizeRoomId(r) == Ok(r)
  {
    Text.TrimIdempotent(r);
  }

  function NormalizeContent(raw: string): Result<string, ChatError>
  {
    var content := Text.Trim(raw);
    if content == "" then Err(EmptyContent)
    else if |content| > MAX_MESSAGE_LEN then Err(ContentTooLong)
    else Ok(content)
  }

  /** Blank content and content of more than 500 characters are told apart; the rest is stored trimmed. */
  lemma AcceptedContent(raw: string)
    ensures NormalizeContent(raw) == Err(EmptyContent) <==> Text.Blank(raw)
    ensures NormalizeContent(raw) == Err(ContentTooLong) <==> |Text.Trim(raw)| > 500
    ensures NormalizeContent(raw) == Ok(Text.Trim(raw)) <==> !Text.Blank(raw) && |Text.Trim(raw)| <= 500
  {
    Text.TrimBlank(raw);
  }

  // ----- Rooms -----

  const NEW_ROOM := Room(0, map[], [])

  function RoomOf(hub: Hub, r: RoomId): Room
  {
    if r in hub.rooms then hub.rooms[r] else NEW_ROOM
  }

  predicate Member(hub: Hub, c: ConnId, r: RoomId)
  {
    r in hub.rooms && c in hub.rooms[r].members
  }

  predicate Joined(hub: Hub, c: ConnId, r: RoomId)
  {
    c in hub.connections && r in hub.connections[c].joinedRooms
  }

  function LastN<T>(s: seq<T>, n: nat): (r: seq<T>)
    ensures |r| == if |s| <= n then |s| else n
  {
    if |s| <= n then s else s[|s| - n..]
  }

  function RoomJoin(room: Room, c: ConnId, x: Summary): Room
  {
    room.(version := room.version + 1, members := room.members[c := x])
  }

  function RoomLeave(room: Room, c: ConnId): Room
  {
    room.(version := room.version + 1, members := room.members - {c})
  }

  function RoomSend(room: Room, message: RoomMessage): Room
  {
    room.(version := room.version + 1, recent := LastN(room.recent + [message], MAX_RECENT_MESSAGES))
  }

  /** A room that nobody is in is not kept. */
  function StoreRoom(rooms: map<RoomId, Room>, r: RoomId, room: Room): map<RoomId, Room>
  {
    if room.members == map[] then rooms - {r} else rooms[r := room]
  }

  /** A connection that is in no room is not kept. */
  function StoreConnection(
    connections: map<ConnId, Connection>, c: ConnId, connection: Connection): map<ConnId, Connection>
  {
    if connection.joinedRooms == {} then connections - {c} else connections[c := connection]
  }

  // ----- Operations -----

  function JoinedRooms(hub: Hub, c: ConnId): set<RoomId>
  {
    if c in hub.connections then hub.connections[c].joinedRooms else {}
  }

  /** `join_room` on a normal room id: idempotent on membership, but the connection's user is replaced. */
  function Join(hub: Hub, user: SessionUser, r: RoomId): Hub
  {
    var c, room := user.connectionId, RoomOf(hub, r);
    if c in room.members then
      hub.(rooms := hub.rooms[r := room],
           connections := hub.connections[c := Connection(user, JoinedRooms(hub, c))])
    else
      hub.(rooms := hub.rooms[r := RoomJoin(room, c, SummaryOf(user))],
           connections := hub.connections[c := Connection(user, JoinedRooms(hub, c) + {r})])
  }

  predicate CanLeave(hub: Hub, c: ConnId, r: RoomId)
  {
    c in hub.connections && Member(hub, c, r)
  }

  function Leave(hub: Hub, c: ConnId, r: RoomId): Hub
    requires CanLeave(hub, c, r)
  {
    var connection := hub.connections[c];
    hub.(rooms := StoreRoom(hub.rooms, r, RoomLeave(hub.rooms[r], c)),
         connections := StoreConnection(hub.connections, c, connection.(joinedRooms := connection.joinedRooms - {r})))
  }

  function LeavePresence(hub: Hub, c: ConnId, r: RoomId): Presence
    requires Member(hub, c, r)
  {
    Presence(r, [], [hub.rooms[r].members[c]], hub.rooms[r].version + 1)
  }

  function MessageId(n: nat): string
  {
    "msg-" + Text.Decimal(n)
  }

  function NewMessage(hub: Hub, c: ConnId, r: RoomId, content: string): RoomMessage
    requires CanLeave(hub, c, r)
  {
    var user := hub.connections[c].user;
    RoomMessage(r, MessageId(hub.nextMessageId + 1), user.userId, user.userName, content, hub.rooms[r].version + 1)
  }

  function Send(hub: Hub, c: ConnId, r: RoomId, content: string): Hub
    requires CanLeave(hub, c, r)
  {
    hub.(rooms := hub.rooms[r := RoomSend(hub.rooms[r], NewMessage(hub, c, r, content))],
         nextMessageId := hub.nextMessageId + 1)
  }

  /** The rooms table when `c` has left exactly the rooms in `left`. */
  function LeaveRooms(rooms: map<RoomId, Room>, c: ConnId, left: set<RoomId>): map<RoomId, Room>
  {
    map r | r in rooms && (r in left ==> RoomLeave(rooms[r], c).members != map[]) ::
      if r in left then RoomLeave(rooms[r], c) else rooms[r]
  }

  /** Leaving one more room. */
  lemma LeaveRoomsOneMore(rooms: map<RoomId, Room>, c: ConnId, left: set<RoomId>, r: RoomId)
    requires r !in left
    ensures LeaveRooms(rooms, c, left + {r})
         == if r in rooms then StoreRoom(LeaveRooms(rooms, c, left), r, RoomLeave(rooms[r], c))
            else LeaveRooms(rooms, c, left)
    ensures r in rooms ==> r in LeaveRooms(rooms, c, left) && LeaveRooms(rooms, c, left)[r] == rooms[r]
    ensures r !in rooms ==> r !in LeaveRooms(rooms, c, left)
  {
  }

  /** One presence change for each existing room left, naming `leaver`. */
  function Presences(rooms: map<RoomId, Room>, leaver: Summary, left: set<RoomId>): map<RoomId, Presence>
  {
    map r | r in left && r in rooms :: Presence(r, [], [leaver], rooms[r].version + 1)
  }

  function Disconnect(hub: Hub, c: ConnId): Hub
  {
    hub.(rooms := LeaveRooms(hub.rooms, c, JoinedRooms(hub, c)), connections := hub.connections - {c})
  }

  /** The leaver is taken from the connection's current user, not from the rooms. */
  function DisconnectPresences(hub: Hub, c: ConnId): map<RoomId, Presence>
  {
    if c in hub.connections
    then Presences(hub.rooms, SummaryOf(hub.connections[c].user), hub.connections[c].joinedRooms) else map[]
  }
}
