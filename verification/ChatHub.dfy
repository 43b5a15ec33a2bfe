/** The chat hub as the mutable object it is (src/handlers/chat/mod.rs:187-394): every method is
    proved against its function on hub values, and a failing one leaves the hub as it was. */
module ChatHub {
  import opened Lists
  import opened Prelude
  import opened Members
  import opened ChatSpec

  datatype JoinResult = JoinResult(
    roomId: RoomId, members: seq<Summary>, recent: seq<RoomMessage>, version: nat, joinedNewly: bool,
        peers: set<ConnId>)

  datatype LeaveResult = LeaveResult(roomId: RoomId, presence: Presence, peers: set<ConnId>)

  datatype SendResult = SendResult(message: RoomMessage, recipients: set<ConnId>)

  /** `sorted_members`: collect the values into a buffer, then sort it. */
  method SortMembers(members: map<ConnId, Summary>) returns (buffer: seq<Summary>)
    ensures buffer == SortedMembers(members)
  {
    var collected: seq<Summary> := [];
    var rest := members;
    while rest != map[]
      invariant multiset(collected) + Bag(rest) == Bag(members)
      decreases |rest|
    {
      var k :| k in rest.Keys;
      BagWithout(rest, k);
      RemovalShrinks(rest, k);
      collected := collected + [rest[k]];
      rest := rest - {k};
    }
    buffer := SortBuffer(collected);
    MembersAreSorted(members);
    SortedIsUnique(buffer, SortedMembers(members));
  }

  lemma RemovalShrinks(m: map<ConnId, Summary>, k: ConnId)
    requires k in m
    ensures |m - {k}| < |m|
  {
    assert (m - {k}).Keys == m.Keys - {k};
    assert |m - {k}| == |(m - {k}).Keys| && |m| == |m.Keys|;
  }

  method SortBuffer(collected: seq<Summary>) returns (buffer: seq<Summary>)
    ensures Sorted(buffer) && multiset(buffer) == multiset(collected)
  {
    buffer := [];
    var i := 0;
    while i < |collected|
      invariant 0 <= i <= |collected|
      invariant Sorted(buffer) && multiset(buffer) == multiset(collected[..i])
    {
      InsertSorted(collected[i], buffer);
      OneMore(collected, i);
      buffer := Insert(collected[i], buffer);
      i := i + 1;
    }
    assert collected[..i] == collected;
  }

  class ChatHub {
    var rooms: map<RoomId, Room>
    var connections: map<ConnId, Connection>
    var nextMessageId: nat

    ghost function Value(): Hub
      reads this
    {
      Hub(rooms, connections, nextMessageId)
    }

    constructor ()
      ensures Value() == EMPTY_HUB
    {
      rooms, connections, nextMessageId := map[], map[], 0;
    }

    method JoinRoom(user: SessionUser, roomId: string) returns (r: Result<JoinResult, ChatError>)
      modifies this
      ensures match NormalizeRoomId(roomId)
              case Err(e) => r == Err(e) && Value() == old(Value())
              case Ok(id) =>
                && Value() == Join(old(Value()), user, id)
                && r == Ok(JoinResult(
                             id, SortedMembers(rooms[id].members), rooms[id].recent, rooms[id].version,
                             user.connectionId !in RoomOf(old(Value()), id).members,
                             rooms[id].members.Keys - {user.connectionId}))
    {
      var normalized := NormalizeRoomId(roomId);
      if normalized.Err? {
        return Err(normalized.error);
      }
      var id := normalized.value;
      var joinedNewly := Enter(user, id);
      var members := SortMembers(rooms[id].members);
      return Ok(JoinResult(id, members, rooms[id].recent, rooms[id].version, joinedNewly,
                           rooms[id].members.Keys - {user.connectionId}));
    }

    method Enter(user: SessionUser, id: RoomId) returns (joinedNewly: bool)
      modifies this
      ensures Value() == Join(old(Value()), user, id)
      ensures joinedNewly <==> user.connectionId !in RoomOf(old(Value()), id).members
    {
      var room := if id in rooms then rooms[id] else NEW_ROOM;
      var connectionId := user.connectionId;
      var connection := if connectionId in connections then connections[connectionId] else Connection(user, {});
      connection := connection.(user := user);
      joinedNewly := connectionId !in room.members;
      if joinedNewly {
        room := room.(version := room.version + 1);
        room := room.(members := room.members[connectionId := Summary(user.userId, user.userName)]);
        connection := connection.(joinedRooms := connection.joinedRooms + {id});
      }
      rooms := rooms[id := room];
      connections := connections[connectionId := connection];
    }

    method LeaveRoom(connectionId: ConnId, roomId: string) returns (r: Result<LeaveResult, ChatError>)
      modifies this
      ensures match NormalizeRoomId(roomId)
              case Err(e) => r == Err(e) && Value() == old(Value())
              case Ok(id) =>
                if CanLeave(old(Value()), connectionId, id)
                then Value() == Leave(old(Value()), connectionId, id)
                     && r == Ok(LeaveResult(id, LeavePresence(old(Value()), connectionId, id),
                                            old(Value()).rooms[id].members.Keys - {connectionId}))
                else Value() == old(Value()) && r == Err(NotInRoom(id))
    {
      var normalized := NormalizeRoomId(roomId);
      if normalized.Err? {
        return Err(normalized.error);
      }
      var id := normalized.value;
      if connectionId !in connections || id !in rooms || connectionId !in rooms[id].members {
        return Err(NotInRoom(id));
      }
      var leftMember := rooms[id].members[connectionId];
      rooms := rooms[id := rooms[id].(members := rooms[id].members - {connectionId})];
      var connection := connections[connectionId];
      connections := connections[connectionId := connection.(joinedRooms := connection.joinedRooms - {id})];
      rooms := rooms[id := rooms[id].(version := rooms[id].version + 1)];
      var version := rooms[id].version;
      var peers := rooms[id].members.Keys;
      var presence := Presence(id, [], [leftMember], version);
      if rooms[id].members == map[] {
        rooms := rooms - {id};
      }
      if connections[connectionId].joinedRooms == {} {
        connections := connections - {connectionId};
      }
      ghost var was := old(Value());
      assert rooms == StoreRoom(was.rooms, id, RoomLeave(was.rooms[id], connectionId));
      assert connections == StoreConnection(
                              was.connections, connectionId, connection.(joinedRooms := connection.joinedRooms - {id}));
      return Ok(LeaveResult(id, presence, peers));
    }

    method SendRoomMessage(connectionId: ConnId, roomId: string, content: string)
        returns (r: Result<SendResult, ChatError>)
      modifies this
      ensures match (NormalizeRoomId(roomId), NormalizeContent(content))
              case (Err(e), _) => r == Err(e) && Value() == old(Value())
              case (Ok(_), Err(e)) => r == Err(e) && Value() == old(Value())
              case (Ok(id), Ok(text)) =>
                if CanLeave(old(Value()), connectionId, id)
                then Value() == ChatSpec.Send(old(Value()), connectionId, id, text)
                     && r == Ok(SendResult(NewMessage(old(Value()), connectionId, id, text), rooms[id].members.Keys))
                else Value() == old(Value()) && r == Err(NotInRoom(id))
    {
      var normalized := NormalizeRoomId(roomId);
      if normalized.Err? {
        return Err(normalized.error);
      }
      var id := normalized.value;
      var text := NormalizeContent(content);
      if text.Err? {
        return Err(text.error);
      }
      if connectionId !in connections || id !in rooms || connectionId !in rooms[id].members {
        return Err(NotInRoom(id));
      }
      var user := connections[connectionId].user;
      rooms := rooms[id := rooms[id].(version := rooms[id].version + 1)];
      nextMessageId := nextMessageId + 1;
      var message := RoomMessage(id, MessageId(nextMessageId), user.userId, user.userName, text.value,
          rooms[id].version);
      var recent := rooms[id].recent + [message];
      if |recent| > MAX_RECENT_MESSAGES {
        var dropLen := |recent| - MAX_RECENT_MESSAGES;
        recent := recent[dropLen..];
      }
      rooms := rooms[id := rooms[id].(recent := recent)];
      return Ok(SendResult(message, rooms[id].members.Keys));
    }

    method SyncRoomState(connectionId: ConnId, roomId: string) returns (r: Result<Snapshot, ChatError>)
      ensures match NormalizeRoomId(roomId)
              case Err(e) => r == Err(e)
              case Ok(id) =>
                if Member(Value(), connectionId, id)
                then r == Ok(Snapshot(id, SortedMembers(rooms[id].members), rooms[id].recent, rooms[id].version))
                else r == Err(NotInRoom(id))
    {
      var normalized := NormalizeRoomId(roomId);
      if normalized.Err? {
        return Err(normalized.error);
      }
      var id := normalized.value;
      if id !in rooms || connectionId !in rooms[id].members {
        return Err(NotInRoom(id));
      }
      var members := SortMembers(rooms[id].members);
      return Ok(Snapshot(id, members, rooms[id].recent, rooms[id].version));
    }

    method DisconnectAll(connectionId: ConnId) returns (changes: map<RoomId, Presence>)
      modifies this
      ensures Value() == Disconnect(old(Value()), connectionId)
      ensures changes == DisconnectPresences(old(Value()), connectionId)
    {
      if connectionId !in connections {
        assert rooms == LeaveRooms(rooms, connectionId, {});
        return map[];
      }
      var connection := connections[connectionId];
      connections := connections - {connectionId};
      var leftMember := Summary(connection.user.userId, connection.user.userName);
      changes := ExpelFromAll(connectionId, leftMember, connection.joinedRooms);
    }

    /** The loop of `disconnect`: leave the joined rooms one after the other, in whatever order. */
    method ExpelFromAll(connectionId: ConnId, leftMember: Summary, joinedRooms: set<RoomId>)
      returns (changes: map<RoomId, Presence>)
      modifies this`rooms
      ensures rooms == LeaveRooms(old(rooms), connectionId, joinedRooms)
      ensures changes == Presences(old(rooms), leftMember, joinedRooms)
    {
      changes := map[];
      var pending := joinedRooms;
      ghost var left: set<RoomId> := {};
      while pending != {}
        invariant left + pending == joinedRooms && left !! pending
        invariant rooms == LeaveRooms(old(rooms), connectionId, left)
        invariant changes == Presences(old(rooms), leftMember, left)
        decreases |pending|
      {
        var id :| id in pending;
        LeaveRoomsOneMore(old(rooms), connectionId, left, id);
        PresencesOneMore(old(rooms), leftMember, left, id);
        pending := pending - {id};
        left := left + {id};
        if id in rooms {
          var version := Expel(connectionId, id);
          changes := changes[id := Presence(id, [], [leftMember], version)];
        }
      }
    }

    /** One round of the loop of `disconnect`. */
    method Expel(connectionId: ConnId, id: RoomId) returns (version: nat)
      requires id in rooms
      modifies this`rooms
      ensures rooms == StoreRoom(old(rooms), id, RoomLeave(old(rooms)[id], connectionId))
      ensures version == old(rooms)[id].version + 1
    {
      var room := rooms[id];
      room := room.(members := room.members - {connectionId});
      room := room.(version := room.version + 1);
      version := room.version;
      rooms := rooms[id := room];
      if room.members == map[] {
        rooms := rooms - {id};
      }
    }
  }

  lemma PresencesOneMore(rooms: map<RoomId, Room>, leaver: Summary, left: set<RoomId>, r: RoomId)
    ensures Presences(rooms, leaver, left + {r})
         == if r in rooms then Presences(rooms, leaver, left)[r := Presence(r, [], [leaver], rooms[r].version + 1)]
            else Presences(rooms, leaver, left)
  {
  }
}
