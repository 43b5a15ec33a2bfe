/** What every chat operation keeps: the two indexes agree and nothing empty is stored
    (src/handlers/chat/mod.rs:181-394). */
module ChatInvariant {
  import opened Prelude
  import opened Members
  import opened ChatSpec

  /** Rooms list their members exactly as connections list their rooms. */
  ghost predicate IndexesAgree(hub: Hub)
  {
    forall c, r :: Member(hub, c, r) <==> Joined(hub, c, r)
  }

  predicate NothingEmpty(hub: Hub)
  {
    && (forall r :: r in hub.rooms ==> hub.rooms[r].members != map[])
    && (forall c :: c in hub.connections ==> hub.connections[c].joinedRooms != {})
  }

  predicate KeysNormal(hub: Hub)
  {
    && (forall r :: r in hub.rooms ==> NormalRoomId(r))
    && (forall c :: c in hub.connections ==> hub.connections[c].user.connectionId == c)
  }

  /** At most twenty messages of this room, with strictly increasing versions that the room has reached. */
  predicate HistoryOrdered(r: RoomId, room: Room)
  {
    && |room.recent| <= MAX_RECENT_MESSAGES
    && (forall i :: 0 <= i < |room.recent| ==> room.recent[i].roomId == r && room.recent[i].version <= room.version)
    && (forall i, j :: 0 <= i < j < |room.recent| ==> room.recent[i].version < room.recent[j].version)
  }

  predicate HistoriesOrdered(hub: Hub)
  {
    forall r :: r in hub.rooms ==> HistoryOrdered(r, hub.rooms[r])
  }

  ghost predicate HubInv(hub: Hub)
  {
    IndexesAgree(hub) && NothingEmpty(hub) && KeysNormal(hub) && HistoriesOrdered(hub)
  }

  lemma EmptyHubInv()
    ensures HubInv(EMPTY_HUB)
  {
    assert IndexesAgree(EMPTY_HUB);
  }

  // ----- Preservation -----

  lemma JoinEffect(hub: Hub, user: SessionUser, r: RoomId, d: ConnId, q: RoomId)
    requires IndexesAgree(hub)
    ensures var after, c := Join(hub, user, r), user.connectionId;
            && (Member(after, d, q) <==> Member(hub, d, q) || (d == c && q == r))
            && (Joined(after, d, q) <==> Joined(hub, d, q) || (d == c && q == r))
  {
    assert Member(hub, user.connectionId, r) <==> Joined(hub, user.connectionId, r);
  }

  /** Whoever joins is remembered under its present names for its connection; in the room it is entered under
      them once, and stays under the names it came with. */
  lemma JoinMeans(hub: Hub, user: SessionUser, r: RoomId)
    ensures var after, c := Join(hub, user, r), user.connectionId;
            && c in after.connections && after.connections[c].user == user
            && Member(after, c, r)
            && after.rooms[r].members[c] == (if Member(hub, c, r) then hub.rooms[r].members[c]
                                             else Summary(user.userId, user.userName))
            && after.rooms[r].version == RoomOf(hub, r).version + (if Member(hub, c, r) then 0 else 1)
            && after.rooms[r].recent == RoomOf(hub, r).recent && after.nextMessageId == hub.nextMessageId
  {
  }

  lemma JoinKeeps(hub: Hub, user: SessionUser, r: RoomId)
    requires HubInv(hub) && NormalRoomId(r)
    ensures HubInv(Join(hub, user, r))
    ensures Member(Join(hub, user, r), user.connectionId, r)
  {
    var after := Join(hub, user, r);
    forall d, q ensures Member(after, d, q) <==> Joined(after, d, q) {
      JoinEffect(hub, user, r, d, q);
      assert Member(hub, d, q) <==> Joined(hub, d, q);
    }
    JoinEffect(hub, user, r, user.connectionId, r);
    assert NothingEmpty(after) by {
      assert user.connectionId in after.rooms[r].members && r in after.connections[user.connectionId].joinedRooms;
    }
    assert KeysNormal(after) && HistoriesOrdered(after);
  }

  lemma LeaveEffect(hub: Hub, c: ConnId, r: RoomId, d: ConnId, q: RoomId)
    requires CanLeave(hub, c, r)
    ensures var after := Leave(hub, c, r);
            && (Member(after, d, q) <==> Member(hub, d, q) && !(d == c && q == r))
            && (Joined(after, d, q) <==> Joined(hub, d, q) && !(d == c && q == r))
  {
    var members, rooms := hub.rooms[r].members - {c}, hub.connections[c].joinedRooms - {r};
    assert d in members <==> d in hub.rooms[r].members && d != c;
    assert q in rooms <==> q in hub.connections[c].joinedRooms && q != r;
  }

  lemma LeaveKeeps(hub: Hub, c: ConnId, r: RoomId)
    requires HubInv(hub) && CanLeave(hub, c, r)
    ensures HubInv(Leave(hub, c, r))
    ensures JoinedRooms(Leave(hub, c, r), c) == JoinedRooms(hub, c) - {r}
  {
    var after := Leave(hub, c, r);
    forall d, q ensures Member(after, d, q) <==> Joined(after, d, q) {
      LeaveEffect(hub, c, r, d, q);
      assert Member(hub, d, q) <==> Joined(hub, d, q);
    }
    assert NothingEmpty(after) && KeysNormal(after) && HistoriesOrdered(after);
  }

  lemma SendKeeps(hub: Hub, c: ConnId, r: RoomId, content: string)
    requires HubInv(hub) && CanLeave(hub, c, r)
    ensures HubInv(Send(hub, c, r, content))
  {
    var after := Send(hub, c, r, content);
    forall d, q ensures Member(after, d, q) <==> Joined(after, d, q) {
      assert Member(hub, d, q) <==> Joined(hub, d, q);
    }
    assert HistoryOrdered(r, hub.rooms[r]);
    assert NothingEmpty(after) && KeysNormal(after) && HistoriesOrdered(after);
  }

  lemma DisconnectEffect(hub: Hub, c: ConnId, d: ConnId, q: RoomId)
    requires IndexesAgree(hub)
    ensures var after := Disconnect(hub, c);
            && (Member(after, d, q) <==> Member(hub, d, q) && d != c)
            && (Joined(after, d, q) <==> Joined(hub, d, q) && d != c)
  {
    assert Member(hub, c, q) <==> Joined(hub, c, q);
    if q in hub.rooms {
      var members := hub.rooms[q].members - {c};
      assert d in members <==> d in hub.rooms[q].members && d != c;
    }
  }

  lemma DisconnectKeeps(hub: Hub, c: ConnId)
    requires HubInv(hub)
    ensures HubInv(Disconnect(hub, c))
  {
    var after := Disconnect(hub, c);
    forall d, q ensures Member(after, d, q) <==> Joined(after, d, q) {
      DisconnectEffect(hub, c, d, q);
      assert Member(hub, d, q) <==> Joined(hub, d, q);
    }
    assert NothingEmpty(after) && KeysNormal(after) && HistoriesOrdered(after);
  }

  // ----- Disconnecting is leaving every room -----

  /** What a call of `leave_room` does to the hub, failing calls included. */
  function LeaveCall(hub: Hub, c: ConnId, raw: string): Hub
  {
    var id := NormalizeRoomId(raw);
    if id.Ok? && CanLeave(hub, c, id.value) then Leave(hub, c, id.value) else hub
  }

  function LeaveEach(hub: Hub, c: ConnId, raws: seq<string>): Hub
    decreases |raws|
  {
    if raws == [] then hub else LeaveEach(LeaveCall(hub, c, raws[0]), c, raws[1..])
  }

  /** The presence changes those calls return, by room. */
  function LeaveEachPresences(hub: Hub, c: ConnId, raws: seq<string>): map<RoomId, Presence>
    decreases |raws|
  {
    if raws == [] then map[]
    else
      var rest := LeaveEachPresences(LeaveCall(hub, c, raws[0]), c, raws[1..]);
      var id := NormalizeRoomId(raws[0]);
      if id.Ok? && CanLeave(hub, c, id.value) then rest[id.value := LeavePresence(hub, c, id.value)] else rest
  }

  /** Some call in the list names the room. */
  predicate Names(raws: seq<string>, r: RoomId)
  {
    exists i :: 0 <= i < |raws| && NormalizeRoomId(raws[i]) == Ok(r)
  }

  predicate NamesAllRooms(hub: Hub, c: ConnId, raws: seq<string>)
  {
    forall r :: r in JoinedRooms(hub, c) ==> Names(raws, r)
  }

  lemma LeaveRestAfterOne(rooms: map<RoomId, Room>, c: ConnId, left: set<RoomId>, r: RoomId)
    requires r in rooms && r in left
    ensures LeaveRooms(StoreRoom(rooms, r, RoomLeave(rooms[r], c)), c, left - {r}) == LeaveRooms(rooms, c, left)
  {
  }

  /** Disconnecting after leaving one room is disconnecting before it. */
  lemma DisconnectAfterLeave(hub: Hub, c: ConnId, r: RoomId)
    requires HubInv(hub) && CanLeave(hub, c, r)
    ensures Disconnect(Leave(hub, c, r), c) == Disconnect(hub, c)
  {
    LeaveKeeps(hub, c, r);
    assert Joined(hub, c, r);
    var one, joined := Leave(hub, c, r), JoinedRooms(hub, c);
    LeaveRestAfterOne(hub.rooms, c, joined, r);
    assert one.connections - {c} == hub.connections - {c};
  }

  lemma NamesRest(hub: Hub, c: ConnId, raws: seq<string>)
    requires HubInv(hub) && raws != [] && NamesAllRooms(hub, c, raws)
    ensures NamesAllRooms(LeaveCall(hub, c, raws[0]), c, raws[1..])
    ensures HubInv(LeaveCall(hub, c, raws[0]))
  {
    var id := NormalizeRoomId(raws[0]);
    if id.Ok? && CanLeave(hub, c, id.value) {
      LeaveKeeps(hub, c, id.value);
    }
    var next := LeaveCall(hub, c, raws[0]);
    forall r | r in JoinedRooms(next, c) ensures Names(raws[1..], r) {
      assert r in JoinedRooms(hub, c) && Joined(hub, c, r) && Member(hub, c, r);
      var i :| 0 <= i < |raws| && NormalizeRoomId(raws[i]) == Ok(r);
      assert i != 0;
      assert raws[1..][i - 1] == raws[i];
    }
  }

  lemma NothingToName(hub: Hub, c: ConnId)
    requires NamesAllRooms(hub, c, [])
    ensures JoinedRooms(hub, c) == {}
  {
    forall r ensures r !in JoinedRooms(hub, c) {
      assert !Names([], r);
    }
  }

  /** `disconnect` leaves the hub as calling `leave_room` until every joined room has been named does:
      in any order, with any spelling that trims to the room, repetitions and failing calls included. */
  lemma {:induction false} DisconnectIsLeavingEach(hub: Hub, c: ConnId, raws: seq<string>)
    requires HubInv(hub) && NamesAllRooms(hub, c, raws)
    ensures LeaveEach(hub, c, raws) == Disconnect(hub, c)
    decreases |raws|
  {
    if raws == [] {
      NothingToName(hub, c);
      assert c !in hub.connections;
      assert LeaveRooms(hub.rooms, c, {}) == hub.rooms;
    } else {
      NamesRest(hub, c, raws);
      DisconnectIsLeavingEach(LeaveCall(hub, c, raws[0]), c, raws[1..]);
      var id := NormalizeRoomId(raws[0]);
      if id.Ok? && CanLeave(hub, c, id.value) {
        DisconnectAfterLeave(hub, c, id.value);
      }
    }
  }

  /** Stored room ids name themselves, so the joined rooms listed in any order will do. */
  lemma RoomsNameThemselves(hub: Hub, c: ConnId, order: seq<RoomId>)
    requires HubInv(hub) && forall r :: r in JoinedRooms(hub, c) ==> r in order
    ensures NamesAllRooms(hub, c, order)
  {
    forall r | r in JoinedRooms(hub, c) ensures Names(order, r) {
      assert Joined(hub, c, r) && Member(hub, c, r);
      NormalIsFixedPoint(r);
      var i :| 0 <= i < |order| && order[i] == r;
    }
  }

  /** The rooms' own entries for one connection. */
  predicate OwnAnnouncements(hub: Hub, c: ConnId, said: map<RoomId, Presence>)
  {
    && said.Keys == JoinedRooms(hub, c)
    && (forall r :: r in said ==> Member(hub, c, r) && said[r] == LeavePresence(hub, c, r))
  }

  lemma AnnounceOneMore(hub: Hub, c: ConnId, r: RoomId, rest: map<RoomId, Presence>)
    requires HubInv(hub) && CanLeave(hub, c, r)
    requires OwnAnnouncements(Leave(hub, c, r), c, rest)
    ensures OwnAnnouncements(hub, c, rest[r := LeavePresence(hub, c, r)])
  {
    LeaveKeeps(hub, c, r);
    assert Member(hub, c, r) <==> Joined(hub, c, r);
    forall q | q in rest ensures q != r && Member(hub, c, q) && rest[q] == LeavePresence(hub, c, q) {
      assert Member(Leave(hub, c, r), c, q);
      LeaveEffect(hub, c, r, c, q);
    }
  }

  /** What leaving one room after the other announces: each room's own entry for the leaver. */
  lemma {:induction false} LeavingEachAnnounces(hub: Hub, c: ConnId, raws: seq<string>)
    requires HubInv(hub) && NamesAllRooms(hub, c, raws)
    ensures OwnAnnouncements(hub, c, LeaveEachPresences(hub, c, raws))
    decreases |raws|
  {
    if raws == [] {
      NothingToName(hub, c);
    } else {
      NamesRest(hub, c, raws);
      LeavingEachAnnounces(LeaveCall(hub, c, raws[0]), c, raws[1..]);
      var id := NormalizeRoomId(raws[0]);
      if id.Ok? && CanLeave(hub, c, id.value) {
        AnnounceOneMore(hub, c, id.value, LeaveEachPresences(LeaveCall(hub, c, raws[0]), c, raws[1..]));
      }
    }
  }

  /** Every room knows the connection's user by its current name. */
  predicate UserFixed(hub: Hub, c: ConnId)
  {
    c in hub.connections ==>
      forall r :: r in hub.connections[c].joinedRooms && Member(hub, c, r) ==>
        hub.rooms[r].members[c] == SummaryOf(hub.connections[c].user)
  }

  lemma ByeKeys(hub: Hub, c: ConnId)
    requires IndexesAgree(hub)
    ensures DisconnectPresences(hub, c).Keys == JoinedRooms(hub, c)
  {
    forall r ensures r in JoinedRooms(hub, c) <==> r in DisconnectPresences(hub, c) {
      assert Member(hub, c, r) <==> Joined(hub, c, r);
    }
  }

  lemma SameEntry(hub: Hub, c: ConnId, r: RoomId)
    requires Member(hub, c, r) && Joined(hub, c, r)
    ensures LeavePresence(hub, c, r) == DisconnectPresences(hub, c)[r]
       <==> hub.rooms[r].members[c] == SummaryOf(hub.connections[c].user)
  {
    assert LeavePresence(hub, c, r).left[0] == hub.rooms[r].members[c];
    assert DisconnectPresences(hub, c)[r].left[0] == SummaryOf(hub.connections[c].user);
  }

  /** The two announce the same changes exactly when the user never changed between joins. */
  lemma SameAnnouncementsIffUserFixed(hub: Hub, c: ConnId, raws: seq<string>)
    requires HubInv(hub) && NamesAllRooms(hub, c, raws)
    ensures DisconnectPresences(hub, c) == LeaveEachPresences(hub, c, raws) <==> UserFixed(hub, c)
  {
    LeavingEachAnnounces(hub, c, raws);
    ByeKeys(hub, c);
    var said, bye := LeaveEachPresences(hub, c, raws), DisconnectPresences(hub, c);
    forall r | r in said
      ensures said[r] == bye[r] <==> hub.rooms[r].members[c] == SummaryOf(hub.connections[c].user)
    {
      assert Member(hub, c, r) <==> Joined(hub, c, r);
      SameEntry(hub, c, r);
    }
  }

  /** A user that renames itself between two joins is announced differently: `disconnect` takes the
      leaver from the connection, `leave_room` from the room. */
  lemma RenamedUserDiffers(c: ConnId, id: string, before: string, after: string, r: RoomId, q: RoomId)
    requires NormalRoomId(r) && NormalRoomId(q) && r != q && before != after
    ensures var hub := Join(Join(EMPTY_HUB, SessionUser(c, id, before), r), SessionUser(c, id, after), q);
            && HubInv(hub)
            && DisconnectPresences(hub, c) != LeaveEachPresences(hub, c, [r, q])
  {
    EmptyHubInv();
    var first := Join(EMPTY_HUB, SessionUser(c, id, before), r);
    JoinKeeps(EMPTY_HUB, SessionUser(c, id, before), r);
    JoinKeeps(first, SessionUser(c, id, after), q);
    var hub := Join(first, SessionUser(c, id, after), q);
    assert hub.connections[c].joinedRooms == {r, q};
    RoomsNameThemselves(hub, c, [r, q]);
    SameAnnouncementsIffUserFixed(hub, c, [r, q]);
    assert Member(hub, c, r) && hub.rooms[r].members[c] == Summary(id, before);
  }
}
