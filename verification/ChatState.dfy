/** The chat runtime as the mutable object it is (src/handlers/chat/mod.rs:397-607, 634-707): every
    method is proved to be one step of the runtime and to send exactly what that step sends. */
module ChatState {
  import opened Prelude
  import opened Members
  import opened ChatSpec
  import opened ChatRuntime
  import H = ChatHub

  lemma DisjointUnion<T>(a: set<T>, b: set<T>)
    requires a !! b
    ensures multiset(a + b) == multiset(a) + multiset(b)
  {
  }

  lemma AppendedOnce<T>(list: seq<T>, all: set<T>, x: T)
    requires multiset(list) == multiset(all) && x !in all
    ensures multiset(list + [x]) == multiset(all + {x})
  {
    DisjointUnion(all, {x});
  }

  /** One dispatch for each recipient that has a sender. */
  method Fan(recipients: set<ConnId>, senders: set<ConnId>, event: Event) returns (dispatches: seq<Dispatch>)
    ensures multiset(dispatches) == multiset(FanOut(recipients, senders, event))
  {
    dispatches := [];
    var pending := recipients;
    while pending != {}
      invariant pending <= recipients
      invariant multiset(dispatches) == multiset(FanOut(recipients - pending, senders, event))
      decreases |pending|
    {
      var c :| c in pending;
      ghost var done := recipients - pending;
      pending := pending - {c};
      assert recipients - pending == done + {c};
      FanOutOneMore(done, senders, event, c);
      if c in senders {
        AppendedOnce(dispatches, FanOut(done, senders, event), Dispatch(c, event));
        dispatches := dispatches + [Dispatch(c, event)];
      }
    }
    assert recipients - pending == recipients;
  }

  lemma FanOutOneMore(done: set<ConnId>, senders: set<ConnId>, event: Event, c: ConnId)
    requires c !in done
    ensures FanOut(done + {c}, senders, event)
         == if c in senders then FanOut(done, senders, event) + {Dispatch(c, event)} else FanOut(done, senders, event)
    ensures Dispatch(c, event) !in FanOut(done, senders, event)
  {
  }

  /** Two lists of different events. */
  lemma ListsTogether(a: seq<Dispatch>, b: seq<Dispatch>, all: set<Dispatch>, more: set<Dispatch>)
    requires multiset(a) == multiset(all) && multiset(b) == multiset(more) && all !! more
    ensures multiset(a + b) == multiset(all + more)
  {
    DisjointUnion(all, more);
  }

  class ChatState {
    const hub: H.ChatHub
    var senders: set<ConnId>
    var nextConnectionId: nat
    /** The sockets being served. */
    ghost var sessions: map<ConnId, SessionUser>

    ghost function Value(): Chat
      reads this, hub
    {
      Chat(hub.Value(), senders, nextConnectionId, sessions)
    }

    constructor ()
      ensures Value() == EMPTY_CHAT
    {
      hub := new H.ChatHub();
      senders, nextConnectionId, sessions := {}, 0, map[];
    }

    /** `register_connection`, and the greeting that `run_socket` sends next. */
    method Connect(userId: string, userName: string) returns (user: SessionUser, dispatches: seq<Dispatch>)
      modifies this
      ensures Value() == Apply(old(Value()), Register(userId, userName))
      ensures multiset(dispatches) == multiset(Dispatches(old(Value()), Register(userId, userName)))
      ensures user.connectionId in sessions && sessions[user.connectionId] == user
      ensures user.userId == userId && user.userName == userName
    {
      nextConnectionId := nextConnectionId + 1;
      var connectionId := ConnectionId(nextConnectionId);
      senders := senders + {connectionId};
      user := SessionUser(connectionId, userId, userName);
      sessions := sessions[connectionId := user];
      dispatches := SendToConnection(connectionId, Connected(Summary(userId, userName)));
    }

    method SendToConnection(connectionId: ConnId, event: Event) returns (dispatches: seq<Dispatch>)
      ensures dispatches == if connectionId in senders then [Dispatch(connectionId, event)] else []
      ensures multiset(dispatches) == multiset(FanOut({connectionId}, senders, event))
    {
      dispatches := if connectionId in senders then [Dispatch(connectionId, event)] else [];
      ghost var none: set<ConnId> := {};
      assert FanOut(none, senders, event) == {};
      FanOutOneMore({}, senders, event, connectionId);
      assert {} + {connectionId} == {connectionId};
    }

    /** A text frame: process the command, and answer a failure, or a frame that is no command, with an error. */
    method HandleCommand(user: SessionUser, command: Command) returns (dispatches: seq<Dispatch>)
      requires user.connectionId in sessions && sessions[user.connectionId] == user
      modifies hub
      ensures Value() == Apply(old(Value()), Handle(user.connectionId, command))
      ensures multiset(dispatches) == multiset(Dispatches(old(Value()), Handle(user.connectionId, command)))
    {
      var outcome := Some(InvalidMessage);
      if !command.Undecodable? {
        outcome, dispatches := ProcessMessage(user, command);
      }
      if outcome.Some? {
        dispatches := SendToConnection(user.connectionId, Failed(outcome.value));
      }
    }

    /** `process_message`: the error of a failing command, which leaves everything as it was and sends nothing. */
    method ProcessMessage(user: SessionUser, command: Command)
      returns (error: Option<ChatError>, dispatches: seq<Dispatch>)
      requires !command.Undecodable?
      modifies hub
      ensures hub.Value() == HubAfter(old(hub.Value()), user, command)
      ensures match Process(old(hub.Value()), user, command)
              case Ok(_) =>
                error == None && multiset(dispatches) == multiset(Answers(old(hub.Value()), senders, user, command))
              case Err(e) => error == Some(e) && dispatches == [] && hub.Value() == old(hub.Value())
    {
      match command
      case JoinRoom(roomId) => error, dispatches := ProcessJoin(user, roomId);
      case LeaveRoom(roomId) => error, dispatches := ProcessLeave(user, roomId);
      case SendRoomMessage(roomId, content) => error, dispatches := ProcessSend(user, roomId, content);
      case SyncRoomState(roomId) =>
        var synced := hub.SyncRoomState(user.connectionId, roomId);
        if synced.Err? {
          return Some(synced.error), [];
        }
        error := None;
        dispatches := SendToConnection(user.connectionId, RoomState(synced.value));
      case Ping =>
        error := None;
        dispatches := SendToConnection(user.connectionId, Pong);
    }

    method ProcessJoin(user: SessionUser, roomId: string) returns (error: Option<ChatError>, dispatches: seq<Dispatch>)
      modifies hub
      ensures hub.Value() == HubAfter(old(hub.Value()), user, JoinRoom(roomId))
      ensures match NormalizeRoomId(roomId)
              case Err(e) => error == Some(e) && dispatches == [] && hub.Value() == old(hub.Value())
              case Ok(id) =>
                error == None && multiset(dispatches) == multiset(JoinDispatches(old(hub.Value()), senders, user, id))
    {
      var r := hub.JoinRoom(user, roomId);
      if r.Err? {
        return Some(r.error), [];
      }
      var joined := r.value;
      error := None;
      var answer := JoinedRoom(Snapshot(joined.roomId, joined.members, joined.recent, joined.version));
      dispatches := SendToConnection(user.connectionId, answer);
      if joined.joinedNewly {
        var presence := PresenceChanged(
          Presence(joined.roomId, [Summary(user.userId, user.userName)], [], joined.version));
        var news := Fan(joined.peers, senders, presence);
        ListsTogether(dispatches, news, FanOut({user.connectionId}, senders, answer),
            FanOut(joined.peers, senders, presence));
        dispatches := dispatches + news;
      }
    }

    method ProcessLeave(user: SessionUser, roomId: string) returns (error: Option<ChatError>, dispatches: seq<Dispatch>)
      modifies hub
      ensures hub.Value() == HubAfter(old(hub.Value()), user, LeaveRoom(roomId))
      ensures match Process(old(hub.Value()), user, LeaveRoom(roomId))
              case Err(e) => error == Some(e) && dispatches == [] && hub.Value() == old(hub.Value())
              case Ok(_) =>
                error == None
                && multiset(dispatches)
                   == multiset(LeaveDispatches(old(hub.Value()), senders, user.connectionId,
                       NormalizeRoomId(roomId).value))
    {
      var r := hub.LeaveRoom(user.connectionId, roomId);
      if r.Err? {
        return Some(r.error), [];
      }
      var left := r.value;
      error := None;
      var notice, presence := LeftRoom(left.roomId, left.presence.version), PresenceChanged(left.presence);
      dispatches := SendToConnection(user.connectionId, notice);
      var news := Fan(left.peers, senders, presence);
      ListsTogether(dispatches, news, FanOut({user.connectionId}, senders, notice),
          FanOut(left.peers, senders, presence));
      dispatches := dispatches + news;
    }

    method ProcessSend(user: SessionUser, roomId: string, content: string)
      returns (error: Option<ChatError>, dispatches: seq<Dispatch>)
      modifies hub
      ensures hub.Value() == HubAfter(old(hub.Value()), user, SendRoomMessage(roomId, content))
      ensures match Process(old(hub.Value()), user, SendRoomMessage(roomId, content))
              case Err(e) => error == Some(e) && dispatches == [] && hub.Value() == old(hub.Value())
              case Ok(_) =>
                error == None
                && multiset(dispatches)
                   == multiset(SendDispatches(old(hub.Value()), senders, user.connectionId,
                                              NormalizeRoomId(roomId).value, NormalizeContent(content).value))
    {
      var r := hub.SendRoomMessage(user.connectionId, roomId, content);
      if r.Err? {
        return Some(r.error), [];
      }
      error := None;
      dispatches := Fan(r.value.recipients, senders, MessagePosted(r.value.message));
    }

    /** `unregister_connection`: the sender goes first, then every room left tells its remaining members. */
    method UnregisterConnection(connectionId: ConnId) returns (dispatches: seq<Dispatch>)
      requires connectionId in sessions
      modifies this, hub
      ensures Value() == Apply(old(Value()), Unregister(connectionId))
      ensures multiset(dispatches) == multiset(Dispatches(old(Value()), Unregister(connectionId)))
    {
      senders := senders - {connectionId};
      sessions := sessions - {connectionId};
      var changes := hub.DisconnectAll(connectionId);
      dispatches := SayFarewell(changes);
    }

    method SayFarewell(changes: map<RoomId, Presence>) returns (dispatches: seq<Dispatch>)
      requires forall q :: q in changes ==> changes[q].roomId == q
      ensures multiset(dispatches) == multiset(Farewells(changes.Keys, changes, hub.Value(), senders))
    {
      dispatches := [];
      var pending := changes.Keys;
      while pending != {}
        invariant pending <= changes.Keys
        invariant multiset(dispatches) == multiset(Farewells(changes.Keys - pending, changes, hub.Value(), senders))
        decreases |pending|
      {
        var r :| r in pending;
        ghost var done := changes.Keys - pending;
        pending := pending - {r};
        assert changes.Keys - pending == done + {r};
        var members := if r in hub.rooms then hub.rooms[r].members.Keys else {};
        var news := Fan(members, senders, PresenceChanged(changes[r]));
        FarewellsOneMore(done, changes, hub.Value(), senders, r);
        ListsTogether(dispatches, news, Farewells(done, changes, hub.Value(), senders),
                      FanOut(members, senders, PresenceChanged(changes[r])));
        dispatches := dispatches + news;
      }
      assert changes.Keys - pending == changes.Keys;
    }
  }

  lemma FarewellsOneMore(done: set<RoomId>, changes: map<RoomId, Presence>, after: Hub, senders: set<ConnId>, r: RoomId)
    requires r !in done && r in changes && forall q :: q in changes ==> changes[q].roomId == q
    ensures var news := FanOut(RoomOf(after, r).members.Keys, senders, PresenceChanged(changes[r]));
            && Farewells(done + {r}, changes, after, senders) == Farewells(done, changes, after, senders) + news
            && Farewells(done, changes, after, senders) !! news
  {
    forall d | d in Farewells(done + {r}, changes, after, senders)
      ensures d in Farewells(done, changes, after, senders)
           || d in FanOut(RoomOf(after, r).members.Keys, senders, PresenceChanged(changes[r]))
    {
    }
  }
}
