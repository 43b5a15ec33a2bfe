/** One room seen through a run: what each step does to it, and what its members are told of that
    (src/handlers/chat/mod.rs:447-604). */
module ChatRooms {
  import opened Prelude
  import opened Members
  import opened ChatSpec
  import opened ChatInvariant
  import opened ChatRuntime

  // ----- The three ways a room changes -----

  predicate Joins(chat: Chat, step: Step, r: RoomId)
  {
    step.Handle? && step.command.JoinRoom? && NormalizeRoomId(step.command.roomId) == Ok(r)
    && !Member(chat.hub, step.actor, r)
  }

  /** By command or by closing the connection. */
  predicate Leaves(chat: Chat, step: Step, r: RoomId)
  {
    && (step.Unregister? || (step.Handle? && step.command.LeaveRoom? && NormalizeRoomId(step.command.roomId) == Ok(r)))
    && CanLeave(chat.hub, step.actor, r)
  }

  predicate Posts(chat: Chat, step: Step, r: RoomId)
  {
    && step.Handle? && step.command.SendRoomMessage? && NormalizeRoomId(step.command.roomId) == Ok(r)
    && NormalizeContent(step.command.content).Ok?
    && CanLeave(chat.hub, step.actor, r)
  }

  predicate Touches(chat: Chat, step: Step, r: RoomId)
  {
    Joins(chat, step, r) || Leaves(chat, step, r) || Posts(chat, step, r)
  }

  function Posted(chat: Chat, step: Step, r: RoomId): RoomMessage
    requires Posts(chat, step, r)
  {
    NewMessage(chat.hub, step.actor, r, NormalizeContent(step.command.content).value)
  }

  /** A room nobody is in is forgotten, with its version and history. */
  function Kept(room: Room): Room
  {
    if room.members == map[] then NEW_ROOM else room
  }

  function RoomAfter(chat: Chat, step: Step, r: RoomId): Room
    requires Enabled(chat, step)
  {
    var room := RoomOf(chat.hub, r);
    if Joins(chat, step, r) then RoomJoin(room, step.actor, SummaryOf(chat.sessions[step.actor]))
    else if Leaves(chat, step, r) then Kept(RoomLeave(room, step.actor))
    else if Posts(chat, step, r) then RoomSend(room, Posted(chat, step, r))
    else room
  }

  /** The room after any step of the runtime is the room before it with just that change. */
  lemma RoomStep(chat: Chat, step: Step, r: RoomId)
    requires ChatInv(chat) && Enabled(chat, step)
    ensures RoomOf(Apply(chat, step).hub, r) == RoomAfter(chat, step, r)
  {
    var hub := chat.hub;
    if step.Handle? {
      assert Member(hub, step.actor, r) <==> Joined(hub, step.actor, r);
      assert r in hub.rooms ==> hub.rooms[r].members != map[];
      assert chat.sessions[step.actor].connectionId == step.actor;
    } else if step.Unregister? {
      DisconnectRoom(hub, step.actor, r);
    }
  }

  lemma DisconnectRoom(hub: Hub, c: ConnId, r: RoomId)
    requires HubInv(hub)
    ensures RoomOf(Disconnect(hub, c), r)
         == if CanLeave(hub, c, r) then Kept(RoomLeave(RoomOf(hub, r), c)) else RoomOf(hub, r)
  {
    assert Member(hub, c, r) <==> Joined(hub, c, r);
  }

  // ----- What the members of a room are told -----

  predicate IsDelta(e: Event, r: RoomId)
  {
    (e.PresenceChanged? && e.presence.roomId == r) || (e.MessagePosted? && e.message.roomId == r)
  }

  function DeltaVersion(e: Event): nat
    requires e.PresenceChanged? || e.MessagePosted?
  {
    if e.PresenceChanged? then e.presence.version else e.message.version
  }

  /** The deltas about `r` that `c` finds in a set of dispatches. */
  ghost function Picked(dispatches: set<Dispatch>, c: ConnId, r: RoomId): set<Event>
  {
    set d | d in dispatches && d.to == c && IsDelta(d.event, r) :: d.event
  }

  /** The presence changes and messages of a room that one step dispatches to one connection. */
  ghost function DeltasTo(chat: Chat, step: Step, c: ConnId, r: RoomId): set<Event>
    requires Enabled(chat, step)
  {
    Picked(Dispatches(chat, step), c, r)
  }

  function Delta(chat: Chat, step: Step, r: RoomId): Event
    requires Enabled(chat, step) && Touches(chat, step, r)
  {
    var version := RoomOf(chat.hub, r).version + 1;
    if Joins(chat, step, r) then PresenceChanged(Presence(r, [SummaryOf(chat.sessions[step.actor])], [], version))
    else if Leaves(chat, step, r) then PresenceChanged(LeavePresence(chat.hub, step.actor, r))
    else MessagePosted(Posted(chat, step, r))
  }

  /** A connection that is in the room before and after the step. */
  predicate Stays(chat: Chat, step: Step, c: ConnId, r: RoomId)
    requires Enabled(chat, step)
  {
    Member(chat.hub, c, r) && Member(Apply(chat, step).hub, c, r)
  }

  ghost predicate ToldExactly(chat: Chat, step: Step, c: ConnId, r: RoomId)
    requires Enabled(chat, step)
  {
    DeltasTo(chat, step, c, r) == if Touches(chat, step, r) then {Delta(chat, step, r)} else {}
  }

  lemma FanOutHas(recipients: set<ConnId>, senders: set<ConnId>, event: Event, d: Dispatch)
    ensures d in FanOut(recipients, senders, event) <==> d.to in recipients && d.to in senders && d.event == event
  {
  }

  lemma PickedFanOut(recipients: set<ConnId>, senders: set<ConnId>, event: Event, c: ConnId, r: RoomId)
    ensures Picked(FanOut(recipients, senders, event), c, r)
         == if c in recipients && c in senders && IsDelta(event, r) then {event} else {}
  {
    if c in recipients && c in senders {
      assert Dispatch(c, event) in FanOut(recipients, senders, event);
    }
  }

  lemma PickedUnion(a: set<Dispatch>, b: set<Dispatch>, c: ConnId, r: RoomId)
    ensures Picked(a + b, c, r) == Picked(a, c, r) + Picked(b, c, r)
  {
  }

  lemma PickedJoin(hub: Hub, senders: set<ConnId>, user: SessionUser, q: RoomId, c: ConnId, r: RoomId)
    requires c in senders && c != user.connectionId
    ensures Picked(JoinDispatches(hub, senders, user, q), c, r)
         == if q == r && user.connectionId !in RoomOf(hub, q).members && c in RoomOf(hub, q).members
            then {PresenceChanged(Presence(r, [SummaryOf(user)], [], RoomOf(hub, q).version + 1))} else {}
  {
    var actor, room := user.connectionId, RoomOf(Join(hub, user, q), q);
    var answer, news := JoinedRoom(SnapshotOf(q, room)),
        PresenceChanged(Presence(q, [SummaryOf(user)], [], room.version));
    PickedFanOut({actor}, senders, answer, c, r);
    if actor !in RoomOf(hub, q).members {
      PickedFanOut(room.members.Keys - {actor}, senders, news, c, r);
      PickedUnion(FanOut({actor}, senders, answer), FanOut(room.members.Keys - {actor}, senders, news), c, r);
    }
  }

  /** The answer to the joiner itself is no delta, and it is in the room already when it stays. */
  lemma PickedOwnJoin(hub: Hub, senders: set<ConnId>, user: SessionUser, q: RoomId, r: RoomId)
    requires user.connectionId in RoomOf(hub, q).members || q != r
    ensures Picked(JoinDispatches(hub, senders, user, q), user.connectionId, r) == {}
  {
    var actor, room := user.connectionId, RoomOf(Join(hub, user, q), q);
    var answer, news := JoinedRoom(SnapshotOf(q, room)),
        PresenceChanged(Presence(q, [SummaryOf(user)], [], room.version));
    PickedFanOut({actor}, senders, answer, actor, r);
    if actor !in RoomOf(hub, q).members {
      PickedFanOut(room.members.Keys - {actor}, senders, news, actor, r);
      PickedUnion(FanOut({actor}, senders, answer), FanOut(room.members.Keys - {actor}, senders, news), actor, r);
    }
  }

  lemma ToldOfOwnJoin(chat: Chat, step: Step, r: RoomId)
    requires step.Handle? && step.command.JoinRoom? && NormalizeRoomId(step.command.roomId).Ok?
    requires Enabled(chat, step) && chat.sessions[step.actor].connectionId == step.actor
             && Member(chat.hub, step.actor, r)
    ensures ToldExactly(chat, step, step.actor, r)
  {
    PickedOwnJoin(chat.hub, chat.senders, chat.sessions[step.actor], NormalizeRoomId(step.command.roomId).value, r);
  }

  lemma ToldOfJoin(chat: Chat, step: Step, c: ConnId, r: RoomId)
    requires Enabled(chat, step) && c in chat.senders && Member(chat.hub, c, r)
    requires step.Handle? && step.command.JoinRoom? && NormalizeRoomId(step.command.roomId).Ok?
    requires c != step.actor == chat.sessions[step.actor].connectionId
    ensures ToldExactly(chat, step, c, r)
  {
    PickedJoin(chat.hub, chat.senders, chat.sessions[step.actor], NormalizeRoomId(step.command.roomId).value, c, r);
  }

  lemma PickedLeave(hub: Hub, senders: set<ConnId>, actor: ConnId, q: RoomId, c: ConnId, r: RoomId)
    requires c in senders && Member(hub, actor, q)
    ensures Picked(LeaveDispatches(hub, senders, actor, q), c, r)
         == if q == r && c != actor && c in hub.rooms[q].members then {PresenceChanged(LeavePresence(hub, actor, q))}
            else {}
  {
    var answer, news := LeftRoom(q, hub.rooms[q].version + 1), PresenceChanged(LeavePresence(hub, actor, q));
    var others := hub.rooms[q].members.Keys - {actor};
    PickedFanOut({actor}, senders, answer, c, r);
    PickedFanOut(others, senders, news, c, r);
    PickedUnion(FanOut({actor}, senders, answer), FanOut(others, senders, news), c, r);
  }

  lemma ToldOfLeave(chat: Chat, step: Step, c: ConnId, r: RoomId)
    requires SessionsOwnIds(chat) && c in chat.senders
    requires Enabled(chat, step) && Stays(chat, step, c, r)
    requires step.Handle? && step.command.LeaveRoom? && Process(chat.hub, chat.sessions[step.actor], step.command).Ok?
    ensures ToldExactly(chat, step, c, r)
  {
    var q := NormalizeRoomId(step.command.roomId).value;
    assert chat.sessions[step.actor].connectionId == step.actor;
    LeaveEffect(chat.hub, step.actor, q, c, r);
    PickedLeave(chat.hub, chat.senders, step.actor, q, c, r);
    assert Dispatches(chat, step) == LeaveDispatches(chat.hub, chat.senders, step.actor, q);
  }

  lemma ToldOfSend(chat: Chat, step: Step, c: ConnId, r: RoomId)
    requires SessionsOwnIds(chat) && c in chat.senders
    requires Enabled(chat, step) && Member(chat.hub, c, r)
    requires step.Handle? && step.command.SendRoomMessage?
             && Process(chat.hub, chat.sessions[step.actor], step.command).Ok?
    ensures ToldExactly(chat, step, c, r)
  {
    var q, text := NormalizeRoomId(step.command.roomId).value, NormalizeContent(step.command.content).value;
    assert chat.sessions[step.actor].connectionId == step.actor;
    var news := MessagePosted(NewMessage(chat.hub, step.actor, q, text));
    PickedFanOut(chat.hub.rooms[q].members.Keys, chat.senders, news, c, r);
    assert Dispatches(chat, step) == SendDispatches(chat.hub, chat.senders, step.actor, q, text);
  }

  lemma PickedDisconnect(hub: Hub, senders: set<ConnId>, actor: ConnId, c: ConnId, r: RoomId)
    requires c in senders && c != actor && Member(Disconnect(hub, actor), c, r)
    ensures Picked(DisconnectDispatches(hub, senders, actor), c, r)
         == if r in DisconnectPresences(hub, actor) then {PresenceChanged(DisconnectPresences(hub, actor)[r])} else {}
  {
    var changes := DisconnectPresences(hub, actor);
    if r in changes {
      var d := Dispatch(c, PresenceChanged(changes[r]));
      assert c in RoomOf(Disconnect(hub, actor), r).members && c in senders - {actor};
      assert d in DisconnectDispatches(hub, senders, actor);
      assert d.event in Picked(DisconnectDispatches(hub, senders, actor), c, r);
    }
  }

  lemma ToldOfDisconnect(chat: Chat, step: Step, c: ConnId, r: RoomId)
    requires HubInv(chat.hub) && UsersKnown(chat) && c in chat.senders
    requires Enabled(chat, step) && Stays(chat, step, c, r)
    requires step.Unregister?
    ensures ToldExactly(chat, step, c, r)
  {
    var hub, actor := chat.hub, step.actor;
    DisconnectEffect(hub, actor, c, r);
    assert Member(hub, actor, r) <==> Joined(hub, actor, r);
    PickedDisconnect(hub, chat.senders, actor, c, r);
    if Member(hub, actor, r) {
      SameEntry(hub, actor, r);
    }
    assert Dispatches(chat, step) == DisconnectDispatches(hub, chat.senders, actor);
  }

  /** Whoever stays in a room is told exactly the change that the step makes to it, and nothing when it makes none. */
  lemma ToldEachChange(chat: Chat, step: Step, c: ConnId, r: RoomId)
    requires ChatInv(chat) && Enabled(chat, step) && Stays(chat, step, c, r)
    ensures ToldExactly(chat, step, c, r)
  {
    if step.Unregister? {
      ToldOfDisconnect(chat, step, c, r);
    } else if step.Handle? {
      var outcome := Process(chat.hub, chat.sessions[step.actor], step.command);
      if outcome.Err? {
        PickedFanOut({chat.sessions[step.actor].connectionId}, chat.senders, Failed(outcome.error), c, r);
      } else if step.command.JoinRoom? {
        assert chat.sessions[step.actor].connectionId == step.actor;
        if c == step.actor { ToldOfOwnJoin(chat, step, r); } else { ToldOfJoin(chat, step, c, r); }
      } else if step.command.LeaveRoom? {
        ToldOfLeave(chat, step, c, r);
      } else if step.command.SendRoomMessage? {
        ToldOfSend(chat, step, c, r);
      }
    }
  }
}
