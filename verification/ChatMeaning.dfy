/** What members are told and shown, in the words of the commands and the registrations
    (src/handlers/chat/mod.rs:288-353, 415-604, 673-695, 726-745). */
module ChatMeaning {
  import opened Prelude
  import opened Members
  import opened ChatSpec
  import opened ChatInvariant
  import opened ChatRuntime
  import opened ChatRooms
  import opened ChatHistory
  import Text

  /** The room a command names, if the name is acceptable. */
  predicate IsRoom(raw: string, r: RoomId)
  {
    !Text.Blank(raw) && r == Text.Trim(raw) && Text.Utf8Length(r) <= 64
  }

  predicate BadRoom(raw: string)
  {
    Text.Blank(raw) || Text.Utf8Length(Text.Trim(raw)) > 64
  }

  predicate BadContent(content: string)
  {
    Text.Blank(content) || |Text.Trim(content)| > 500
  }

  lemma RoomNamed(raw: string)
    ensures BadRoom(raw) <==> NormalizeRoomId(raw) == Err(InvalidRoomId)
    ensures !BadRoom(raw) <==> NormalizeRoomId(raw) == Ok(Text.Trim(raw))
  {
    AcceptedRoomIds(raw, Text.Trim(raw));
  }

  // ----- Which commands fail, and how -----

  /** Joining fails exactly on a bad room id. */
  lemma JoinErrors(hub: Hub, user: SessionUser, raw: string)
    ensures Process(hub, user, JoinRoom(raw)).Err? <==> BadRoom(raw)
    ensures BadRoom(raw) ==> Process(hub, user, JoinRoom(raw)) == Err(InvalidRoomId)
  {
    RoomNamed(raw);
  }

  /** Leaving, sending and asking for the state fail on a bad room id, sending then on bad content, and all
      three for whoever is not in the room, in this order. */
  lemma MemberErrors(hub: Hub, user: SessionUser, raw: string, content: string)
    requires HubInv(hub)
    ensures var c, r := user.connectionId, Text.Trim(raw);
            var left, sent, synced := Process(hub, user, LeaveRoom(raw)),
                Process(hub, user, SendRoomMessage(raw, content)), Process(hub, user, SyncRoomState(raw));
            if BadRoom(raw)
            then left == Err(InvalidRoomId) && sent == Err(InvalidRoomId) && synced == Err(InvalidRoomId)
            else
              && (left.Ok? <==> Member(hub, c, r)) && (left.Err? ==> left == Err(NotInRoom(r)))
              && (synced.Ok? <==> Member(hub, c, r)) && (synced.Err? ==> synced == Err(NotInRoom(r)))
              && (sent.Ok? <==> Member(hub, c, r) && !BadContent(content))
              && (Text.Blank(content) ==> sent == Err(EmptyContent))
              && (|Text.Trim(content)| > 500 ==> sent == Err(ContentTooLong))
              && (!BadContent(content) && !Member(hub, c, r) ==> sent == Err(NotInRoom(r)))
  {
    RoomNamed(raw);
    AcceptedContent(content);
    assert Member(hub, user.connectionId, Text.Trim(raw)) <==> Joined(hub, user.connectionId, Text.Trim(raw));
  }

  /** A ping never fails, and a frame that is no command always does. */
  lemma OtherErrors(hub: Hub, user: SessionUser)
    ensures Process(hub, user, Ping) == Ok(hub) && Process(hub, user, Undecodable) == Err(InvalidMessage)
  {
  }

  // ----- What a step sends -----

  /** A failing command changes nothing and is answered to its sender, with its error, and to nobody else. */
  lemma FailureIsAnswered(chat: Chat, c: ConnId, command: Command)
    requires ChatInv(chat) && c in chat.sessions && Process(chat.hub, chat.sessions[c], command).Err?
    ensures Apply(chat, Handle(c, command)) == chat
    ensures Dispatches(chat, Handle(c, command))
         == {Dispatch(c, Failed(Process(chat.hub, chat.sessions[c], command).error))}
  {
    assert chat.sessions[c].connectionId == c;
    OnlyTo(c, chat.senders, Failed(Process(chat.hub, chat.sessions[c], command).error));
  }

  lemma OnlyTo(c: ConnId, senders: set<ConnId>, event: Event)
    requires c in senders
    ensures FanOut({c}, senders, event) == {Dispatch(c, event)}
  {
    FanOutHas({c}, senders, event, Dispatch(c, event));
  }

  lemma ToAll(members: set<ConnId>, senders: set<ConnId>, event: Event)
    requires members <= senders
    ensures FanOut(members, senders, event) == set c | c in members :: Dispatch(c, event)
  {
  }

  /** A ping is answered with a pong, and changes nothing. */
  lemma PingIsAnswered(chat: Chat, c: ConnId)
    requires ChatInv(chat) && c in chat.sessions
    ensures Apply(chat, Handle(c, Ping)) == chat
    ensures Dispatches(chat, Handle(c, Ping)) == {Dispatch(c, Pong)}
  {
    assert chat.sessions[c].connectionId == c;
    OnlyTo(c, chat.senders, Pong);
  }

  /** A new connection is greeted with the names it registered. */
  lemma RegistrationIsGreeted(chat: Chat, userId: string, userName: string)
    ensures Dispatches(chat, Register(userId, userName))
         == {Dispatch("chat-" + Text.Decimal(chat.nextConnectionId + 1), Connected(Summary(userId, userName)))}
  {
  }

  /** The members of a room that are not `c` hear this news. */
  predicate OthersHear(hub: Hub, r: RoomId, c: ConnId, news: Event, d: Dispatch)
  {
    r in hub.rooms && d.to in hub.rooms[r].members && d.to != c && d.event == news
  }

  /** A first join: the joiner is shown the room, everybody else in it hears of the joiner; joining again is
      only answered. */
  lemma JoinSends(chat: Chat, c: ConnId, raw: string, r: RoomId, d: Dispatch)
    requires ChatInv(chat) && c in chat.sessions && IsRoom(raw, r)
    ensures var step := Handle(c, JoinRoom(raw));
            var after := Apply(chat, step).hub;
            && Member(after, c, r)
            && (d in Dispatches(chat, step) <==>
                || d == Dispatch(c, JoinedRoom(SnapshotOf(r, after.rooms[r])))
                || (!Member(chat.hub, c, r)
                    && OthersHear(chat.hub, r, c,
                         PresenceChanged(Presence(r, [Summary(chat.sessions[c].userId, chat.sessions[c].userName)], [],
                                                  after.rooms[r].version)), d)))
  {
    RoomNamed(raw);
    var user := chat.sessions[c];
    assert user.connectionId == c;
    JoinKeeps(chat.hub, user, r);
    MembersAreSenders(chat, r);
    var room := RoomOf(Join(chat.hub, user, r), r);
    var answer := JoinedRoom(SnapshotOf(r, room));
    var news := PresenceChanged(Presence(r, [SummaryOf(user)], [], room.version));
    FanOutHas({c}, chat.senders, answer, d);
    FanOutHas(room.members.Keys - {c}, chat.senders, news, d);
    assert Dispatches(chat, Handle(c, JoinRoom(raw))) == JoinDispatches(chat.hub, chat.senders, user, r);
  }

  /** Leaving: the leaver gets the notice at the new version, everybody else in the room hears of the leaver. */
  lemma LeaveSends(chat: Chat, c: ConnId, raw: string, r: RoomId, d: Dispatch)
    requires ChatInv(chat) && c in chat.sessions && IsRoom(raw, r) && Member(chat.hub, c, r)
    ensures var step, version := Handle(c, LeaveRoom(raw)), chat.hub.rooms[r].version + 1;
            d in Dispatches(chat, step) <==>
            || d == Dispatch(c, LeftRoom(r, version))
            || OthersHear(chat.hub, r, c,
                 PresenceChanged(Presence(r, [], [Summary(chat.sessions[c].userId, chat.sessions[c].userName)],
                                          version)), d)
  {
    RoomNamed(raw);
    assert chat.sessions[c].connectionId == c;
    assert Joined(chat.hub, c, r);
    MembersAreSenders(chat, r);
    var version := chat.hub.rooms[r].version + 1;
    var news := PresenceChanged(LeavePresence(chat.hub, c, r));
    FanOutHas({c}, chat.senders, LeftRoom(r, version), d);
    FanOutHas(chat.hub.rooms[r].members.Keys - {c}, chat.senders, news, d);
    assert Dispatches(chat, Handle(c, LeaveRoom(raw))) == LeaveDispatches(chat.hub, chat.senders, c, r);
  }

  /** Sending: every member, the sender included, is sent one and the same message, which says what the
      sender wrote, trimmed, under the sender's names; and nobody is sent anything else. */
  lemma MessageSays(chat: Chat, c: ConnId, raw: string, content: string, r: RoomId) returns (m: RoomMessage)
    requires ChatInv(chat) && c in chat.sessions && IsRoom(raw, r) && Member(chat.hub, c, r) && !BadContent(content)
    ensures m.roomId == r && m.content == Text.Trim(content)
    ensures m.senderId == chat.sessions[c].userId && m.senderName == chat.sessions[c].userName
    ensures m.messageId == "msg-" + Text.Decimal(chat.hub.nextMessageId + 1)
    ensures m.version == chat.hub.rooms[r].version + 1
    ensures var step := Handle(c, SendRoomMessage(raw, content));
            && Dispatches(chat, step) == (set p | p in chat.hub.rooms[r].members :: Dispatch(p, MessagePosted(m)))
            && var recent := RoomOf(Apply(chat, step).hub, r).recent;
               recent != [] && recent[|recent| - 1] == m
  {
    RoomNamed(raw);
    AcceptedContent(content);
    assert chat.sessions[c].connectionId == c;
    assert Joined(chat.hub, c, r);
    MembersAreSenders(chat, r);
    m := NewMessage(chat.hub, c, r, Text.Trim(content));
    ToAll(chat.hub.rooms[r].members.Keys, chat.senders, MessagePosted(m));
    assert Dispatches(chat, Handle(c, SendRoomMessage(raw, content)))
        == SendDispatches(chat.hub, chat.senders, c, r, Text.Trim(content));
  }

  /** Asking for the state: only the asker is answered, with the room. */
  lemma SyncSends(chat: Chat, c: ConnId, raw: string, r: RoomId)
    requires ChatInv(chat) && c in chat.sessions && IsRoom(raw, r) && Member(chat.hub, c, r)
    ensures Dispatches(chat, Handle(c, SyncRoomState(raw)))
         == {Dispatch(c, RoomState(SnapshotOf(r, chat.hub.rooms[r])))}
  {
    RoomNamed(raw);
    assert chat.sessions[c].connectionId == c;
    OnlyTo(c, chat.senders, RoomState(SnapshotOf(r, chat.hub.rooms[r])));
  }

  /** Who is in a room after `c` has gone, and what is announced of it. */
  lemma CloseIsHeard(chat: Chat, c: ConnId, r: RoomId, p: ConnId)
    requires ChatInv(chat) && c in chat.sessions
    ensures r in DisconnectPresences(chat.hub, c) <==> Member(chat.hub, c, r)
    ensures p in RoomOf(Disconnect(chat.hub, c), r).members <==> Member(chat.hub, p, r) && p != c
    ensures Member(chat.hub, c, r) ==>
              DisconnectPresences(chat.hub, c)[r]
              == Presence(r, [], [Summary(chat.sessions[c].userId, chat.sessions[c].userName)],
                          chat.hub.rooms[r].version + 1)
  {
    assert Member(chat.hub, c, r) <==> Joined(chat.hub, c, r);
    DisconnectEffect(chat.hub, c, p, r);
    assert Member(Disconnect(chat.hub, c), p, r) <==> p in RoomOf(Disconnect(chat.hub, c), r).members;
  }

  predicate HearsOfClosing(chat: Chat, c: ConnId, r: RoomId, d: Dispatch)
    requires c in chat.sessions
  {
    && Member(chat.hub, c, r)
    && OthersHear(chat.hub, r, c,
         PresenceChanged(Presence(r, [], [Summary(chat.sessions[c].userId, chat.sessions[c].userName)],
                                  chat.hub.rooms[r].version + 1)), d)
  }

  lemma CloseSendsOnly(chat: Chat, c: ConnId, d: Dispatch) returns (r: RoomId)
    requires ChatInv(chat) && c in chat.sessions && d in Dispatches(chat, Unregister(c))
    ensures HearsOfClosing(chat, c, r, d)
  {
    var changes := DisconnectPresences(chat.hub, c);
    r :| r in changes && d.to in RoomOf(Disconnect(chat.hub, c), r).members && d.event == PresenceChanged(changes[r]);
    CloseIsHeard(chat, c, r, d.to);
  }

  lemma CloseSendsAll(chat: Chat, c: ConnId, r: RoomId, d: Dispatch)
    requires ChatInv(chat) && c in chat.sessions && HearsOfClosing(chat, c, r, d)
    ensures d in Dispatches(chat, Unregister(c))
  {
    var after, changes := Disconnect(chat.hub, c), DisconnectPresences(chat.hub, c);
    CloseIsHeard(chat, c, r, d.to);
    MembersAreSenders(chat, r);
    FarewellIsSent(changes.Keys, changes, after, chat.senders - {c}, r, d);
  }

  lemma FarewellIsSent(
    rooms: set<RoomId>, changes: map<RoomId, Presence>, after: Hub, senders: set<ConnId>, r: RoomId, d: Dispatch)
    requires r in rooms && r in changes && d.to in RoomOf(after, r).members && d.to in senders
    requires d.event == PresenceChanged(changes[r])
    ensures d in Farewells(rooms, changes, after, senders)
  {
  }

  /** Closing: whoever is left in a room that `c` was in hears of it, and nobody hears anything else. */
  lemma CloseSends(chat: Chat, c: ConnId, d: Dispatch)
    requires ChatInv(chat) && c in chat.sessions
    ensures d in Dispatches(chat, Unregister(c)) <==> exists r :: HearsOfClosing(chat, c, r, d)
  {
    if d in Dispatches(chat, Unregister(c)) {
      var r := CloseSendsOnly(chat, c, d);
    }
    if r :| HearsOfClosing(chat, c, r, d) {
      CloseSendsAll(chat, c, r, d);
    }
  }

  // ----- What histories say -----

  datatype Line = Line(senderId: string, senderName: string, content: string)

  /** A send command for the room that is accepted. */
  predicate Says(chat: Chat, step: Step, r: RoomId)
  {
    && step.Handle? && step.command.SendRoomMessage? && IsRoom(step.command.roomId, r)
    && Member(chat.hub, step.actor, r) && !BadContent(step.command.content)
  }

  /** What the accepted send commands of a run say in the room: who, and the trimmed text. */
  ghost function Lines(chat: Chat, steps: seq<Step>, r: RoomId): seq<Line>
    requires Valid(chat, steps)
    decreases |steps|
  {
    if steps == [] then []
    else (if Says(chat, steps[0], r)
          then [Line(chat.sessions[steps[0].actor].userId, chat.sessions[steps[0].actor].userName,
                     Text.Trim(steps[0].command.content))]
          else [])
         + Lines(Apply(chat, steps[0]), steps[1..], r)
  }

  predicate Quotes(messages: seq<RoomMessage>, lines: seq<Line>)
  {
    && |messages| == |lines|
    && forall i :: 0 <= i < |lines| ==>
         lines[i] == Line(messages[i].senderId, messages[i].senderName, messages[i].content)
  }

  lemma PostSays(chat: Chat, step: Step, r: RoomId)
    requires ChatInv(chat) && Enabled(chat, step)
    ensures Posts(chat, step, r) <==> Says(chat, step, r)
    ensures Posts(chat, step, r) ==>
              var m, user := Posted(chat, step, r), chat.sessions[step.actor];
              m.senderId == user.userId && m.senderName == user.userName && m.content == Text.Trim(step.command.content)
  {
    if step.Handle? && step.command.SendRoomMessage? {
      RoomNamed(step.command.roomId);
      AcceptedContent(step.command.content);
      assert Member(chat.hub, step.actor, r) <==> Joined(chat.hub, step.actor, r);
    }
  }

  lemma QuotesAppend(a: seq<RoomMessage>, b: seq<RoomMessage>, x: seq<Line>, y: seq<Line>)
    requires Quotes(a, x) && Quotes(b, y)
    ensures Quotes(a + b, x + y)
  {
  }

  lemma {:induction false} AcceptedQuotes(chat: Chat, steps: seq<Step>, r: RoomId)
    requires ChatInv(chat) && Valid(chat, steps)
    ensures Quotes(Accepted(chat, steps, r), Lines(chat, steps, r))
    decreases |steps|
  {
    if steps != [] {
      var step, next := steps[0], Apply(chat, steps[0]);
      StepKeeps(chat, step);
      AcceptedQuotes(next, steps[1..], r);
      PostSays(chat, step, r);
      if Posts(chat, step, r) {
        var user := chat.sessions[step.actor];
        QuotesAppend([Posted(chat, step, r)], Accepted(next, steps[1..], r),
                     [Line(user.userId, user.userName, Text.Trim(step.command.content))], Lines(next, steps[1..], r));
      } else {
        QuotesAppend([], Accepted(next, steps[1..], r), [], Lines(next, steps[1..], r));
      }
    }
  }

  /** The messages show, in order, the last twenty of the lines, or all of them if they are fewer. */
  predicate ShowsLastTwenty(recent: seq<RoomMessage>, lines: seq<Line>, r: RoomId)
  {
    && |recent| == (if |lines| <= 20 then |lines| else 20)
    && forall i :: 0 <= i < |recent| ==>
         && recent[i].roomId == r
         && Line(recent[i].senderId, recent[i].senderName, recent[i].content) == lines[|lines| - |recent| + i]
  }

  /** Over every run, from the step that creates a room on and for as long as it lives: the history shows, in
      order, the last twenty of the lines said in it, each under its sender's names. */
  lemma HistorySays(before: seq<Step>, creating: Step, after: seq<Step>, r: RoomId)
    requires Valid(EMPTY_CHAT, before) && Enabled(Exec(EMPTY_CHAT, before), creating)
    requires r !in Exec(EMPTY_CHAT, before).hub.rooms
    requires var created := Apply(Exec(EMPTY_CHAT, before), creating); Valid(created, after) && Lives(created, after, r)
    ensures var created := Apply(Exec(EMPTY_CHAT, before), creating);
            ShowsLastTwenty(RoomOf(Exec(created, after).hub, r).recent, Lines(created, after, r), r)
  {
    HistoryMeaning(before, creating, after, r);
    CreationKeeps(before, creating);
    HistoryFrom(Apply(Exec(EMPTY_CHAT, before), creating), after, r);
  }

  lemma CreationKeeps(before: seq<Step>, creating: Step)
    requires Valid(EMPTY_CHAT, before) && Enabled(Exec(EMPTY_CHAT, before), creating)
    ensures ChatInv(Apply(Exec(EMPTY_CHAT, before), creating))
  {
    EmptyChatInv();
    RunKeeps(EMPTY_CHAT, before);
    StepKeeps(Exec(EMPTY_CHAT, before), creating);
  }

  lemma HistoryFrom(created: Chat, after: seq<Step>, r: RoomId)
    requires ChatInv(created) && Valid(created, after) && r in Exec(created, after).hub.rooms
    requires var room := Exec(created, after).hub.rooms[r];
             room.recent == LastN(Accepted(created, after, r), MAX_RECENT_MESSAGES) && HistoryOrdered(r, room)
    ensures ShowsLastTwenty(RoomOf(Exec(created, after).hub, r).recent, Lines(created, after, r), r)
  {
    AcceptedQuotes(created, after, r);
    LinesShown(Exec(created, after).hub, r, Accepted(created, after, r), Lines(created, after, r));
  }

  lemma LinesShown(hub: Hub, r: RoomId, messages: seq<RoomMessage>, lines: seq<Line>)
    requires r in hub.rooms && hub.rooms[r].recent == LastN(messages, MAX_RECENT_MESSAGES)
    requires HistoryOrdered(r, hub.rooms[r]) && Quotes(messages, lines)
    ensures ShowsLastTwenty(RoomOf(hub, r).recent, lines, r)
  {
    LastTwenty(messages, lines);
  }

  lemma LastTwenty(messages: seq<RoomMessage>, lines: seq<Line>)
    requires Quotes(messages, lines)
    ensures var recent := LastN(messages, MAX_RECENT_MESSAGES);
            && |recent| == (if |lines| <= 20 then |lines| else 20)
            && forall i :: 0 <= i < |recent| ==>
                 lines[|lines| - |recent| + i] == Line(recent[i].senderId, recent[i].senderName, recent[i].content)
  {
  }

  // ----- Names -----

  lemma SessionStays(chat: Chat, step: Step, c: ConnId)
    requires ChatInv(chat) && Enabled(chat, step) && c in chat.sessions && c in Apply(chat, step).sessions
    ensures Apply(chat, step).sessions[c] == chat.sessions[c]
  {
    NextIdIsNew(chat);
  }

  lemma {:induction false} SessionStaysThrough(chat: Chat, steps: seq<Step>, c: ConnId)
    requires ChatInv(chat) && Valid(chat, steps) && c in chat.sessions && c in Exec(chat, steps).sessions
    ensures Exec(chat, steps).sessions[c] == chat.sessions[c]
    decreases |steps|
  {
    if steps != [] {
      var next := Apply(chat, steps[0]);
      StepKeeps(chat, steps[0]);
      if c in next.sessions {
        SessionStays(chat, steps[0], c);
        SessionStaysThrough(next, steps[1..], c);
      } else {
        IssuedStays(c, chat.nextConnectionId, next.nextConnectionId);
        ClosedThroughout(next, steps[1..], c);
      }
    }
  }

  /** Over every run: whatever names a connection registers under are its session's for as long as it lasts,
      and those of its entry in every room it is in, and in every member list shown of that room. */
  lemma NamesAsRegistered(before: seq<Step>, userId: string, userName: string, after: seq<Step>, r: RoomId)
    requires Valid(EMPTY_CHAT, before)
    requires Valid(Apply(Exec(EMPTY_CHAT, before), Register(userId, userName)), after)
    ensures var chat := Exec(EMPTY_CHAT, before);
            var now := Exec(Apply(chat, Register(userId, userName)), after);
            var c := "chat-" + Text.Decimal(chat.nextConnectionId + 1);
            && (c in now.sessions ==> now.sessions[c].userId == userId && now.sessions[c].userName == userName)
            && (Member(now.hub, c, r) ==>
                  && now.hub.rooms[r].members[c] == Summary(userId, userName)
                  && Summary(userId, userName) in SnapshotOf(r, now.hub.rooms[r]).members)
  {
    EmptyChatInv();
    RunKeeps(EMPTY_CHAT, before);
    var chat := Exec(EMPTY_CHAT, before);
    StepKeeps(chat, Register(userId, userName));
    NamesHold(Apply(chat, Register(userId, userName)), after, ConnectionId(chat.nextConnectionId + 1), r);
  }

  lemma NamesHold(chat: Chat, steps: seq<Step>, c: ConnId, r: RoomId)
    requires ChatInv(chat) && Valid(chat, steps) && c in chat.sessions
    ensures var now, user := Exec(chat, steps), chat.sessions[c];
            && (c in now.sessions ==> now.sessions[c] == user)
            && (Member(now.hub, c, r) ==>
                  && now.hub.rooms[r].members[c] == Summary(user.userId, user.userName)
                  && Summary(user.userId, user.userName) in SnapshotOf(r, now.hub.rooms[r]).members)
  {
    RunKeeps(chat, steps);
    var now := Exec(chat, steps);
    if c in now.sessions {
      SessionStaysThrough(chat, steps, c);
    }
    if Member(now.hub, c, r) {
      MemberIsShown(now.hub.rooms[r].members, c);
    }
  }

  lemma MemberIsShown(members: map<ConnId, Summary>, c: ConnId)
    requires c in members
    ensures members[c] in SortedMembers(members)
  {
    BagWithout(members, c);
    assert members[c] in multiset(SortedMembers(members));
  }
}
