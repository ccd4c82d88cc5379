/** Properties of the room coordinator: routing of every broadcast, the
    two-member cap as an invariant of every reachable adapter state, and
    the lifecycle of nicknames. */
module CoordinatorProofs {
  import opened Common
  import opened Coordinator

  /** Every connected socket is a member of its own id room. */
  lemma OwnRoom(st: Server, id: SocketId)
    requires Valid(st) && Live(st, id)
    ensures id in Members(st, id)
  {
    assert st.sids[id][0] == id;
    assert id in st.sids[id];
  }

  lemma {:induction false} ReceivedAppend(a: seq<Output>, b: seq<Output>, t: SocketId)
    ensures Received(a + b, t) == Received(a, t) + Received(b, t)
  {
    if a == [] {
      assert a + b == b;
    } else {
      assert (a + b)[1..] == a[1..] + b;
      ReceivedAppend(a[1..], b, t);
    }
  }

  /** A broadcast of `socket.to(room)` never reaches the sender itself. */
  lemma SenderNeverInAudience(st: Server, id: SocketId, room: RoomName)
    requires Valid(st) && Live(st, id)
    ensures id !in Audience(st, id, room)
    ensures Audience(st, id, room) <= Members(st, room) - {id}
    ensures Members(st, id) == {id} ==> Audience(st, id, room) == Members(st, room) - {id}
  {
    OwnRoom(st, id);
  }

  /** An admitted join welcomes, with the joiner's new nickname, exactly the
      sockets that were in the room before and are not the joiner. */
  lemma WelcomeGoesToEarlierMembers(st: Server, id: SocketId, room: RoomName, nickname: string)
    requires Valid(st) && Live(st, id) && |Members(st, room)| < 2
    ensures var outs := HandleJoinRoom(st, id, room, nickname).1;
      forall t :: Received(outs, t) ==
        if t in Audience(st, id, room) then [Welcome(nickname)] else []
    ensures id !in Audience(st, id, room)
    ensures Audience(st, id, room) <= Members(st, room)
  {
    OwnRoom(st, id);
    var joined := HandleJoinRoom(st, id, room, nickname).0;
    assert Audience(joined, id, room) == Audience(st, id, room) by {
      if room == id {
        assert Members(joined, id) == Members(st, id) + {id};
      } else {
        assert Members(joined, id) == Members(st, id);
      }
    }
  }

  /** A join to a full room leaves the adapter and every nickname as they
      were, reaches no socket, and answers the caller alone with the
      rejection text. */
  lemma FullRoomRejectsJoin(st: Server, id: SocketId, room: RoomName, nickname: string)
    requires Live(st, id) && |Members(st, room)| >= 2
    ensures var (st', outs) := Step(st, JoinRoom(id, room, nickname));
      && st' == st
      && outs == [Ack(id, RoomFull)]
      && forall t :: Received(outs, t) == []
  {
  }

  /** `offer`, `answer` and `ice` leave the adapter unchanged and hand the
      payload, unchanged, to the room's other members and to nobody else. */
  lemma RelayReachesOnlyRoommates(st: Server, id: SocketId, kind: Signal, payload: Payload, room: RoomName)
    requires Valid(st) && Live(st, id)
    ensures var (st', outs) := Step(st, Relay(id, kind, payload, room));
      && st' == st
      && forall t :: Received(outs, t) ==
           if t in Members(st, room) && t !in Members(st, id) then [Forwarded(kind, payload)] else []
    ensures Received(Step(st, Relay(id, kind, payload, room)).1, id) == []
  {
    OwnRoom(st, id);
  }

  /** The `bye` events a socket receives from a sequence of bye broadcasts:
      all carry the leaver's nickname, one per room the socket shares with
      it. */
  lemma {:induction false} ByesReceived(st: Server, id: SocketId, joined: seq<RoomName>, t: SocketId)
    requires Live(st, id)
    ensures forall e | e in Received(Byes(st, id, joined), t) :: e == Bye(st.nicknames[id])
    ensures |Received(Byes(st, id, joined), t)| ==
            CountIf(joined, room => t in Audience(st, id, room))
  {
    if joined != [] {
      var head := [Emit(Audience(st, id, joined[0]), Bye(st.nicknames[id]))];
      assert Byes(st, id, joined) == head + Byes(st, id, joined[1..]);
      ReceivedAppend(head, Byes(st, id, joined[1..]), t);
      ByesReceived(st, id, joined[1..], t);
    }
  }

  /** `disconnecting` says `bye`, with the leaver's nickname, to a socket
      exactly when the two share a room other than the leaver's id room;
      the leaver hears nothing. */
  lemma ByeReachesRoommates(st: Server, id: SocketId, t: SocketId)
    requires Valid(st) && Live(st, id)
    ensures var heard := Received(HandleDisconnecting(st, id), t);
      && (forall e | e in heard :: e == Bye(st.nicknames[id]))
      && (|heard| > 0 <==>
            exists i | 0 <= i < |st.sids[id]| :: t in Audience(st, id, st.sids[id][i]))
    ensures Received(HandleDisconnecting(st, id), id) == []
  {
    ByesReceived(st, id, st.sids[id], t);
    ByesReceived(st, id, st.sids[id], id);
    OwnRoom(st, id);
    var p := room => t in Audience(st, id, room);
    if |Received(HandleDisconnecting(st, id), t)| > 0 {
      var i :| 0 <= i < |st.sids[id]| && p(st.sids[id][i]);
    }
  }

  /** A socket that never joined a room belongs only to its id room, so its
      departure tells nobody anything. */
  lemma NeverJoinedSaysNoBye(st: Server, id: SocketId)
    requires Valid(st) && Live(st, id) && st.sids[id] == [id]
    ensures forall t :: Received(HandleDisconnecting(st, id), t) == []
  {
    forall t ensures Received(HandleDisconnecting(st, id), t) == [] {
      ByesReceived(st, id, [id], t);
      assert Audience(st, id, id) == {};
    }
  }

  /** A second disconnect of the same socket changes nothing and says
      nothing. */
  lemma SecondDisconnectIsSilent(st: Server, id: SocketId)
    ensures var st1 := Step(st, Disconnect(id)).0;
      Step(st1, Disconnect(id)) == (st1, [])
  {
  }

  lemma ConnectionKeepsInvariants(st: Server, id: SocketId)
    requires Valid(st) && Capped(st) && id !in st.sids && id !in st.rooms
    ensures Valid(HandleConnection(st, id)) && Capped(HandleConnection(st, id))
  {
    var st' := HandleConnection(st, id);
    assert st'.rooms[id] == {id};
  }

  lemma JoinKeepsMembershipAgreement(st: Server, id: SocketId, room: RoomName, nickname: string)
    requires Valid(st) && Live(st, id) && |Members(st, room)| < 2
    ensures TablesAgree(HandleJoinRoom(st, id, room, nickname).0)
  {
    var st' := HandleJoinRoom(st, id, room, nickname).0;
    var before := st.sids[id];
    assert st'.sids[id] == if room in before then before else before + [room];
    forall r, s | r in st'.rooms && s in st'.rooms[r]
      ensures s in st'.sids && r in st'.sids[s]
    {
      assert s in Members(st', r);
      if r == room && s == id {
      } else {
        assert s in Members(st, r);
      }
    }
    forall s, r | s in st'.sids && r in st'.sids[s]
      ensures r in st'.rooms && s in st'.rooms[r]
    {
      if s == id && r == room {
        assert s in Members(st', r);
      } else {
        assert r in st.sids[s];
        assert s in Members(st, r);
        assert s in Members(st', r);
      }
    }
  }

  lemma JoinKeepsIdRooms(st: Server, id: SocketId, room: RoomName, nickname: string)
    requires Valid(st) && Live(st, id) && |Members(st, room)| < 2
    ensures var st' := HandleJoinRoom(st, id, room, nickname).0;
      st'.nicknames.Keys == st'.sids.Keys && IdRoomsFirst(st')
  {
    var st' := HandleJoinRoom(st, id, room, nickname).0;
    var before := st.sids[id];
    assert st'.sids[id] == if room in before then before else before + [room];
  }

  lemma JoinKeepsRoomsSmall(st: Server, id: SocketId, room: RoomName, nickname: string)
    requires Valid(st) && Capped(st) && Live(st, id) && |Members(st, room)| < 2
    ensures NoEmptyRoom(HandleJoinRoom(st, id, room, nickname).0)
    ensures Capped(HandleJoinRoom(st, id, room, nickname).0)
  {
    var st' := HandleJoinRoom(st, id, room, nickname).0;
    forall r | r in st'.rooms
      ensures st'.rooms[r] != {} && |st'.rooms[r]| <= 2
    {
      assert st'.rooms[r] == Members(st', r);
    }
  }

  lemma JoinKeepsInvariants(st: Server, id: SocketId, room: RoomName, nickname: string)
    requires Valid(st) && Capped(st) && Live(st, id)
    ensures Valid(HandleJoinRoom(st, id, room, nickname).0)
    ensures Capped(HandleJoinRoom(st, id, room, nickname).0)
  {
    if |Members(st, room)| < 2 {
      JoinKeepsMembershipAgreement(st, id, room, nickname);
      JoinKeepsIdRooms(st, id, room, nickname);
      JoinKeepsRoomsSmall(st, id, room, nickname);
    }
  }

  lemma RemoveKeepsMembershipAgreement(st: Server, id: SocketId)
    requires Valid(st) && Live(st, id)
    ensures TablesAgree(AdapterRemove(st, id))
  {
  }

  lemma RemoveKeepsRoomsSmall(st: Server, id: SocketId)
    requires Valid(st) && Capped(st) && Live(st, id)
    ensures NoEmptyRoom(AdapterRemove(st, id)) && Capped(AdapterRemove(st, id))
  {
  }

  lemma RemoveKeepsIdRooms(st: Server, id: SocketId)
    requires Valid(st) && Live(st, id)
    ensures var st' := AdapterRemove(st, id);
      st'.nicknames.Keys == st'.sids.Keys && IdRoomsFirst(st')
  {
  }

  lemma RemoveKeepsInvariants(st: Server, id: SocketId)
    requires Valid(st) && Capped(st) && Live(st, id)
    ensures Valid(AdapterRemove(st, id)) && Capped(AdapterRemove(st, id))
  {
    RemoveKeepsIdRooms(st, id);
    RemoveKeepsMembershipAgreement(st, id);
    RemoveKeepsRoomsSmall(st, id);
  }

  lemma StepKeepsInvariants(st: Server, req: Request)
    requires Valid(st) && Capped(st)
    ensures Valid(Step(st, req).0) && Capped(Step(st, req).0)
  {
    match req
    case Connect(id) =>
      if id !in st.sids && id !in st.rooms {
        ConnectionKeepsInvariants(st, id);
      }
    case JoinRoom(id, room, nickname) =>
      if Live(st, id) {
        JoinKeepsInvariants(st, id, room, nickname);
      }
    case Relay(_, _, _, _) =>
    case Disconnect(id) =>
      if Live(st, id) {
        RemoveKeepsInvariants(st, id);
      }
  }

  lemma {:induction false} RunKeepsInvariants(st: Server, reqs: seq<Request>)
    requires Valid(st) && Capped(st)
    ensures Valid(Run(st, reqs).0) && Capped(Run(st, reqs).0)
    decreases |reqs|
  {
    if reqs != [] {
      StepKeepsInvariants(st, reqs[0]);
      RunKeepsInvariants(Step(st, reqs[0]).0, reqs[1..]);
    }
  }

  /** Starting from the empty adapter, no sequence of connections, joins,
      relays and disconnections ever puts three sockets in one room. */
  lemma ReachableRoomsHoldAtMostTwo(reqs: seq<Request>)
    ensures forall room | room in Run(Init(), reqs).0.rooms :: |Run(Init(), reqs).0.rooms[room]| <= 2
    ensures Valid(Run(Init(), reqs).0)
  {
    RunKeepsInvariants(Init(), reqs);
  }

  /** A connected socket's nickname changes only through a `join_room` of
      its own that is admitted, and then becomes the requested name. */
  lemma OnlyAdmittedJoinRenames(st: Server, req: Request, id: SocketId)
    requires Valid(st) && Live(st, id)
    ensures var st' := Step(st, req).0;
      id in st'.nicknames && st'.nicknames[id] != st.nicknames[id] ==>
        && req.JoinRoom? && req.id == id
        && |Members(st, req.room)| < 2
        && st'.nicknames[id] == req.nickname
  {
  }

  /** With a consistent adapter, `publicRooms` lists exactly the rooms that
      do not contain a socket whose id is the room's name. */
  lemma PublicRoomsLackTheirNamesake(st: Server)
    requires Valid(st)
    ensures forall room :: room in PublicRooms(st) <==> room in st.rooms && room !in st.rooms[room]
  {
    forall room | room in st.rooms && room in st.sids
      ensures room in st.rooms[room]
    {
      assert st.sids[room][0] == room;
    }
  }
}
