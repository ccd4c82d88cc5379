/** The room coordinator of the signalling server: the `connection` handler
    and `publicRooms`. Each handler runs to completion, so each is a pure
    transition from one adapter state to the next together with the
    broadcasts it makes. */
module Coordinator {
  import opened Common

  /** Text handed to the `join_room` acknowledgement callback on rejection. */
  const RoomFull: string := "2 people max. allowed per room."

  /** Nickname of a socket that has not joined a room yet. */
  const DefaultNickname: string := "Anon"

  /** The three negotiation messages the server forwards verbatim. */
  datatype Signal = OfferSignal | AnswerSignal | IceSignal

  /** Events the server emits to clients. */
  datatype Event =
    | Welcome(nickname: string)
    | Offer(offer: Payload)
    | Answer(answer: Payload)
    | Ice(candidate: Payload)
    | Bye(nickname: string)

  /** The event a relay of `kind` delivers: the same payload, unchanged. */
  function Forwarded(kind: Signal, payload: Payload): (e: Event)
    ensures e.Offer? || e.Answer? || e.Ice?
  {
    match kind
    case OfferSignal => Offer(payload)
    case AnswerSignal => Answer(payload)
    case IceSignal => Ice(payload)
  }

  /** What a handler produces: one broadcast per `socket.to(room).emit`, or a
      call of the `join_room` acknowledgement callback. */
  datatype Output =
    | Emit(to: set<SocketId>, event: Event)
    | Ack(caller: SocketId, message: string)

  /** The socket.io adapter's two tables and the nickname stored on each
      socket. `sids` lists a socket's rooms in the order it joined them. */
  datatype Server = Server(
    rooms: map<RoomName, set<SocketId>>,
    sids: map<SocketId, seq<RoomName>>,
    nicknames: map<SocketId, string>)

  /** One inbound event, from one connected socket. */
  datatype Request =
    | Connect(id: SocketId)
    | JoinRoom(id: SocketId, room: RoomName, nickname: string)
    | Relay(id: SocketId, kind: Signal, payload: Payload, room: RoomName)
    | Disconnect(id: SocketId)

  function Init(): Server {
    Server(map[], map[], map[])
  }

  /** A connected socket: the adapter knows it and it carries a nickname. */
  predicate Live(st: Server, id: SocketId) {
    id in st.sids && id in st.nicknames
  }

  /** The members of `room`; a room the adapter does not hold has none. */
  function Members(st: Server, room: RoomName): set<SocketId> {
    if room in st.rooms then st.rooms[room] else {}
  }

  /** Recipients of `socket.to(room)` for socket `sender`, as socket.io 4
      computes them: the members of `room` minus every member of the room
      named by the sender's id. While that room holds the sender alone this
      is the room's other members. */
  function Audience(st: Server, sender: SocketId, room: RoomName): (a: set<SocketId>)
    ensures a <= Members(st, room)
    ensures sender in Members(st, sender) ==> sender !in a
    ensures Members(st, sender) == {sender} ==> a == Members(st, room) - {sender}
  {
    Members(st, room) - Members(st, sender)
  }

  /** The adapter's bookkeeping is consistent: the two tables describe the
      same membership relation, no room is empty, and every socket sits in
      its own id room, which it joined first. */
  ghost predicate Valid(st: Server) {
    && st.nicknames.Keys == st.sids.Keys
    && IdRoomsFirst(st)
    && NoEmptyRoom(st)
    && TablesAgree(st)
  }

  /** Each socket's list of rooms has no repeats and starts with its id room. */
  ghost predicate IdRoomsFirst(st: Server) {
    forall id | id in st.sids :: NoDup(st.sids[id]) && |st.sids[id]| > 0 && st.sids[id][0] == id
  }

  /** The adapter deletes a room when its last member leaves. */
  ghost predicate NoEmptyRoom(st: Server) {
    forall room | room in st.rooms :: st.rooms[room] != {}
  }

  /** `rooms` and `sids` describe the same membership relation. */
  ghost predicate TablesAgree(st: Server) {
    && (forall room, id | room in st.rooms && id in st.rooms[room] ::
          id in st.sids && room in st.sids[id])
    && (forall id, room | id in st.sids && room in st.sids[id] ::
          room in st.rooms && id in st.rooms[room])
  }

  /** No room holds more than two sockets. */
  ghost predicate Capped(st: Server) {
    forall room | room in st.rooms :: |st.rooms[room]| <= 2
  }

  /** A new socket: nickname "Anon", member of its own id room only. */
  function HandleConnection(st: Server, id: SocketId): (st': Server)
    requires id !in st.sids
    ensures Live(st', id) && st'.nicknames[id] == DefaultNickname
    ensures st'.sids[id] == [id]
    ensures Members(st', id) == Members(st, id) + {id}
    ensures forall room | room != id :: Members(st', room) == Members(st, room)
    ensures forall other | other != id && other in st.nicknames ::
              other in st'.nicknames && st'.nicknames[other] == st.nicknames[other]
  {
    Server(st.rooms[id := Members(st, id) + {id}],
           st.sids[id := [id]],
           st.nicknames[id := DefaultNickname])
  }

  /** `socket.join(room)`: the adapter adds the socket to the room, creating
      the room if needed, and records the room among the socket's rooms
      unless it is there already. */
  function AdapterAdd(st: Server, id: SocketId, room: RoomName): (st': Server)
    requires Live(st, id)
    ensures Live(st', id) && st'.nicknames == st.nicknames
    ensures st'.sids.Keys == st.sids.Keys
    ensures Members(st', room) == Members(st, room) + {id}
    ensures forall other | other != room :: Members(st', other) == Members(st, other)
    ensures room in st'.sids[id]
  {
    var joined := st.sids[id];
    Server(st.rooms[room := Members(st, room) + {id}],
           st.sids[id := if room in joined then joined else joined + [room]],
           st.nicknames)
  }

  /** `join_room`: a room that already holds two or more sockets is full and
      the request is rejected through the callback with nothing changed;
      otherwise the socket takes the nickname, joins, and the rest of the
      room is welcomed with it. */
  function HandleJoinRoom(st: Server, id: SocketId, room: RoomName, nickname: string)
    : (r: (Server, seq<Output>))
    requires Live(st, id)
    ensures |Members(st, room)| >= 2 ==> r == (st, [Ack(id, RoomFull)])
    ensures |Members(st, room)| < 2 ==>
      && Live(r.0, id)
      && r.0.nicknames == st.nicknames[id := nickname]
      && r.0.sids.Keys == st.sids.Keys
      && Members(r.0, room) == Members(st, room) + {id}
      && |Members(r.0, room)| <= 2
      && (forall other | other != room :: Members(r.0, other) == Members(st, other))
      && |r.1| == 1 && r.1[0].Emit? && r.1[0].event == Welcome(nickname)
      && r.1[0].to <= Members(st, room) + {id}
  {
    if room in st.rooms && |st.rooms[room]| > 1 then
      (st, [Ack(id, RoomFull)])
    else
      var joined := AdapterAdd(st.(nicknames := st.nicknames[id := nickname]), id, room);
      (joined, [Emit(Audience(joined, id, room), Welcome(nickname))])
  }

  /** `offer`, `answer` and `ice`: forward the payload to the room. The
      sender need not be a member of the room. */
  function HandleRelay(st: Server, id: SocketId, kind: Signal, payload: Payload, room: RoomName)
    : (outs: seq<Output>)
    ensures |outs| == 1 && outs[0].Emit?
    ensures outs[0].event == Forwarded(kind, payload)
    ensures outs[0].to <= Members(st, room)
  {
    [Emit(Audience(st, id, room), Forwarded(kind, payload))]
  }

  /** One `bye` broadcast per room in `joined`, in order. */
  function Byes(st: Server, id: SocketId, joined: seq<RoomName>): (outs: seq<Output>)
    requires Live(st, id)
    ensures |outs| == |joined|
    ensures forall i | 0 <= i < |outs| ::
              outs[i].Emit? && outs[i].event == Bye(st.nicknames[id])
              && outs[i].to <= Members(st, joined[i])
  {
    if joined == [] then []
    else [Emit(Audience(st, id, joined[0]), Bye(st.nicknames[id]))] + Byes(st, id, joined[1..])
  }

  /** `disconnecting`: every room of the socket, its own id room included,
      is told `bye` with the socket's nickname. */
  function HandleDisconnecting(st: Server, id: SocketId): (outs: seq<Output>)
    requires Live(st, id)
    ensures |outs| == |st.sids[id]|
    ensures forall i | 0 <= i < |outs| ::
              outs[i].Emit? && outs[i].event == Bye(st.nicknames[id])
              && outs[i].to <= Members(st, st.sids[id][i])
  {
    Byes(st, id, st.sids[id])
  }

  /** The adapter's cleanup after `disconnecting` (socket.io library code,
      not the server's): the socket leaves every room, a room it was the
      last member of is deleted, and the socket and its nickname are gone. */
  function AdapterRemove(st: Server, id: SocketId): (st': Server)
    ensures !Live(st', id) && id !in st'.sids && id !in st'.nicknames
    ensures st'.sids.Keys == st.sids.Keys - {id}
    ensures forall room :: Members(st', room) == Members(st, room) - {id}
  {
    Server(map room | room in st.rooms && st.rooms[room] != {id} :: st.rooms[room] - {id},
           st.sids - {id},
           st.nicknames - {id})
  }

  /** `publicRooms`: the room keys that are not socket ids. */
  function PublicRooms(st: Server): (names: set<RoomName>)
    ensures names <= st.rooms.Keys
    ensures forall id | id in st.sids :: id !in names
  {
    set room | room in st.rooms && room !in st.sids
  }

  /** One inbound event handled to completion. Requests carry string
      arguments, as the call page sends them. Events from sockets that are
      not connected are ignored, and so is a connection whose id is already
      in use as a socket id or room name, since socket.io issues fresh ids. */
  function Step(st: Server, req: Request): (r: (Server, seq<Output>))
    ensures req.Connect? && (req.id in st.sids || req.id in st.rooms) ==> r == (st, [])
    ensures !req.Connect? && !Live(st, req.id) ==> r == (st, [])
    ensures req.Relay? ==> r.0 == st
    ensures req.Disconnect? ==> !Live(r.0, req.id)
    ensures forall k | 0 <= k < |r.1| :: r.1[k].Ack? ==> req.JoinRoom? && r.1[k] == Ack(req.id, RoomFull)
  {
    match req
    case Connect(id) =>
      if id in st.sids || id in st.rooms then (st, []) else (HandleConnection(st, id), [])
    case JoinRoom(id, room, nickname) =>
      if Live(st, id) then HandleJoinRoom(st, id, room, nickname) else (st, [])
    case Relay(id, kind, payload, room) =>
      if Live(st, id) then (st, HandleRelay(st, id, kind, payload, room)) else (st, [])
    case Disconnect(id) =>
      if Live(st, id) then (AdapterRemove(st, id), HandleDisconnecting(st, id)) else (st, [])
  }

  /** A sequence of inbound events handled one after another. */
  function Run(st: Server, reqs: seq<Request>): (Server, seq<Output>)
    decreases |reqs|
  {
    if reqs == [] then (st, [])
    else
      var first := Step(st, reqs[0]);
      var rest := Run(first.0, reqs[1..]);
      (rest.0, first.1 + rest.1)
  }

  /** The events socket `t` receives from `outs`, in order. */
  function Received(outs: seq<Output>, t: SocketId): (evs: seq<Event>)
    ensures |evs| <= |outs|
  {
    if outs == [] then []
    else (if outs[0].Emit? && t in outs[0].to then [outs[0].event] else []) + Received(outs[1..], t)
  }
}
