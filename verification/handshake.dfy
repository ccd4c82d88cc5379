/** The two halves together: what a page emits becomes a request to the
    coordinator, and what the coordinator delivers becomes an input of the
    other page. Proves that the offer/answer exchange through a two-member
    room leaves the two pages with matching descriptions, and replays the
    join, relay and leave sequence of a typical call. */
module Handshake {
  import opened Common
  import C = Coordinator
  import CP = CoordinatorProofs
  import opened Agent

  /** The request a page's socket emit makes of the coordinator. Chat goes
      peer to peer and never reaches it; an emit tagged with no room is not
      mapped. */
  function ToRequest(id: SocketId, o: Outbound): (req: Option<C.Request>)
    ensures o.ChannelSend? ==> req.None?
    ensures req.Some? ==> req.value.id == id
  {
    match o
    case JoinRoom(room, nickname) => Some(C.JoinRoom(id, room, nickname))
    case SendOffer(offer, tag) => if tag.Some? then Some(C.Relay(id, C.OfferSignal, offer, tag.value)) else None
    case SendAnswer(answer, tag) => if tag.Some? then Some(C.Relay(id, C.AnswerSignal, answer, tag.value)) else None
    case SendIce(candidate, tag) => if tag.Some? then Some(C.Relay(id, C.IceSignal, candidate, tag.value)) else None
    case ChannelSend(_) => None
  }

  /** The input a delivered server event is to a page; `created` is the
      description the page's browser creates in reply, where it creates one. */
  function ToInput(e: C.Event, created: Payload): Input {
    match e
    case Welcome(nickname) => GotWelcome(nickname, created)
    case Offer(offer) => GotOffer(offer, created)
    case Answer(answer) => GotAnswer(answer)
    case Ice(candidate) => GotIce(candidate)
    case Bye(nickname) => GotBye(nickname)
  }

  /** The events `receiver` gets when the coordinator handles the emit `o`
      of socket `sender`. */
  function Deliver(st: C.Server, sender: SocketId, o: Outbound, receiver: SocketId): seq<C.Event> {
    var req := ToRequest(sender, o);
    if req.Some? then C.Received(C.Step(st, req.value).1, receiver) else []
  }

  /** In a room of exactly two sockets, each with a private id room, a relay
      from one reaches the other alone, unchanged. */
  lemma RelayBetweenPair(st: C.Server, a: SocketId, b: SocketId, room: RoomName, o: Outbound)
    requires C.Live(st, a) && a != b
    requires C.Members(st, room) == {a, b} && C.Members(st, a) == {a}
    requires IsRelayed(o) && o.tag == Some(room)
    ensures C.Step(st, ToRequest(a, o).value).0 == st
    ensures Deliver(st, a, o, a) == []
    ensures Deliver(st, a, o, b) == [C.Forwarded(SignalOf(o), Relayed(o))]
  {
    assert C.Audience(st, a, room) == {b};
  }

  predicate IsRelayed(o: Outbound) {
    o.SendOffer? || o.SendAnswer? || o.SendIce?
  }

  function SignalOf(o: Outbound): C.Signal
    requires IsRelayed(o)
  {
    if o.SendOffer? then C.OfferSignal else if o.SendAnswer? then C.AnswerSignal else C.IceSignal
  }

  function Relayed(o: Outbound): Payload
    requires IsRelayed(o)
  {
    if o.SendOffer? then o.offer else if o.SendAnswer? then o.answer else o.candidate
  }

  /** Two pages alone in a room: the welcomed one offers through the
      coordinator, which hands the offer to the other page alone; that page
      answers through the coordinator, which hands the answer back to the
      first page alone. */
  lemma OfferAnswerThroughRoom(
    st: C.Server, a: SocketId, b: SocketId, room: RoomName,
    first: Client, second: Client, nickname: string, offer: Payload, answer: Payload)
    requires C.Live(st, a) && C.Live(st, b) && a != b
    requires C.Members(st, room) == {a, b}
    requires C.Members(st, a) == {a} && C.Members(st, b) == {b}
    requires first.peer.Some? && second.peer.Some?
    requires first.roomName == Some(room) && second.roomName == Some(room)
    ensures var sent := OnWelcome(first, nickname, offer).emits;
      |sent| == 1 && Deliver(st, a, sent[0], a) == [] && Deliver(st, a, sent[0], b) == [C.Offer(offer)]
    ensures var sent := OnOffer(second, offer, answer).emits;
      |sent| == 1 && Deliver(st, b, sent[0], b) == [] && Deliver(st, b, sent[0], a) == [C.Answer(answer)]
  {
    RelayBetweenPair(st, a, b, room, SendOffer(offer, Some(room)));
    RelayBetweenPair(st, b, a, room, SendAnswer(answer, Some(room)));
  }

  /** The whole exchange through the room: the welcomed page's offer is
      relayed to the other page, which answers; the answer is relayed back
      and adopted. Afterwards each page's local description is the other's
      remote one, the offering page's channel is still connecting, and it
      sends nothing more. */
  lemma ExchangeMatchesDescriptions(
    st: C.Server, a: SocketId, b: SocketId, room: RoomName,
    first: Client, second: Client, nickname: string, offer: Payload, answer: Payload)
    requires C.Live(st, a) && C.Live(st, b) && a != b
    requires C.Members(st, room) == {a, b}
    requires C.Members(st, a) == {a} && C.Members(st, b) == {b}
    requires first.peer.Some? && second.peer.Some?
    requires first.roomName == Some(room) && second.roomName == Some(room)
    ensures var welcomed := OnWelcome(first, nickname, offer);
      var offered := Deliver(st, a, welcomed.emits[0], b);
      && |offered| == 1
      && var answered := Step(second, ToInput(offered[0], answer));
         && |answered.emits| == 1
         && var returned := Deliver(st, b, answered.emits[0], a);
            && |returned| == 1
            && var done := Step(welcomed.next, ToInput(returned[0], answer));
               && LocalDescription(done.next) == RemoteDescription(answered.next) == Some(offer)
               && RemoteDescription(done.next) == LocalDescription(answered.next) == Some(answer)
               && done.next.channel == Some(Connecting) && done.emits == []
  {
    OfferAnswerThroughRoom(st, a, b, room, first, second, nickname, offer, answer);
  }

  /** A second socket joining a one-member room is admitted and announced
      to the first member only, with its nickname. */
  lemma SecondJoinWelcomesFirst(st: C.Server, a: SocketId, b: SocketId, room: RoomName, nickname: string)
    requires C.Live(st, b) && a != b
    requires C.Members(st, room) == {a} && C.Members(st, b) == {b}
    ensures var (st', outs) := C.Step(st, C.JoinRoom(b, room, nickname));
      && C.Members(st', room) == {a, b}
      && st'.nicknames[b] == nickname
      && forall t :: C.Received(outs, t) == if t == a then [C.Welcome(nickname)] else []
  {
    var st' := C.Step(st, C.JoinRoom(b, room, nickname)).0;
    assert C.Members(st', b) == {b};
    assert C.Audience(st', b, room) == {a};
  }

  /** A socket that joined one room and leaves it says `bye`, with its
      nickname, to the other member alone, and leaves that member on its
      own in the room. */
  lemma LeaverSaysBye(st: C.Server, a: SocketId, b: SocketId, room: RoomName)
    requires C.Live(st, b) && a != b && room != b
    requires st.sids[b] == [b, room]
    requires C.Members(st, room) == {a, b} && C.Members(st, b) == {b}
    ensures var (st', outs) := C.Step(st, C.Disconnect(b));
      && C.Members(st', room) == {a}
      && forall t :: C.Received(outs, t) == if t == a then [C.Bye(st.nicknames[b])] else []
  {
    var outs := C.HandleDisconnecting(st, b);
    assert [b, room][1..] == [room] && [room][1..] == [];
    assert C.Byes(st, b, [room]) == [C.Emit(C.Audience(st, b, room), C.Bye(st.nicknames[b]))];
    assert outs == [C.Emit(C.Audience(st, b, b), C.Bye(st.nicknames[b])),
                    C.Emit(C.Audience(st, b, room), C.Bye(st.nicknames[b]))];
    assert C.Audience(st, b, b) == {};
    assert C.Audience(st, b, room) == {a};
  }

  /** The first socket into a new room is admitted silently; every other
      room and every other socket is as it was. */
  lemma FirstJoinIsSilent(st: C.Server, a: SocketId, room: RoomName, nickname: string)
    requires C.Live(st, a) && a in C.Members(st, a) && room !in st.rooms
    ensures var (st', outs) := C.Step(st, C.JoinRoom(a, room, nickname));
      && C.Members(st', room) == {a}
      && (forall t :: C.Received(outs, t) == [])
      && (forall r | r != room :: C.Members(st', r) == C.Members(st, r))
      && (forall s | s != a && C.Live(st, s) ::
            C.Live(st', s) && st'.sids[s] == st.sids[s] && st'.nicknames[s] == st.nicknames[s])
  {
    var st' := C.Step(st, C.JoinRoom(a, room, nickname)).0;
    assert C.Audience(st', a, room) == {};
  }

  /** The second socket's join, with what the later steps need to know about
      the adapter. */
  lemma SecondJoinFacts(st: C.Server, a: SocketId, b: SocketId, c: SocketId, d: SocketId,
                        room: RoomName, nickname: string)
    requires C.Live(st, b) && C.Live(st, c) && C.Live(st, d)
    requires a != b && a != d && b != c && b != d && room != b
    requires C.Members(st, room) == {a} && C.Members(st, b) == {b} && C.Members(st, d) == {d}
    requires st.sids[b] == [b]
    ensures var (st', outs) := C.Step(st, C.JoinRoom(b, room, nickname));
      && C.Members(st', room) == {a, b}
      && C.Members(st', b) == {b} && C.Members(st', d) == {d}
      && C.Live(st', b) && C.Live(st', c) && C.Live(st', d)
      && st'.sids[b] == [b, room] && st'.nicknames[b] == nickname
      && (forall t :: C.Received(outs, t) == if t == a then [C.Welcome(nickname)] else [])
  {
    SecondJoinWelcomesFirst(st, a, b, room, nickname);
    assert room !in st.sids[b];
    assert room != d by {
      assert a in C.Members(st, room);
    }
  }

  /** The leaver's departure, with what the rejoin needs to know. */
  lemma LeaveFacts(st: C.Server, a: SocketId, b: SocketId, d: SocketId, room: RoomName)
    requires C.Live(st, b) && C.Live(st, d)
    requires a != b && b != d && room != b
    requires C.Members(st, room) == {a, b} && C.Members(st, b) == {b} && C.Members(st, d) == {d}
    requires st.sids[b] == [b, room]
    ensures var (st', outs) := C.Step(st, C.Disconnect(b));
      && C.Members(st', room) == {a} && C.Members(st', d) == {d} && C.Live(st', d)
      && (forall t :: C.Received(outs, t) == if t == a then [C.Bye(st.nicknames[b])] else [])
  {
    LeaverSaysBye(st, a, b, room);
  }

  /** The second join is admitted and the third turned away. */
  lemma AdmitThenReject(st: C.Server, a: SocketId, b: SocketId, c: SocketId, d: SocketId, room: RoomName)
    requires C.Live(st, b) && C.Live(st, c) && C.Live(st, d)
    requires a != b && a != c && a != d && b != c && b != d && c != d
    requires room != b && st.sids[b] == [b]
    requires C.Members(st, room) == {a} && C.Members(st, b) == {b} && C.Members(st, d) == {d}
    ensures var (st3, outs) := C.Run(st, [C.JoinRoom(b, room, "bob"), C.JoinRoom(c, room, "carol")]);
      && C.Live(st3, b) && C.Live(st3, d)
      && C.Members(st3, room) == {a, b} && C.Members(st3, b) == {b} && C.Members(st3, d) == {d}
      && st3.sids[b] == [b, room] && st3.nicknames[b] == "bob"
      && C.Ack(c, C.RoomFull) in outs
      && forall t :: C.Received(outs, t) == if t == a then [C.Welcome("bob")] else []
  {
    var st2 := C.Step(st, C.JoinRoom(b, room, "bob")).0;
    var out2 := C.Step(st, C.JoinRoom(b, room, "bob")).1;
    SecondJoinFacts(st, a, b, c, d, room, "bob");
    var out3 := C.Step(st2, C.JoinRoom(c, room, "carol")).1;
    CP.FullRoomRejectsJoin(st2, c, room, "carol");
    RunCons(st2, C.JoinRoom(c, room, "carol"), []);
    RunCons(st, C.JoinRoom(b, room, "bob"), [C.JoinRoom(c, room, "carol")]);
    assert (out2 + (out3 + []))[|out2|] == C.Ack(c, C.RoomFull);
    forall t ensures C.Received(out2 + (out3 + []), t) == if t == a then [C.Welcome("bob")] else [] {
      CP.ReceivedAppend(out3, [], t);
      CP.ReceivedAppend(out2, out3 + [], t);
    }
  }

  /** The first join as the rest of the call needs it. */
  lemma OpeningJoinFacts(st: C.Server, a: SocketId, b: SocketId, c: SocketId, d: SocketId, room: RoomName)
    requires C.Live(st, a) && C.Live(st, b) && C.Live(st, c) && C.Live(st, d)
    requires a != b && a != c && a != d
    requires room !in st.rooms && st.sids[b] == [b]
    requires C.Members(st, a) == {a} && C.Members(st, b) == {b} && C.Members(st, d) == {d}
    ensures var (st1, outs) := C.Run(st, [C.JoinRoom(a, room, "alice")]);
      && C.Live(st1, b) && C.Live(st1, c) && C.Live(st1, d)
      && room != b && st1.sids[b] == [b]
      && C.Members(st1, room) == {a} && C.Members(st1, b) == {b} && C.Members(st1, d) == {d}
      && forall t :: C.Received(outs, t) == []
  {
    FirstJoinIsSilent(st, a, room, "alice");
    RunCons(st, C.JoinRoom(a, room, "alice"), []);
    assert [C.JoinRoom(a, room, "alice")] + [] == [C.JoinRoom(a, room, "alice")];
  }

  /** The first three requests of the call, two joins and a rejected one:
      where the adapter stands afterwards. */
  lemma OpeningJoins(st: C.Server, a: SocketId, b: SocketId, c: SocketId, d: SocketId, room: RoomName)
    requires C.Live(st, a) && C.Live(st, b) && C.Live(st, c) && C.Live(st, d)
    requires a != b && a != c && a != d && b != c && b != d && c != d
    requires room !in st.rooms && st.sids[b] == [b]
    requires C.Members(st, a) == {a} && C.Members(st, b) == {b} && C.Members(st, d) == {d}
    ensures var (st3, outs) := C.Run(st, [C.JoinRoom(a, room, "alice")]
                                         + [C.JoinRoom(b, room, "bob"), C.JoinRoom(c, room, "carol")]);
      && C.Live(st3, b) && C.Live(st3, d)
      && C.Members(st3, room) == {a, b} && C.Members(st3, b) == {b} && C.Members(st3, d) == {d}
      && st3.sids[b] == [b, room] && st3.nicknames[b] == "bob"
      && C.Ack(c, C.RoomFull) in outs
  {
    var first := [C.JoinRoom(a, room, "alice")];
    var rest := [C.JoinRoom(b, room, "bob"), C.JoinRoom(c, room, "carol")];
    OpeningJoinFacts(st, a, b, c, d, room);
    var st1 := C.Run(st, first).0;
    AdmitThenReject(st1, a, b, c, d, room);
    RunAppend(st, first, rest);
    var out23 := C.Run(st1, rest).1;
    assert C.Ack(c, C.RoomFull) in C.Run(st, first).1 + out23;
  }

  /** The first three requests of the call: only the first member hears
      anything, namely the second one arriving. */
  lemma OpeningJoinsHeard(st: C.Server, a: SocketId, b: SocketId, c: SocketId, d: SocketId, room: RoomName)
    requires C.Live(st, a) && C.Live(st, b) && C.Live(st, c) && C.Live(st, d)
    requires a != b && a != c && a != d && b != c && b != d && c != d
    requires room !in st.rooms && st.sids[b] == [b]
    requires C.Members(st, a) == {a} && C.Members(st, b) == {b} && C.Members(st, d) == {d}
    ensures var outs := C.Run(st, [C.JoinRoom(a, room, "alice")]
                                  + [C.JoinRoom(b, room, "bob"), C.JoinRoom(c, room, "carol")]).1;
      forall t :: C.Received(outs, t) == if t == a then [C.Welcome("bob")] else []
  {
    var first := [C.JoinRoom(a, room, "alice")];
    var rest := [C.JoinRoom(b, room, "bob"), C.JoinRoom(c, room, "carol")];
    OpeningJoinFacts(st, a, b, c, d, room);
    var st1 := C.Run(st, first).0;
    AdmitThenReject(st1, a, b, c, d, room);
    RunAppend(st, first, rest);
    HeardAfterSilence(C.Run(st, first).1, C.Run(st1, rest).1);
  }

  /** The last two requests of the call: the second member leaves and a
      newcomer joins. */
  lemma LeaveThenRejoin(st: C.Server, a: SocketId, b: SocketId, d: SocketId, room: RoomName)
    requires C.Live(st, b) && C.Live(st, d)
    requires a != b && b != d && a != d && room != b
    requires C.Members(st, room) == {a, b} && C.Members(st, b) == {b} && C.Members(st, d) == {d}
    requires st.sids[b] == [b, room] && st.nicknames[b] == "bob"
    ensures var (st5, outs) := C.Run(st, [C.Disconnect(b), C.JoinRoom(d, room, "dave")]);
      && C.Members(st5, room) == {a, d}
      && forall t :: C.Received(outs, t) == if t == a then [C.Bye("bob"), C.Welcome("dave")] else []
  {
    var st4 := C.Step(st, C.Disconnect(b)).0;
    var out4 := C.Step(st, C.Disconnect(b)).1;
    LeaveFacts(st, a, b, d, room);
    var out5 := C.Step(st4, C.JoinRoom(d, room, "dave")).1;
    SecondJoinWelcomesFirst(st4, a, d, room, "dave");
    RunCons(st4, C.JoinRoom(d, room, "dave"), []);
    RunCons(st, C.Disconnect(b), [C.JoinRoom(d, room, "dave")]);
    forall t ensures C.Received(out4 + (out5 + []), t) ==
                     if t == a then [C.Bye("bob"), C.Welcome("dave")] else [] {
      CP.ReceivedAppend(out5, [], t);
      CP.ReceivedAppend(out4, out5 + [], t);
    }
  }

  /** The requests of a typical call: `a`, `b` and `c` ask to join `room`
      as alice, bob and carol, then `b` disconnects and `d` joins as dave. */
  function Call(a: SocketId, b: SocketId, c: SocketId, d: SocketId, room: RoomName): seq<C.Request> {
    [C.JoinRoom(a, room, "alice")] + [C.JoinRoom(b, room, "bob"), C.JoinRoom(c, room, "carol")]
    + [C.Disconnect(b), C.JoinRoom(d, room, "dave")]
  }

  /** The join, reject, leave and rejoin sequence of a call, run through
      the coordinator: the third socket is turned away, and the room ends
      with the first member and the newcomer. */
  lemma JoinLeaveRejoin(
    st: C.Server, a: SocketId, b: SocketId, c: SocketId, d: SocketId, room: RoomName)
    requires C.Live(st, a) && C.Live(st, b) && C.Live(st, c) && C.Live(st, d)
    requires a != b && a != c && a != d && b != c && b != d && c != d
    requires room !in st.rooms && st.sids[b] == [b]
    requires C.Members(st, a) == {a} && C.Members(st, b) == {b} && C.Members(st, d) == {d}
    ensures var (last, outs) := C.Run(st, Call(a, b, c, d, room));
      && C.Members(last, room) == {a, d}
      && C.Ack(c, C.RoomFull) in outs
  {
    var opening := [C.JoinRoom(a, room, "alice")] + [C.JoinRoom(b, room, "bob"), C.JoinRoom(c, room, "carol")];
    var closing := [C.Disconnect(b), C.JoinRoom(d, room, "dave")];
    OpeningJoins(st, a, b, c, d, room);
    var st3 := C.Run(st, opening).0;
    assert room != b;
    LeaveThenRejoin(st3, a, b, d, room);
    RunAppend(st, opening, closing);
  }

  /** The same call from the sockets' side: the first member hears the
      second arrive, leave, and a newcomer arrive, each with the right
      nickname, and nobody else hears anything. */
  lemma JoinLeaveRejoinHeard(
    st: C.Server, a: SocketId, b: SocketId, c: SocketId, d: SocketId, room: RoomName)
    requires C.Live(st, a) && C.Live(st, b) && C.Live(st, c) && C.Live(st, d)
    requires a != b && a != c && a != d && b != c && b != d && c != d
    requires room !in st.rooms && st.sids[b] == [b]
    requires C.Members(st, a) == {a} && C.Members(st, b) == {b} && C.Members(st, d) == {d}
    ensures var outs := C.Run(st, Call(a, b, c, d, room)).1;
      forall t :: C.Received(outs, t) ==
        if t == a then [C.Welcome("bob"), C.Bye("bob"), C.Welcome("dave")] else []
  {
    var opening := [C.JoinRoom(a, room, "alice")] + [C.JoinRoom(b, room, "bob"), C.JoinRoom(c, room, "carol")];
    var closing := [C.Disconnect(b), C.JoinRoom(d, room, "dave")];
    OpeningJoins(st, a, b, c, d, room);
    OpeningJoinsHeard(st, a, b, c, d, room);
    var st3 := C.Run(st, opening).0;
    assert room != b;
    LeaveThenRejoin(st3, a, b, d, room);
    RunAppend(st, opening, closing);
    HeardAppend(C.Run(st, opening).1, C.Run(st3, closing).1, a,
      [C.Welcome("bob")], [C.Bye("bob"), C.Welcome("dave")]);
  }

  /** Outputs that reach nobody change nothing about who hears what next. */
  lemma HeardAfterSilence(x: seq<C.Output>, y: seq<C.Output>)
    requires forall t :: C.Received(x, t) == []
    ensures forall t :: C.Received(x + y, t) == C.Received(y, t)
  {
    forall t ensures C.Received(x + y, t) == C.Received(y, t) {
      CP.ReceivedAppend(x, y, t);
    }
  }

  /** Who hears what over two stretches of outputs. */
  lemma HeardAppend(x: seq<C.Output>, y: seq<C.Output>, a: SocketId, ex: seq<C.Event>, ey: seq<C.Event>)
    requires forall t :: C.Received(x, t) == if t == a then ex else []
    requires forall t :: C.Received(y, t) == if t == a then ey else []
    ensures forall t :: C.Received(x + y, t) == if t == a then ex + ey else []
  {
    forall t ensures C.Received(x + y, t) == if t == a then ex + ey else [] {
      CP.ReceivedAppend(x, y, t);
    }
  }

  /** The coordinator's run is the generic fold of its step. */
  lemma {:induction false} RunIsFold(st: C.Server, reqs: seq<C.Request>)
    ensures C.Run(st, reqs) == Fold(C.Step, st, reqs)
    decreases |reqs|
  {
    if reqs != [] {
      RunIsFold(C.Step(st, reqs[0]).0, reqs[1..]);
    }
  }

  /** A run of two stretches of requests: the second stretch starts from
      where the first left off, and the outputs are concatenated. */
  lemma RunAppend(st: C.Server, x: seq<C.Request>, y: seq<C.Request>)
    ensures C.Run(st, x + y) == (C.Run(C.Run(st, x).0, y).0, C.Run(st, x).1 + C.Run(C.Run(st, x).0, y).1)
  {
    RunIsFold(st, x + y);
    RunIsFold(st, x);
    RunIsFold(C.Run(st, x).0, y);
    FoldAppend(C.Step, st, x, y);
  }

  /** A run is its first step followed by the run of the rest. */
  lemma RunCons(st: C.Server, req: C.Request, rest: seq<C.Request>)
    ensures C.Run(st, [req] + rest) ==
      (C.Run(C.Step(st, req).0, rest).0, C.Step(st, req).1 + C.Run(C.Step(st, req).0, rest).1)
  {
    assert ([req] + rest)[1..] == rest;
  }
}
