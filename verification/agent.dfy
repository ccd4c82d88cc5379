/** The browser side of the call page: the socket handlers `welcome`,
    `offer`, `answer`, `ice` and `bye`, the chat form, the welcome form and
    the local ICE candidate handler. The peer connection is opaque: the
    model records the calls made on it, in order, and reads the current
    descriptions off that record. JSON encoding is opaque as well: a chat
    payload travels as the object it was built from. */
module Agent {
  import opened Common

  const ArrivedSuffix: string := " arrived! \U{1F638}"
  const LeftSuffix: string := " left! \U{1F63F}"
  const YouPrefix: string := "You : "
  const Separator: string := " : "

  /** How a template literal renders a missing field. */
  const UndefinedText: string := "undefined"

  /** The object `{ name, message }` sent on the data channel. A name that
      was never set is dropped by `JSON.stringify`, hence optional. */
  datatype ChatPayload = ChatPayload(name: Option<string>, message: string)

  /** The `readyState` of the data channel the page holds. `send` throws
      unless it is `Open`. */
  datatype ChannelState = Connecting | Open | Closed

  /** The browser moves a channel's `readyState` forward only. */
  predicate Advances(from: ChannelState, to: ChannelState) {
    || (from == Connecting && to != Connecting)
    || (from == Open && to == Closed)
  }

  /** One `li` of the chat list; `isYou` is the "you" class. */
  datatype Line = Line(text: string, isYou: bool)

  /** The calls the page makes on its `RTCPeerConnection`. */
  datatype PeerCall =
    | AddTracks
    | CreateDataChannel
    | ListenDataChannel
    | SetLocal(description: Payload)
    | SetRemote(description: Payload)
    | AddCandidate(candidate: Payload)

  /** What the page sends: socket emits tagged with the room name as it
      stands (unset before the welcome form), and data-channel sends. */
  datatype Outbound =
    | JoinRoom(room: RoomName, nickname: string)
    | SendOffer(offer: Payload, tag: Option<RoomName>)
    | SendAnswer(answer: Payload, tag: Option<RoomName>)
    | SendIce(candidate: Payload, tag: Option<RoomName>)
    | ChannelSend(chat: ChatPayload)

  /** The page's state: `roomName`, `userName`, the peer connection (absent
      until the welcome form creates it), the state of `myDataChannel`
      (absent until set), whether the peer's video is shown, the chat list
      and the chat input. */
  datatype Client = Client(
    roomName: Option<RoomName>,
    userName: Option<string>,
    peer: Option<seq<PeerCall>>,
    channel: Option<ChannelState>,
    peerVisible: bool,
    log: seq<Line>,
    draft: string)

  /** A handler's effect: the next state and what it sent, in order. */
  datatype Reaction = Reaction(next: Client, emits: seq<Outbound>)

  /** Everything that can happen to the page. `offer` and `answer` in the
      socket events carry the description the browser creates in reply;
      `captured` says whether the camera and microphone were granted. */
  datatype Input =
    | Submit(room: RoomName, nickname: string, captured: bool)
    | Type(text: string)
    | SendMessage
    | GotWelcome(nickname: string, offer: Payload)
    | GotOffer(offer: Payload, answer: Payload)
    | GotAnswer(answer: Payload)
    | GotIce(candidate: Payload)
    | GotBye(nickname: string)
    | FoundCandidate(candidate: Payload)
    | ChannelOpened
    | ChannelChanged(state: ChannelState)
    | GotChat(chat: ChatPayload)

  function Init(): Client {
    Client(None, None, None, None, false, [], "")
  }

  /** The description most recently passed to `setLocalDescription`. */
  function LastLocal(calls: seq<PeerCall>): (d: Option<Payload>)
    ensures d.Some? ==> exists i | 0 <= i < |calls| :: calls[i] == SetLocal(d.value)
    ensures d.None? <==> forall i | 0 <= i < |calls| :: !calls[i].SetLocal?
  {
    if calls == [] then None
    else if calls[|calls| - 1].SetLocal? then Some(calls[|calls| - 1].description)
    else LastLocal(calls[..|calls| - 1])
  }

  /** The description most recently passed to `setRemoteDescription`. */
  function LastRemote(calls: seq<PeerCall>): Option<Payload> {
    if calls == [] then None
    else if calls[|calls| - 1].SetRemote? then Some(calls[|calls| - 1].description)
    else LastRemote(calls[..|calls| - 1])
  }

  /** The candidates handed to `addIceCandidate`, in order. */
  function Candidates(calls: seq<PeerCall>): (cs: seq<Payload>)
    ensures |cs| <= |calls|
  {
    if calls == [] then []
    else Candidates(calls[..|calls| - 1])
         + (if calls[|calls| - 1].AddCandidate? then [calls[|calls| - 1].candidate] else [])
  }

  function LocalDescription(c: Client): Option<Payload> {
    if c.peer.Some? then LastLocal(c.peer.value) else None
  }

  function RemoteDescription(c: Client): Option<Payload> {
    if c.peer.Some? then LastRemote(c.peer.value) else None
  }

  /** The chat line a received payload becomes: the sender's name, or
      "undefined" when the payload carries none, then the message. */
  function Render(chat: ChatPayload): (line: string)
    ensures var name := if chat.name.Some? then chat.name.value else UndefinedText;
      && |line| == |name| + |Separator| + |chat.message|
      && line[..|name|] == name
      && line[|name|..|name| + |Separator|] == Separator
      && line[|name| + |Separator|..] == chat.message
  {
    (if chat.name.Some? then chat.name.value else UndefinedText) + Separator + chat.message
  }

  /** The welcome form: a fresh peer connection carrying the local tracks,
      `join_room` with the typed room and nickname, and both remembered.
      When capture failed the stream is unset, so the connection is made
      but adding the tracks throws, and nothing after it happens. */
  function OnSubmit(c: Client, room: RoomName, nickname: string, captured: bool): (r: Reaction)
    ensures r.next.peer.Some?
    ensures LocalDescription(r.next) == None && RemoteDescription(r.next) == None
    ensures Candidates(r.next.peer.value) == []
    ensures captured ==>
      && r.emits == [JoinRoom(room, nickname)]
      && r.next.roomName == Some(room) && r.next.userName == Some(nickname)
    ensures !captured ==>
      && r.emits == []
      && r.next.roomName == c.roomName && r.next.userName == c.userName
    ensures r.next.channel == c.channel && r.next.log == c.log
  {
    if captured then
      Reaction(c.(roomName := Some(room), userName := Some(nickname), peer := Some([AddTracks])),
               [JoinRoom(room, nickname)])
    else
      Reaction(c.(peer := Some([])), [])
  }

  /** A chat submission completes: there is no data channel, so nothing is
      sent, or there is an open one. On a channel that is still connecting
      or already closed, `send` throws before anything else happens. */
  predicate CanSubmit(c: Client) {
    c.channel.None? || c.channel == Some(Open)
  }

  /** The chat form: the text goes out on the data channel when one is
      open; whenever the submission completes it is shown locally as the
      user's own and the input is cleared. */
  function OnSendMessage(c: Client): (r: Reaction)
    ensures c.channel == Some(Open) ==> r.emits == [ChannelSend(ChatPayload(c.userName, c.draft))]
    ensures c.channel != Some(Open) ==> r.emits == []
    ensures CanSubmit(c) ==>
      && r.next.log == c.log + [Line(YouPrefix + c.draft, true)]
      && r.next.draft == ""
      && r.next.(log := c.log, draft := c.draft) == c
    ensures !CanSubmit(c) ==> r.next == c
  {
    if c.channel.None? then
      Reaction(c.(log := c.log + [Line(YouPrefix + c.draft, true)], draft := ""), [])
    else if c.channel.value == Open then
      Reaction(c.(log := c.log + [Line(YouPrefix + c.draft, true)], draft := ""),
               [ChannelSend(ChatPayload(c.userName, c.draft))])
    else
      Reaction(c, [])
  }

  /** `welcome`: the page becomes the initiator. It opens the chat channel,
      adopts its offer as local description, sends the offer to its room
      and announces the arrival. Without a peer connection the first call
      throws and nothing happens. */
  function OnWelcome(c: Client, nickname: string, offer: Payload): (r: Reaction)
    ensures c.peer.None? ==> r == Reaction(c, [])
    ensures c.peer.Some? ==>
      && r.emits == [SendOffer(offer, c.roomName)]
      && r.next.channel == Some(Connecting)
      && LocalDescription(r.next) == Some(offer)
      && RemoteDescription(r.next) == RemoteDescription(c)
      && r.next.log == c.log + [Line(nickname + ArrivedSuffix, false)]
      && c.peer.value <= r.next.peer.value
      && r.next.(peer := c.peer, channel := c.channel, log := c.log) == c
  {
    match c.peer
    case None => Reaction(c, [])
    case Some(calls) =>
      var calls' := calls + [CreateDataChannel, SetLocal(offer)];
      assert calls'[..|calls'| - 1] == calls + [CreateDataChannel];
      assert (calls + [CreateDataChannel])[..|calls|] == calls;
      assert LastRemote(calls + [CreateDataChannel]) == LastRemote(calls);
      assert LastRemote(calls') == LastRemote(calls);
      Reaction(c.(peer := Some(calls'),
                  channel := Some(Connecting),
                  log := c.log + [Line(nickname + ArrivedSuffix, false)]),
               [SendOffer(offer, c.roomName)])
  }

  /** `offer`: the page becomes the responder. It starts listening for the
      peer's data channel, adopts the offer as remote description, then its
      answer as local description, and sends the answer to its room. */
  function OnOffer(c: Client, offer: Payload, answer: Payload): (r: Reaction)
    ensures c.peer.None? ==> r == Reaction(c, [])
    ensures c.peer.Some? ==>
      && r.emits == [SendAnswer(answer, c.roomName)]
      && RemoteDescription(r.next) == Some(offer)
      && LocalDescription(r.next) == Some(answer)
      && c.peer.value <= r.next.peer.value
      && ListenDataChannel in r.next.peer.value
      && (exists i, j | |c.peer.value| <= i < j < |r.next.peer.value| ::
            r.next.peer.value[i] == SetRemote(offer) && r.next.peer.value[j] == SetLocal(answer))
      && r.next.(peer := c.peer) == c
  {
    match c.peer
    case None => Reaction(c, [])
    case Some(calls) =>
      var calls' := calls + [ListenDataChannel, SetRemote(offer), SetLocal(answer)];
      assert calls'[|calls| + 1] == SetRemote(offer) && calls'[|calls| + 2] == SetLocal(answer);
      assert calls'[..|calls'| - 1] == calls + [ListenDataChannel, SetRemote(offer)];
      assert LastRemote(calls + [ListenDataChannel, SetRemote(offer)]) == Some(offer);
      Reaction(c.(peer := Some(calls')), [SendAnswer(answer, c.roomName)])
  }

  /** `answer`: adopted as remote description; nothing is sent. */
  function OnAnswer(c: Client, answer: Payload): (r: Reaction)
    ensures r.emits == []
    ensures c.peer.Some? ==>
      && RemoteDescription(r.next) == Some(answer)
      && LocalDescription(r.next) == LocalDescription(c)
      && c.peer.value <= r.next.peer.value
    ensures r.next.(peer := c.peer) == c
  {
    match c.peer
    case None => Reaction(c, [])
    case Some(calls) => Reaction(c.(peer := Some(calls + [SetRemote(answer)])), [])
  }

  /** `ice`: the peer's video is shown and the candidate is added whatever
      the negotiation has reached; nothing is sent. The video is shown even
      when the missing peer connection makes the handler throw. */
  function OnIce(c: Client, candidate: Payload): (r: Reaction)
    ensures r.emits == []
    ensures r.next.peerVisible
    ensures c.peer.Some? ==>
      && r.next.peer.Some?
      && Candidates(r.next.peer.value) == Candidates(c.peer.value) + [candidate]
      && LocalDescription(r.next) == LocalDescription(c)
      && RemoteDescription(r.next) == RemoteDescription(c)
    ensures r.next.(peer := c.peer, peerVisible := c.peerVisible) == c
  {
    match c.peer
    case None => Reaction(c.(peerVisible := true), [])
    case Some(calls) =>
      var calls' := calls + [AddCandidate(candidate)];
      assert calls'[..|calls'| - 1] == calls;
      Reaction(c.(peerVisible := true, peer := Some(calls')), [])
  }

  /** `bye`: the departure is announced and the peer's video hidden; the
      peer connection and the data channel are kept as they are. */
  function OnBye(c: Client, nickname: string): (r: Reaction)
    ensures r.emits == []
    ensures r.next.log == c.log + [Line(nickname + LeftSuffix, false)]
    ensures !r.next.peerVisible
    ensures r.next.peer == c.peer && r.next.channel == c.channel
    ensures r.next.(log := c.log, peerVisible := c.peerVisible) == c
  {
    Reaction(c.(log := c.log + [Line(nickname + LeftSuffix, false)], peerVisible := false), [])
  }

  /** `handleIce`: each locally found candidate goes to the room at once. */
  function OnFoundCandidate(c: Client, candidate: Payload): (r: Reaction)
    ensures r.next == c
    ensures r.emits == [SendIce(candidate, c.roomName)]
  {
    Reaction(c, [SendIce(candidate, c.roomName)])
  }

  /** The peer-opened channel reaches the listener registered by `offer`.
      The browser hands it over already open. */
  function OnChannelOpened(c: Client): (r: Reaction)
    ensures r.next.channel == Some(Open) && r.emits == []
    ensures r.next.(channel := c.channel) == c
  {
    Reaction(c.(channel := Some(Open)), [])
  }

  /** The browser moves the held channel's `readyState`: open once the
      peers connect, closed when either side goes away. */
  function OnChannelState(c: Client, state: ChannelState): (r: Reaction)
    ensures r.next.channel == Some(state) && r.emits == []
    ensures r.next.(channel := c.channel) == c
  {
    Reaction(c.(channel := Some(state)), [])
  }

  /** A chat message from the peer is shown as `name : message`. */
  function OnChat(c: Client, chat: ChatPayload): (r: Reaction)
    ensures r.emits == []
    ensures r.next.log == c.log + [Line(Render(chat), false)]
    ensures r.next.(log := c.log) == c
  {
    Reaction(c.(log := c.log + [Line(Render(chat), false)]), [])
  }

  /** One input handled to completion. Inputs with no possible source are
      ignored: a local candidate before any peer connection exists, a
      peer-opened channel nobody listens for, a `readyState` change of no
      channel or against the order the browser follows, and chat that
      arrives on no open channel. */
  function Step(c: Client, input: Input): (r: Reaction)
    ensures input.Type? ==> r == Reaction(c.(draft := input.text), [])
    ensures input.FoundCandidate? && c.peer.None? ==> r == Reaction(c, [])
    ensures input.ChannelOpened? && !(c.peer.Some? && ListenDataChannel in c.peer.value) ==>
              r == Reaction(c, [])
    ensures input.ChannelChanged? && !(c.channel.Some? && Advances(c.channel.value, input.state)) ==>
              r == Reaction(c, [])
    ensures input.GotChat? && c.channel != Some(Open) ==> r == Reaction(c, [])
    ensures forall k | 0 <= k < |r.emits| :: r.emits[k].JoinRoom? ==> input.Submit?
    ensures forall k | 0 <= k < |r.emits| :: r.emits[k].ChannelSend? ==> input.SendMessage?
  {
    match input
    case Submit(room, nickname, captured) => OnSubmit(c, room, nickname, captured)
    case Type(text) => Reaction(c.(draft := text), [])
    case SendMessage => OnSendMessage(c)
    case GotWelcome(nickname, offer) => OnWelcome(c, nickname, offer)
    case GotOffer(offer, answer) => OnOffer(c, offer, answer)
    case GotAnswer(answer) => OnAnswer(c, answer)
    case GotIce(candidate) => OnIce(c, candidate)
    case GotBye(nickname) => OnBye(c, nickname)
    case FoundCandidate(candidate) =>
      if c.peer.Some? then OnFoundCandidate(c, candidate) else Reaction(c, [])
    case ChannelOpened =>
      if c.peer.Some? && ListenDataChannel in c.peer.value then OnChannelOpened(c) else Reaction(c, [])
    case ChannelChanged(state) =>
      if c.channel.Some? && Advances(c.channel.value, state) then OnChannelState(c, state)
      else Reaction(c, [])
    case GotChat(chat) =>
      if c.channel == Some(Open) then OnChat(c, chat) else Reaction(c, [])
  }

  /** Inputs handled one after another. */
  function Run(c: Client, inputs: seq<Input>): Reaction
    decreases |inputs|
  {
    if inputs == [] then Reaction(c, [])
    else
      var first := Step(c, inputs[0]);
      var rest := Run(first.next, inputs[1..]);
      Reaction(rest.next, first.emits + rest.emits)
  }
}
