# Two-party call signalling: room coordinator and call page

This project models, in Dafny, the two halves of a small WebRTC video-call
application. It also proves properties of each half and of the two halves
working together.

- **The room coordinator** is the socket.io `connection` handler of
  `src/server.js`. It covers `join_room` with its two-member cap, the
  verbatim `offer` / `answer` / `ice` relays, the `bye` broadcast on
  `disconnecting`, and `publicRooms`. Each handler runs to completion, so
  it is modelled as a pure transition. A handler takes the adapter state,
  meaning socket.io's `rooms` and `sids` tables plus the nickname stored on
  each socket. It returns the next state and the broadcasts it made
  (`Coordinator.Output`). `socket.to(room)` is modelled as socket.io 4
  defines it: the members of `room` minus the members of the room named
  by the sender's id (`Coordinator.Audience`). Earlier socket.io versions
  left out only the sender. Once the sender's id room is
  private, that is "every other member of the room"
  (`CoordinatorProofs.SenderNeverInAudience`).
- **The call page** is `src/public/app.js`. It covers the socket handlers
  `welcome`, `offer`, `answer`, `ice` and `bye`, the chat form, the
  welcome form, the local `icecandidate` handler, and the rendering of
  received chat.
  - The peer connection is opaque. The model records the calls the page
    makes on it, in order (`Agent.PeerCall`). The local and remote
    descriptions are read off that record.
  - Each handler returns the page's next state and what it sent, in order
    (`Agent.Reaction`).
- **The pair together** is module `Handshake`. A page's emits become
  coordinator requests, and the coordinator's broadcasts become page
  inputs. This module proves two things. First, an offer and answer
  relayed through a two-member room leave the two pages with matching
  descriptions. Second, it replays a typical call through the
  coordinator: join, reject, leave, rejoin.

Modules: `Common` (shared types, counting, a generic fold), `Coordinator`
and `CoordinatorProofs`, `Agent` and `AgentProofs`, and `Handshake`.

## Notes on the code's behaviour

- `publicRooms` lists the room keys that are not socket ids
  (`src/server.js:28-31`). On a consistent adapter this is exactly the
  rooms that do not contain the socket named like them
  (`CoordinatorProofs.PublicRoomsLackTheirNamesake`). The function is
  never called by the server.
- `join_room` never leaves the socket's previous room. A socket can sit in
  several rooms, and on `disconnecting` it says `bye` in every one of them
  (`src/server.js:42-46`, `57-61`).
- The `disconnecting` handler only broadcasts. Removing the socket from its
  rooms is socket.io's own cleanup afterwards, modelled as an explicit
  assumption (`Coordinator.AdapterRemove`).
- After the second member of a room leaves, the first member is still
  there. A newcomer is therefore admitted as the second member: the first
  member receives `welcome` with the newcomer's nickname and the newcomer
  receives nothing (`Handshake.JoinLeaveRejoinHeard`).
- A relay reaches every member of the named room outside the sender's id
  room. The sender need not be a member, so with the cap a relay can reach
  two sockets (`src/server.js:48-56`).
- Nothing checks that a room name or nickname is non-empty, and the model
  accepts any string.
- `send` on a data channel that is still connecting or already closed
  throws before the line is shown or the input cleared
  (`src/public/app.js:147-153`). The message is then neither sent nor
  shown, and stays in the input (`AgentProofs.ChatBeforeChannelOpensIsKept`).
- When media capture fails, `getMedia` swallows the error and the stream
  stays unset. `makeConnection` then throws after creating the peer
  connection, so no `join_room` is sent and the names are not stored
  (`src/public/app.js:59-69`, `210-228`, `133`).
- Received chat goes through an unguarded `JSON.parse`, which throws on a
  malformed payload. This path is left out (see below).

## Model

| member | source | states |
|---|---|---|
| `Coordinator.HandleConnection` | src/server.js:34-35 | A new socket is connected with nickname "Anon" and joined to its own id room. Every other room and nickname is as before. |
| `Coordinator.HandleJoinRoom` | src/server.js:37-47 | A room already holding two or more sockets rejects the join: state unchanged, and the callback gets "2 people max. allowed per room.". Otherwise the nickname is set, the joiner is added, the room holds at most two, and no other room changes. Exactly one `welcome` carrying the new nickname goes out, to the room as it was plus the joiner at most. |
| `Coordinator.HandleRelay` | src/server.js:48-56 | Exactly one broadcast, of an event of the same kind carrying the payload unchanged, to members of the named room only. |
| `Coordinator.Byes` | src/server.js:58-60 | One `bye` per room, in the socket's join order. Each carries the leaver's nickname and goes only to members of that room. |
| `Coordinator.HandleDisconnecting` | src/server.js:57-61 | One `bye` broadcast per room of the socket, its id room included, in join order. Each carries the leaver's nickname and goes only to members of that room. |
| `Coordinator.AdapterRemove` | src/server.js:57-61 | Assumed library cleanup: the socket leaves every room, and its nickname and entry are gone. |
| `Coordinator.PublicRooms` | src/server.js:19-32 | Only room keys are listed, and never a connected socket's id. |
| `Coordinator.Audience` | src/server.js:45 | `socket.to(room)` addresses only members of the room, never the sender while it sits in its id room, and with a private id room exactly the other members. |
| `Coordinator.AdapterAdd` | src/server.js:44 | `socket.join(room)` adds the socket to the room and to its own room list, and changes no other room and no nickname. |
| `Coordinator.Step` | src/server.js:34-61 | Requests from sockets that are not connected, and connections under an id already in use, change nothing and emit nothing. A relay never changes the state, a disconnected socket is gone, and the only acknowledgement is the rejection of the requester's own join. |
| `CoordinatorProofs.SenderNeverInAudience` | src/server.js:44-45 | `socket.to(room)` never reaches the sender. With a private id room, it reaches exactly the other members of the room. |
| `CoordinatorProofs.WelcomeGoesToEarlierMembers` | src/server.js:42-46 | An admitted join delivers `welcome(nickname)` exactly once to each earlier member of the room outside the joiner's id room, and nothing to anybody else. The joiner never hears its own welcome. |
| `CoordinatorProofs.FullRoomRejectsJoin` | src/server.js:38-41 | A join to a room of two or more leaves the whole state and every nickname unchanged, reaches no socket, and acknowledges the caller alone with the rejection text. |
| `CoordinatorProofs.RelayReachesOnlyRoommates` | src/server.js:48-56 | A relay leaves the state unchanged. It delivers the payload unchanged to each room member outside the sender's id room, once, and to nobody else; the sender hears nothing. The sender need not be a member. |
| `CoordinatorProofs.ByesReceived` | src/server.js:58-60 | The `bye` events a socket receives all carry the leaver's nickname, one per room of the list in which it is addressed. |
| `CoordinatorProofs.ByeReachesRoommates` | src/server.js:57-61 | On `disconnecting`, everything a socket hears is `bye(nickname)`. It hears something exactly when it is a member of one of the leaver's rooms outside the leaver's id room. The leaver hears nothing. |
| `CoordinatorProofs.NeverJoinedSaysNoBye` | src/server.js:57-61 | A socket whose only room is its id room tells nobody anything when it leaves. |
| `CoordinatorProofs.SecondDisconnectIsSilent` | src/server.js:57-61 | Handling the same disconnect twice: the second changes nothing and broadcasts nothing. |
| `CoordinatorProofs.ConnectionKeepsInvariants` | src/server.js:34-35 | A fresh connection keeps the adapter consistent and every room at two or fewer. |
| `CoordinatorProofs.JoinKeepsMembershipAgreement` | src/server.js:42-44 | After an admitted join, `rooms` and `sids` still describe the same membership. |
| `CoordinatorProofs.JoinKeepsIdRooms` | src/server.js:42-44 | After an admitted join, each socket's room list is still duplicate-free and starts with its id room. Nicknames and sockets still match. |
| `CoordinatorProofs.JoinKeepsRoomsSmall` | src/server.js:38-44 | After an admitted join, no room is empty and none holds more than two. |
| `CoordinatorProofs.JoinKeepsInvariants` | src/server.js:37-47 | `join_room`, admitted or rejected, keeps the adapter consistent and every room at two or fewer. |
| `CoordinatorProofs.RemoveKeepsMembershipAgreement` | src/server.js:57-61 | After the disconnect cleanup, `rooms` and `sids` still describe the same membership. |
| `CoordinatorProofs.RemoveKeepsRoomsSmall` | src/server.js:57-61 | After the cleanup, no room is empty and none holds more than two. |
| `CoordinatorProofs.RemoveKeepsIdRooms` | src/server.js:57-61 | After the cleanup, every remaining socket's room list still starts with its id room. |
| `CoordinatorProofs.RemoveKeepsInvariants` | src/server.js:57-61 | A disconnect keeps the adapter consistent and every room at two or fewer. |
| `CoordinatorProofs.StepKeepsInvariants` | src/server.js:34-61 | Every inbound event keeps the adapter consistent and the two-member cap. |
| `CoordinatorProofs.RunKeepsInvariants` | src/server.js:34-61 | Any sequence of inbound events keeps the adapter consistent and the cap. |
| `CoordinatorProofs.ReachableRoomsHoldAtMostTwo` | src/server.js:38-44 | From the empty adapter, no sequence of connections, joins with a string room name, relays and disconnects ever puts three sockets in one room. |
| `CoordinatorProofs.OnlyAdmittedJoinRenames` | src/server.js:35-43 | A connected socket's nickname changes only through its own admitted `join_room`, and then becomes the requested name. |
| `CoordinatorProofs.PublicRoomsLackTheirNamesake` | src/server.js:19-32 | On a consistent adapter, a room is listed exactly when it exists and does not contain the socket whose id is its name. |
| `Agent.OnSubmit` | src/public/app.js:130-141 | A fresh peer connection with no descriptions and no candidates. With media captured, exactly one `join_room` with the typed room and nickname is sent, and both are remembered. When capture failed, nothing is sent and the names stay as they were. The chat list and channel are untouched. |
| `Agent.OnSendMessage` | src/public/app.js:143-154 | With an open data channel, exactly one payload `{name: userName, message: text}` goes out; otherwise none. With no channel or an open one, the list gains `"You : " + text` marked as the user's own, the input is cleared, and nothing else changes. On a channel that is connecting or closed the page is left exactly as it was. |
| `Agent.OnWelcome` | src/public/app.js:158-171 | With a peer connection: a new data channel, still connecting, is held afterwards, the offer is the local description, and the remote description is unchanged. Exactly one `offer` goes out, tagged with the current room name, and `"<nick> arrived! 😸"` is appended. Only calls are added to the connection. Without a peer connection nothing happens. |
| `Agent.OnOffer` | src/public/app.js:173-187 | The remote description becomes the offer and the local one the answer, with the remote set strictly before the local. The page listens for the peer's channel, and exactly one `answer` goes out, tagged with the room name. Nothing else changes. |
| `Agent.OnAnswer` | src/public/app.js:189-192 | Only the remote description changes: it becomes the answer, and the local one is kept. Nothing is sent. |
| `Agent.OnIce` | src/public/app.js:194-200 | The peer video becomes visible. The candidate is appended to the connection's candidates whatever the descriptions are, and both descriptions are kept. Nothing is sent. |
| `Agent.OnBye` | src/public/app.js:202-206 | `"<nick> left! 😿"` is appended and the peer video hidden. The peer connection and data channel are exactly as before, and nothing is sent. |
| `Agent.OnFoundCandidate` | src/public/app.js:231-234 | Each locally found candidate yields exactly one `ice` emit, tagged with the current room name, and changes no state. |
| `Agent.OnChannelOpened` | src/public/app.js:174-176 | The peer-opened channel becomes the page's data channel, open, and nothing else changes. |
| `Agent.OnChannelState` | src/public/app.js:147-148 | The held channel's ready state becomes the one the browser reports, and nothing else changes. |
| `Agent.Render` | src/public/app.js:161-162 | A received line is the sender's name, or "undefined" when the payload has none, then " : ", then the message text. |
| `Agent.Step` | src/public/app.js:143-234 | Inputs with no possible source leave the page unchanged: a local candidate with no peer connection, a peer channel nobody listens for, a ready-state change that does not move forward, chat on no open channel. Typing only changes the input. Only the welcome form emits `join_room`, and only a chat submission sends on the channel. |
| `Agent.OnChat` | src/public/app.js:160-163 | A received payload appends one line, not marked as the user's own, and changes nothing else. |
| `AgentProofs.StepKeepsCall` | src/public/app.js:143-234 | Once a peer connection exists, every input leaves one in place. Every input except the welcome form keeps its calls as a prefix and keeps the room and user names. No input drops the data channel or a chat line. Every signalling emit carries the room name held before the input. |
| `AgentProofs.StepCounts` | src/public/app.js:143-234 | Per input: one `offer` per `welcome`, one `answer` per `offer`, one `ice` per local candidate, and one channel send per chat submission on an open channel, and none otherwise. |
| `AgentProofs.StepEchoes` | src/public/app.js:143-154 | Per input: exactly one own line for a chat submission made with no channel or an open one, none otherwise; the list only grows. |
| `AgentProofs.RunKeepsCall` | src/public/app.js:158-206 | Over any run of inputs, the peer connection, the data channel and the chat list survive. |
| `AgentProofs.EachWelcomeOffersOnce` | src/public/app.js:158-171 | Over any run, the number of offers sent equals the number of `welcome` events received. |
| `AgentProofs.EachOfferAnsweredOnce` | src/public/app.js:173-187 | Over any run, the number of answers sent equals the number of offers received. |
| `AgentProofs.EachCandidateSentOnce` | src/public/app.js:231-234 | Over any run, the number of `ice` emits equals the number of locally found candidates. |
| `AgentProofs.AtMostOneSendPerChat` | src/public/app.js:147-151 | Over any run, chat payloads sent never exceed chat submissions. |
| `AgentProofs.SentChatsAreEchoed` | src/public/app.js:147-153 | Over any run, payloads sent never exceed the lines added as the user's own, which never exceed chat submissions. Earlier lines are never removed. |
| `AgentProofs.ChatBeforeChannelOpensIsKept` | src/public/app.js:147-153 | A message submitted right after `welcome`, while the new channel is still connecting, is neither sent nor shown and stays in the input. Only the offer goes out. |
| `AgentProofs.CallSurvivesPeerDeparture` | src/public/app.js:202-206 | Without a new welcome form, `bye` and every other input keep the peer connection (only adding calls), the data channel, and the room and user names. Every signalling message goes to the joined room. |
| `AgentProofs.ChatArrivesAsTyped` | src/public/app.js:147-162 | A message sent on the channel appears on the other page as `<sender's name> : <text>`, not marked as the peer's own. |
| `Handshake.ToRequest` | src/server.js:37-56 | A page's socket emit becomes a request from its own socket. Chat never reaches the coordinator. |
| `Handshake.RelayBetweenPair` | src/server.js:48-56 | In a room of exactly two sockets with private id rooms, a relay leaves the state as it was. It reaches the other socket alone, with the payload unchanged. |
| `Handshake.OfferAnswerThroughRoom` | src/public/app.js:158-192 | Between two pages alone in a room, the welcomed page's offer reaches the other page alone, and that page's answer reaches the first page alone. |
| `Handshake.ExchangeMatchesDescriptions` | src/public/app.js:158-192 | The offer the coordinator delivers is answered by the other page, and the answer it delivers back is adopted. Afterwards each page's local description is the other's remote one, and the offering page's channel is still connecting. It sends nothing more. |
| `Handshake.SecondJoinWelcomesFirst` | src/server.js:42-46 | A second socket joining a one-member room is admitted. Only the first member is told, with the newcomer's nickname. |
| `Handshake.FirstJoinIsSilent` | src/server.js:42-46 | The first socket into a new room is admitted and tells nobody. Other rooms and other sockets are unchanged. |
| `Handshake.LeaverSaysBye` | src/server.js:57-61 | A socket that joined one room and leaves says `bye` with its nickname to the other member alone, who is left alone in the room. |
| `Handshake.AdmitThenReject` | src/server.js:37-47 | In a one-member room a second join is admitted and a third turned away with the rejection text. Only the first member hears anything. |
| `Handshake.OpeningJoins` | src/server.js:37-47 | Alice, bob and carol asking to join a new room: the room ends holding alice and bob, and carol alone gets the rejection. |
| `Handshake.OpeningJoinsHeard` | src/server.js:37-47 | In the same three joins, only alice hears anything, namely `welcome("bob")`. |
| `Handshake.LeaveThenRejoin` | src/server.js:37-61 | Bob leaving and dave joining: the room ends holding alice and dave. Alice alone hears `bye("bob")` then `welcome("dave")`. |
| `Handshake.JoinLeaveRejoin` | src/server.js:37-61 | The whole five-event call: carol is turned away, and the room ends with alice and dave. |
| `Handshake.JoinLeaveRejoinHeard` | src/server.js:37-61 | In the whole call, alice hears `welcome("bob")`, `bye("bob")`, `welcome("dave")` in that order, and no other socket hears anything. |

## Left out

- Request arguments. Every request carries string arguments, and
  `join_room` carries an acknowledgement function, as the call page sends
  them (`src/public/app.js:134`). The server checks neither
  (`src/server.js:37-41`). A hand-made client that sends an array as the
  room name bypasses the cap: `rooms.get` of the array is undefined, so
  the join is admitted, and `socket.join` adds the socket to every room in
  the array. A rejected join without a callback throws at `done`.
- `CoordinatorProofs.ReachableRoomsHoldAtMostTwo`: holds only for requests
  with string room names, as above.

- The Express app, the Pug views, static files, the catch-all redirect and
  the HTTP listen (`src/server.js:1-17`, `64-65`). They are framework
  plumbing.
- socket.io's transport and its adapter's internals.
  - `Coordinator.AdapterAdd` and `Coordinator.AdapterRemove` state what the
    adapter does on `join` and after `disconnecting`, as assumptions.
  - A new connection's id is assumed fresh: it is neither a connected
    socket nor an existing room name. `Coordinator.Step` ignores requests
    the transport cannot produce.
- The browser `alert` shown on rejection (`src/public/app.js:134-136`).
  This is UI; the model stops at the acknowledgement delivered to the
  caller.
- Peer-connection internals.
  - `createOffer` and `createAnswer` are not modelled; the description
    the browser creates arrives as part of the input (`GotWelcome`,
    `GotOffer`).
  - The STUN server list and the track list are not modelled; adding the
    tracks is recorded as one call.
  - Candidate application does not follow the order of remote
    descriptions: the code calls it unconditionally, and so does the model.
- Media capture and camera selection (`getMedia`, `getCameras`,
  `handleCameraChange`), except whether capture succeeded, the mute, camera and chat-panel toggles, and the
  display of the remote stream (`handleAddStream`). These are device I/O
  and DOM effects.
- JSON encoding. A chat payload travels as the object it was built from.
  An unset user name is dropped by `JSON.stringify` and renders as
  "undefined". The throw on a malformed payload is not modelled.
- Async interleaving. Each handler runs atomically. For example, the
  welcome form's `await initCall()` and the later assignment of
  `roomName` are one step, so a `welcome` cannot arrive between them.
- `Coordinator.PublicRooms`: returns a set, not the array in the
  adapter's key order, because the order is that of a JavaScript `Map`.
  Its ensures is weaker than the exact characterisation; the exact
  version is stated by `CoordinatorProofs.PublicRoomsLackTheirNamesake`
  under the adapter invariant. The function is never called by the
  server.
- `Agent.OnChannelOpened`: the browser opens the peer's channel at an
  unmodelled time. The model only requires that the `offer` handler has
  registered the listener.
- `Agent.OnChannelState`: the channel's ready state changes when ICE and
  the transport say so, which is not modelled. It is an input the browser
  may deliver at any time, moving forward only. "closing" counts as
  closed, since `send` throws in both.
