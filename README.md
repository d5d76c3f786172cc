# Chat room gateway: a Dafny model

This project models the server side of a room-based chat relay: the
per-connection event gateway of `src/index.js` and its fan-out rules. For
each inbound event of a connection (connect, `join`, `sendMessage`,
`sendLocation`, `disconnect`) the model states whether the shared user
registry changes, whether the connection is grouped under a room, which
events go out with which payloads to which connections and in what order,
and what the acknowledgement callback receives.

Modules:

- `ChatTypes` (`chat_types.dfy`): users, message envelopes, outbound events
  (`message`, `locationMessage`, `roomData`) and the `Emit` record of one
  event with its exact recipient set.
- `MapsLink` (`maps_link.dfy`): the map link built for a shared location, a
  reader that recovers the coordinates from it, and the round trip between
  them.
- `Presence` (`presence.dfy`): the registry (connection id to user) and the
  transport's room groups (room to connection ids), the predicate that they
  agree on every room, and the lemmas that joining and leaving keep that
  agreement.
- `Gateway` (`gateway.dfy`): class `Server` with the open connections, the
  registry, the room groups and an outbox of every emit issued, one method
  per handler, and the three recipient rules: the sender only (`{id}`,
  `socket.emit`), the room group minus the sender (`AllBut`,
  `socket.broadcast.to`) and the whole room group (`Everyone`, `io.to`).
  Every method keeps `Valid()`: only open connections are registered, and a
  connection is in a room's group exactly when the registry records it in
  that room.

Collaborators that live outside `src/index.js` are parameters: the result of
`addUser` (an error string or a user record) is an input of `Join`; the
list `getUsersInRoom` returns is an input of `Join` and `Disconnect`; the
profanity filter's verdict is a `bool` input of `SendMessage`; each clock
reading that stamps an envelope is a `Stamp` input (two for `Join`, which
builds two envelopes, one for the other handlers).
`removeUser` and `getUser` are modelled directly as removal from and lookup
in the registry map, which is all the handlers rely on.

When the last member of a room leaves, `src/index.js:109-114` still emits
the leave message and `roomData`, to an empty group; the model records both
emits with an empty recipient set.

## Model

| member | source | states |
|---|---|---|
| `Gateway.Server.constructor` | src/index.js:41 | The gateway starts with no open connection, an empty registry, no room groups and nothing emitted; the invariant holds. |
| `Gateway.Server.Connect` | src/index.js:41-45 | A new connection is recorded as open and gets exactly one `message` "Welcome to the chat room" with no username, addressed to it alone; registry and groups are unchanged. |
| `Gateway.Server.Join` | src/index.js:48-75 | A failed `addUser` is passed to the callback unchanged with no registry change, no grouping and no emit. On success the user is registered, the connection joins the user's room group (the room's group grows by exactly that connection), then in order: "Welcome!" from System to the sender only, "<username> has joined!" to the room minus the sender, `roomData` with the room and the roster to the whole room including the sender; the callback gets no error. |
| `Gateway.Server.SendMessage` | src/index.js:77-89 | Flagged text gets "Profanity is not allowed" and emits nothing, also from a connection that never joined; otherwise exactly one `message` with the sender's username and the unchanged text goes to every connection registered in the sender's room, sender included, and the callback gets no error. Registry and groups never change. |
| `Gateway.Server.SendLocation` | src/index.js:92-100 | Exactly one `locationMessage` with the sender's username and the map link of the unchecked coordinates goes to every connection registered in the sender's room; the callback always gets no error. |
| `Gateway.Server.Disconnect` | src/index.js:103-116 | The connection closes, leaves every group and is removed from the registry. If it never joined nothing is emitted and no group changes; otherwise "<username> has left" and then `roomData` with the roster go to the room's remaining members, the departed connection not among them. |
| `Gateway.Server.Everyone` | src/index.js:87 | The whole-room recipient set (`io.to`) is exactly the set of connections the registry records in that room. |
| `Gateway.Server.AllBut` | src/index.js:66 | The room-minus-sender recipient set (`socket.broadcast.to`) never contains the sender and otherwise is exactly the room's registered connections. |
| `Gateway.LeaveReachesOnlyRemaining` | src/index.js:103-116 | When two connections have joined "general" and the first disconnects, the leave announcement and the roster are addressed to the second connection alone. |
| `Gateway.MessageReachesWholeRoom` | src/index.js:77-89 | With two connections in "general", a message from one is addressed to both; flagged text, from a member or from a connection that never joined, is refused with the profanity error and emits nothing. |
| `Presence.JoinGroup` | src/index.js:64 | Grouping a connection under a room adds it to that room's group and leaves every other group as it was. |
| `Presence.LeaveAll` | src/index.js:108 | On close the connection is in no group afterwards and every other connection's group membership is unchanged. |
| `Presence.JoinKeepsConsistent` | src/index.js:50-64 | Registering a not-yet-registered connection and grouping it under the same room keeps groups and registry in agreement on every room. |
| `Presence.LeaveKeepsConsistent` | src/index.js:105-108 | Removing a connection from every group and from the registry keeps groups and registry in agreement, whether or not it had joined. |
| `Presence.LeaveAllUnregistered` | src/index.js:105-107 | A connection that never joined is in no group, so its close changes no room group. |
| `MapsLink.FirstComma` | src/index.js:98 | Helper of `MapsLink.Parse`, the link reader this model adds as the inverse of the template at that line (the source itself never scans the link): no comma before the returned index, a comma at it unless it is the end. |
| `MapsLink.ParseInvertsUrl` | src/index.js:98 | Reading a link gives back coordinates exactly when the link is the one built from them and the latitude has no comma; so the link determines the coordinates it was built from. |

## Left out

- The HTTP server, static file serving and `server.listen` (src/index.js:16-38, 152-154): I/O plumbing.
- The commented-out counter example (src/index.js:119-150): dead code.
- The browser client `public/js/chat.js`: DOM, templating, time formatting, geolocation and scrolling.
- `src/utils/users.js` is not part of this model: trimming, case folding, validation and per-room uniqueness of usernames are its business, and the model takes `addUser`'s result as an input.
- Gateway.Server.Join: the `roomData` roster is whatever `getUsersInRoom` returned; the model does not relate it to the registry, because `src/utils/users.js` is not part of this model.
- Gateway.Server.Disconnect: the `roomData` roster is likewise the unchecked result of `getUsersInRoom`.
- Gateway.Server.Join: requires the connection not to be registered yet; the client joins once per connection, and what `addUser` does for a second join is not visible.
- Gateway.Server.Join: requires a failed `addUser` to carry a non-empty error; `src/index.js:51` tests the error's truthiness, so an empty error string would fall through to reading `user.room` of nothing, a crash path.
- `src/utils/messages.js` is not part of this model: `generateMessage` and `generateLocationMessage` are taken to build `{username, text, createdAt}` and `{username, url, createdAt}`.
- The wall clock: every `createdAt` is an opaque `Stamp` input, one per envelope built.
- The profanity filter (`bad-words`), a foreign library: its verdict is a `bool` input.
- The JavaScript rendering of the latitude and longitude numbers into the link: coordinates are the already-rendered strings.
- The crash paths of unflagged `sendMessage` and of `sendLocation` from a connection with no registered user (`user.room` read on nothing at src/index.js:87 and :98): those paths require a registered sender. A `sendLocation` without coordinates cannot be expressed: `MapsLink.Coords` always carries both fields.
- The crash paths of an event sent without an acknowledgement function (`callback` called at src/index.js:52, 74, 84, 88 and 99, after the emits on the success paths) and of a `join` without a payload object (the destructuring at src/index.js:48): the model takes every `join`, `sendMessage` and `sendLocation` to carry both, as the client always sends them, and the returned ack stands for that callback's argument.
- Socket.io transport internals: framing, delivery, and the group every connection gets under its own id (a room tag equal to some connection id would also reach that connection). Groups are plain sets of ids.
- Event-loop concurrency: each handler is one atomic method.
