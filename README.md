# Chat gateway presence and rooms, in Dafny

This project models the WebSocket chat gateway `ChatGateway`
(`src/chat/chat.gateway.ts`). The gateway keeps three maps. `users` maps a
user-chosen identity to a connection id. `sockets` maps a connection id back
to an identity. `rooms` maps a room name to a room record: creator, creation
time, public or private, optional password, and the set of member
connections. Each inbound event handler first checks its preconditions and
fails before changing anything. It then updates the maps in place and emits
events to connections or rooms. Leave-room interleaves the two: it removes
the member, emits the departure notice, and only then deletes the room if
it became empty, so the last member to leave still notifies the room.

The model is a class `Gateway.ChatGateway` with the same fields.
`order` is added: it holds the room names in the insertion order of the
JavaScript `Map`, which list-rooms and the disconnect loop follow. Handlers
that change state are methods. Their `ensures` give the whole new state in
terms of the old, plus the invariants they keep. The read-only handlers
(list-rooms, room-members, send-to-user, send-to-all, send-to-room) are
functions of the state. Emissions come back as delivery instructions:

- `ToSocket(id, e)`: `client.emit`.
- `ToRoom(room, except, e)`: `server.to(room)` and `.except(id)`. Also
  `client.to(target)`, which the transport sends to everyone in the
  transport room `target` except the sender. Each connection is in the
  transport room named by its own id.
- `BroadcastExcept(id, e)`: `client.broadcast.emit`.

Failures are `Err` values of a `Failure` datatype, one variant per distinct
`WsException` cause. A failing handler returns no deliveries.

Modules:
- `Ordered`: insertion-ordered sets as duplicate-free sequences.
- `ChatTypes`: rooms, events, deliveries, failures, replies.
- `Presence`: the two presence maps and what register and disconnect do to
  their agreement.
- `Directory`: the room directory, the pure functions the handlers are
  specified by, and the lemmas about them.
- `Gateway`: the class.
- `Scenarios`: multi-step runs, proved from the handlers' contracts alone.

## Where the code departs from the intended behaviour

The gateway is meant to keep its two presence maps as inverse bindings, to
delete rooms once nobody is in them, and to validate only what each event
needs. The code does less and more than that in the ways below, and the
model follows the code:

- **Register keeps stale entries.** `register` writes both maps and removes
  no stale entry. The maps can therefore stop agreeing
  (`Presence.RegisterAgreement`). An identity a connection registered
  earlier stays bound to it (`Scenarios.ReRegistration`).
- **Disconnect deletes by identity.** It removes `users[identity]` even when
  another connection has taken that identity over
  (`Presence.DisconnectDropsRebinding`, `Scenarios.TakeoverThenDisconnect`).
- **Disconnect keeps empty rooms.** It never deletes a room it empties. Only
  leave-room deletes empty rooms (`Directory.WithoutMemberOccupied`,
  `Scenarios.DisconnectAfterTakeover`).
- **Public rooms keep their password.** A public room stores any password it
  was given, so "password present iff private" does not hold. What holds is
  "private implies a non-empty password" (`Directory.WellFormed`).
- **Extra payload checks.** Join-room and room-members refuse an empty room
  name (`RoomNameRequired`), and send-to-room refuses an empty room name or
  an empty message (`IncompleteData`). The intended operations do not
  require these checks; the model keeps each of them, in the code's order.

## Model

| member | source | states |
|---|---|---|
| `Gateway.ChatGateway.constructor` | src/chat/chat.gateway.ts:27-29 | The gateway starts with empty presence maps and an empty room directory, which is valid. |
| `Gateway.ChatGateway.HandleRegister` | src/chat/chat.gateway.ts:118-132 | An empty identity fails with `InvalidUserId` and changes nothing. Otherwise exactly `users[id]` and `sockets[client]` are written. The connection then resolves to `id`, and rooms are untouched. |
| `Gateway.ChatGateway.HandleCreateRoom` | src/chat/chat.gateway.ts:54-116 | Fails, in this order, on an empty name, a taken name, or a private room without a truthy password. A failure changes nothing and emits nothing. On success exactly one room is added, last in order. The creator is the resolved identity and the only member is the client. The reply and the `room-joined` event report 1 member. Occupancy and validity are kept. |
| `Gateway.ChatGateway.HandleJoinRoom` | src/chat/chat.gateway.ts:176-243 | Fails, in this order, on an empty name, a missing room, a private room whose stored password differs from the one supplied, or an existing member. A failure changes nothing. Success appends exactly the client to that room, so the size is the old size plus one. It emits `room-joined` to the client and a join notice to the room excluding the client. |
| `Gateway.ChatGateway.HandleLeaveRoom` | src/chat/chat.gateway.ts:245-287 | Fails on an empty name, a missing room, or a non-member, and a failure changes nothing. Otherwise it removes exactly the client from that room. It deletes the room, from both the map and the order, exactly when no member is left. It always sends the leave notice to the room excluding the client. "Every room is occupied" is preserved. |
| `Gateway.ChatGateway.HandleListRooms` | src/chat/chat.gateway.ts:289-307 | Never fails. Lists exactly the non-private rooms, one summary per room, each with that room's member count. Sends the same list as `room-list` to the requester. |
| `Gateway.ChatGateway.HandleRoomMembers` | src/chat/chat.gateway.ts:309-342 | Fails on an empty name, a missing room, or a requester who is not a member (`NoAccess`). Otherwise it returns one name per member in member order. Each name is the member's registered identity, or its id when unregistered. The requester's own name is included. The answer is sent with `count` equal to the list length. |
| `Gateway.ChatGateway.HandlePrivateMsg` | src/chat/chat.gateway.ts:135-159 | Succeeds exactly when the target identity is bound. It then emits one `private-message` to the bound connection, from the sender's resolved name, skipping the sender itself. A failure is `TargetNotConnected` with no delivery. |
| `Gateway.ChatGateway.HandleBroadcast` | src/chat/chat.gateway.ts:161-174 | Never fails. Emits one `broadcast-message` to every connection but the sender, from the sender's resolved name. |
| `Gateway.ChatGateway.HandleRoomMessage` | src/chat/chat.gateway.ts:344-381 | Fails on an empty room or message, a missing room, or a non-member sender, with no delivery. Otherwise it emits one `room-message` to the whole room, sender included, stamped with the caller's time. |
| `Gateway.ChatGateway.HandleDisconnect` | src/chat/chat.gateway.ts:35-52 | Removes `sockets[client]` and `users[identity]` for the identity the connection had. Takes the client out of every room and deletes none. Emits the departure notices of `DepartureNotices` over the rooms in directory order. |
| `Gateway.ChatGateway.LeaveRoomSilently` | src/chat/chat.gateway.ts:385-392 | If the room exists, only that room changes: it loses the client. Otherwise nothing changes. |
| `Gateway.ChatGateway.NotifyRoomMembers` | src/chat/chat.gateway.ts:394-410 | Emits nothing for a missing room. Otherwise it emits exactly one `room-notification` to the room, excluding the given connection if any. |
| `Presence.Resolve` | src/chat/chat.gateway.ts:61 | A connection's display name is never empty. It is the registered identity when there is one, and the id itself when unregistered. |
| `Presence.RegisterAgreement` | src/chat/chat.gateway.ts:125-126 | From agreeing forward and reverse maps, register yields agreeing maps if and only if neither the identity nor the connection was bound elsewhere before. |
| `Presence.DisconnectAgreement` | src/chat/chat.gateway.ts:36-43 | On agreeing maps, the disconnect's two deletions keep the maps agreeing. |
| `Presence.DisconnectDropsRebinding` | src/chat/chat.gateway.ts:40-43 | When another connection has taken over the identity, the disconnect unbinds the identity from its new owner. The owner keeps its reverse entry, and the maps stop agreeing. |
| `Ordered.Remove` | src/chat/chat.gateway.ts:388 | Deleting from a member set drops exactly the given member. All others are kept, the size shrinks by one when it was present, and the set stays duplicate-free. |
| `Directory.Strip` | src/chat/chat.gateway.ts:385-392 | A room after a member leaves it. Only the members change: the client is gone, everyone else stays, and the size drops by one if the client was a member. |
| `Directory.WithoutMember` | src/chat/chat.gateway.ts:46-51 | The directory after a disconnect has the same room names. Each room is stripped of the client, and well-formedness is kept. |
| `Directory.WithoutMemberOccupied` | src/chat/chat.gateway.ts:46-51 | After a disconnect every room still has a member if and only if no room had the departing connection as its only member. |
| `Directory.PublicSummaries` | src/chat/chat.gateway.ts:292-299 | The filtered and mapped room list. Every entry is the summary of a public room, and every public room has its summary in the list. With distinct names the list is duplicate-free. |
| `Directory.DepartureNotices` | src/chat/chat.gateway.ts:46-51 | Disconnect notices. Each goes to a room that had the client, addressed to the whole room. Every such room gets one, and no room gets two. |
| `Directory.DeleteRoom` | src/chat/chat.gateway.ts:277-280 | Deleting a room from the directory and its name order keeps the two in step and the directory well formed and occupied. |
| `Scenarios.AliceOpensTeam` | src/chat/chat.gateway.ts:60-110 | A registered user creates a private room with a password and is its only member. |
| `Scenarios.BobArrives` | src/chat/chat.gateway.ts:119-126 | A second registration adds its binding and leaves the room unchanged. |
| `Scenarios.TeamRoom` | src/chat/chat.gateway.ts:185-238 | A wrong password is refused with no delivery. The right one admits, making 2 members. |
| `Scenarios.TeamConversation` | src/chat/chat.gateway.ts:350-376 | A message to the room reaches the whole room from "alice". Room-members lists "alice" and "bob". |
| `Scenarios.TakeOver` | src/chat/chat.gateway.ts:119-126 | After a second connection registers an identity, both connections map to it. The identity maps to the newer connection. |
| `Scenarios.DisconnectAfterTakeover` | src/chat/chat.gateway.ts:35-51 | Disconnecting the first connection unbinds the identity although its new owner is connected. It leaves the room empty but present and sends one departure notice. |
| `Scenarios.TakeoverThenDisconnect` | src/chat/chat.gateway.ts:141-148 | After that disconnect, a private message to the identity fails and the empty room is still listed. |
| `Scenarios.ReRegistration` | src/chat/chat.gateway.ts:119-126 | A connection that re-registers under a new identity is still reachable under the old one. |

## Left out

- Logging, `handleConnection` (it only logs), the log texts, CORS and decorator wiring: observability and framework glue with no effect on state or deliveries.
- Transport subscription (`client.join`, `client.leave`): not emitted as instructions. Reading a `ToRoom` instruction as "exactly the members of the chat room" (or "exactly the target connection" for a private message) assumes that no chat room is named after a connection id. Create-room does not prevent that: room names and connection ids share the transport's one room namespace, so such a room would also reach the connection of that id, and a private message to that connection would also reach the room's members. The model does not represent transport room membership and does not capture this overlap.
- `WsException` wrapping and message texts: each failure is one `Failure` variant. The wording of notifications is reduced to a `Notice` saying who joined, left or disconnected.
- Clock reads: every `new Date()` in one handler call is the single `now` parameter, so two reads within one handler are modelled as the same instant.
- Room records are values. The in-place `members.add` and `members.delete` on a room's `Set` become a write of the updated record into `rooms`. No room record is shared outside the gateway, so no aliasing is lost.
- Connection ids are a non-empty string type (the transport never issues an empty id). The code's truthiness tests on ids, such as `if (excludeSocketId)` and `!socketId`, therefore become presence tests.
- Absent string payload fields are modelled as the empty string. For the fields the code tests with `!x` (room name, identity, the message of send-to-room) that is faithful, since the test treats both alike. The message of send-to-user and send-to-all is never tested and an absent one is forwarded as `undefined`; the model cannot tell an absent message there from an empty one. Passwords are `Option<string>`, since join-room compares absent and present passwords with `!==`. The `isPrivate = false` default is applied by the caller.
- `src/app.service.ts` is not part of this model: it returns a constant greeting.
- Concurrency: the event loop runs one handler at a time, and each method models one whole handler call.
- Ordered.Remove: the contract does not state that the remaining members keep their relative order, although the definition does.
- Directory.PublicSummaries: the contract does not state that the list follows the directory's insertion order, although the definition does.
- Directory.DepartureNotices: the contract does not state that the notices follow the directory's insertion order, although the definition does.
- Gateway.ChatGateway.HandleListRooms: the contract characterises the listed rooms as a duplicate-free collection and does not state their order.
- Scenarios.TakeoverThenDisconnect: states that the empty room is in the listing, not the exact listing.
