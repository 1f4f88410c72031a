# Chess relay server: rooms, seats and relays

This project models the Socket.IO event handlers of a two-player chess relay
server and proves properties of them in Dafny. The handlers live twice in the
repository, in `server.js` (lines 23-127) and, for the serverless build, in
`functions/api.js` (lines 23-116). The two copies are the same code line for
line, so one model covers both.

The server keeps a single `rooms` object that maps a room name to
`{ players, moves }`. Every inbound event is handled to completion, one at a
time. Each handler changes `rooms` and emits events. An emission goes to the
sender only (`socket.emit`), to the room without the sender (`socket.to(room)`),
or to the whole room (`io.to(room)`).

- `session.dfy`, module `Session`: the data model (`Room`, `Player`, `Side`,
  `Store`, `Emission`, `Request`). It also holds one pure transition per handler,
  the dispatcher `Handle` and the trace function `Run`. Each transition returns
  the new store and the emissions, in order.
- `facts.dfy`, module `SessionFacts`: lemmas about those transitions. They cover
  game start, rematch and disconnect idempotence, the order-keeping filter, the
  append-only move history, and the capacity invariant over every trace.
- `channels.dfy`, module `Channels`: the Socket.IO room channels, which decide
  who receives an emission. It also holds the delivery lemmas: no echo, the
  rejected joiner who still listens, and a whole-game scenario.
- `server.dfy`, module `ChessServer`: class `RoomServer`. Its fields are `rooms`
  (a map), `order` (the key order of the object) and a ghost `channels`. It has
  one method per `socket.on(...)` handler and updates the fields in place.
  `OnDisconnect` runs the handler's `for..in` loop, `EvictEverywhere`. Each
  method is proved to perform the `Session` transition and to keep the invariant.
- `lookup.dfy`, module `ObjectLookup`: the join, rematch and disconnect
  handlers as written, using the property lookup of a plain JavaScript object
  (see Findings).

The invariant kept by every handler and every trace (`Session.Invariant`):
- the key order lists each room exactly once;
- no room has more than two players;
- only the first player of a room can be White.

Three consequences of the code are worth stating plainly:
- Seats are not unique, because the side depends only on `players.length`.
  `SessionFacts.TwoBlackPlayers` shows a room that ends up with two Black players.
- `startGame` goes out again each time a later join refills a room
  (`TwoBlackPlayers`).
- Disconnecting a connection that is in no room leaves the rooms unchanged
  (`DisconnectStranger`), but still broadcasts `NewRoom` to every room with
  fewer than two players, including rooms the connection never joined.

## Model

| member | source | states |
|---|---|---|
| Session.Join | functions/api.js:30-57 | Joining always leaves the room in the store. An unseen room is added empty at the end of the key order before the capacity check. Under capacity, exactly one `(conn, side)` is appended and the earlier players stay in order. The side is White iff the room was empty. `playerSide(side)` goes to the sender, and `startGame` with the full list goes to the whole room iff the room now has 2 players. At capacity, players stay unchanged and only `roomfull` goes to the sender. Moves and all other rooms are unchanged. |
| Session.Ensure | functions/api.js:35-37 | The lazy creation keeps every existing room and adds `id` iff it was missing, as an empty room at the end of the key order. The room read afterwards is `RoomOf`, the existing room or the empty one. A well-formed store stays well formed. |
| Session.PlayMove | functions/api.js:74-87 | An unknown room gives the same store and no emissions. For a known room, `moves` gains the move at the end. `players`, the key order and every other room are unchanged, and the move goes to the room without the sender. |
| Session.Rematch | functions/api.js:64-71 | An unknown room is a no-op. For an existing room, `moves` becomes empty and `players` is kept. Other rooms are unchanged. The emissions are `requestRematch`, then `message('Match Restarted')`, both to the whole room. |
| Session.EndGame | functions/api.js:59-62 | No ensures of its own. It is the one `gameEnd(status)` emission to the whole room; `SessionFacts.RelaysOnlyEmit` states that the store is unchanged and the status goes out as received. |
| Session.RelaySignal | functions/api.js:90-101 | No ensures of its own. It is the one emission of the payload, unchanged, to its `room` without the sender; `SessionFacts.RelaysOnlyEmit` states the target and the carried event for all three signals. |
| Session.Without | functions/api.js:110 | The filtered list holds a player iff the player was in the list and its id is not the leaving connection. It is never longer than the list. |
| Session.Evict | functions/api.js:108-110 | No ensures of its own. It is every room with the connection filtered out of its players; `Session.Disconnect` states the keys, moves and filtered players, and `SessionFacts.EvictIdempotent` that filtering twice is filtering once. |
| Session.NewRoomNotices | functions/api.js:108-114 | No ensures of its own. It is the loop's `NewRoom` broadcasts over the given keys, in that order; `NewRoomNoticesExact` and `NewRoomNoticesInKeyOrder` state which rooms get one and in which order. |
| Session.NewRoomNoticesExact | functions/api.js:112-114 | The loop's `NewRoom` emissions go only to visited rooms with fewer than 2 players, and every such room gets one. There are never more emissions than keys. |
| Session.NewRoomNoticesInKeyOrder | functions/api.js:108-114 | Over keys that are each listed once, every emission goes to a room listed before the rooms of all later emissions, so the broadcasts follow the key order. |
| Session.KeyOrderExtends | functions/api.js:108-114 | Appending the next key's broadcast, if any, to broadcasts over the earlier keys keeps the key order. |
| Session.KeyOrderNoRepeats | functions/api.js:108-114 | Broadcasts in the order of keys that are each listed once never go to the same room twice. |
| Session.Disconnect | functions/api.js:104-116 | Keys, key order and moves are unchanged. Each room's players are the filtered list, and afterwards no room holds the connection. `NewRoom` goes to exactly the rooms now under 2 players, including rooms the connection never joined. No room gets it twice, and the broadcasts follow the key order. |
| Session.Handle | functions/api.js:30-116 | Dispatching any inbound event keeps the store well formed: the key order lists each room once. |
| Session.Run | functions/api.js:26-117 | Handling any sequence of events one after another keeps the store well formed. |
| SessionFacts.StartGameExactlyOnSecondSeat | server.js:51-54 | A join emits `startGame` iff the joiner found exactly one player seated, that is, iff this join made the count 2. |
| SessionFacts.FirstJoin | server.js:35-48 | The first joiner of a room not yet in the store is seated alone as White. The room is added empty of moves after every existing key, and only `playerSide('white')` goes to the sender. |
| SessionFacts.SecondJoin | server.js:42-53 | In any store, a joiner who finds exactly one player seated in an existing room is appended as Black. The room keeps its moves, the key order and every other room are unchanged, the sender gets `playerSide('black')`, then `startGame` with both seats goes to the whole room. |
| SessionFacts.FirstTwoJoins | server.js:30-55 | On a fresh server, two joins to the same room seat White then Black and start the game. |
| SessionFacts.JoinFullRoomChangesNothing | server.js:57-60 | A join to a room with 2 or more players leaves the store exactly as it was and emits only `roomfull` to the sender. |
| SessionFacts.RematchIdempotent | server.js:70-78 | Two rematch requests leave the same store as one. |
| SessionFacts.WithoutDistributes | server.js:121 | The filter distributes over concatenation, so the remaining players keep their relative order. |
| SessionFacts.WithoutStranger | server.js:121 | Filtering out an id that no player has returns the list unchanged. |
| SessionFacts.WithoutIdempotent | server.js:121 | Filtering twice equals filtering once. |
| SessionFacts.WithoutKeepsBlackTail | server.js:121 | If every player after the first is Black, that stays true after filtering. |
| SessionFacts.WithoutKeepsRoomOk | server.js:119-121 | Filtering keeps a room at 2 players or fewer, with only the first one possibly White. |
| SessionFacts.EvictIdempotent | server.js:119-121 | Filtering a connection out of every room twice leaves the same rooms as once. |
| SessionFacts.DisconnectIdempotent | server.js:115-127 | Disconnecting the same connection twice leaves the same store as once. |
| SessionFacts.DisconnectStranger | server.js:119-121 | Disconnecting a connection that is in no room leaves every room unchanged. |
| SessionFacts.RelaysOnlyEmit | server.js:64-112 | `gameEnd`, `offer`, `answer` and `ice-candidate` leave the store unchanged and make one emission each. `gameEnd(status)` goes to the whole room. Each signal goes to its `room` without the sender, carrying the received payload unchanged under its own event name. |
| SessionFacts.MovesAppendOnly | server.js:73-90 | For every event and room, the room's moves stay the same, gain exactly the move sent to that room, or are cleared by a rematch of that room. |
| SessionFacts.JoinKeepsInvariant | server.js:42-46 | A join keeps the invariant: at most 2 players per room, and only the first player possibly White. |
| SessionFacts.DisconnectKeepsInvariant | server.js:119-121 | A disconnect keeps the invariant. |
| SessionFacts.HandleKeepsInvariant | server.js:42-46 | Every handler keeps the invariant: a well-formed store, at most 2 players per room, and only the first player possibly White. |
| SessionFacts.RunKeepsInvariant | server.js:26-128 | Any interleaving of events from any connections keeps that invariant, so no room ever holds more than 2 players. |
| SessionFacts.TwoBlackPlayers | server.js:44 | a, then b join "r" (White, Black). a disconnects, so b stays alone as Black. c then joins, is told Black, and `startGame` goes out a second time, listing two Black players. |
| Channels.Subscribe | server.js:32 | After `socket.join(room)` the channel holds its earlier members plus the joiner. Every other channel is unchanged. |
| Channels.LeaveAll | server.js:115 | After a disconnect, every channel has lost the connection and kept everyone else. |
| Channels.Connect | server.js:26 | A new connection joins the channel named by its own id, as Socket.IO does on connect. Every other channel is unchanged. |
| Channels.Tune | server.js:32 | No ensures of its own. It applies Socket.IO's part of an inbound event to the channels: `socket.join(room)` on join-room, leaving every channel on disconnect, nothing otherwise. |
| Channels.Recipients | server.js:48-124 | No ensures of its own. It gives who an emission reaches. `socket.emit` reaches the sender alone. `socket.to(room)` reaches the room's channel minus the sender and minus every socket on the sender's own-id channel, as Socket.IO 3 and later do (the `cors` option at server.js:15-20 is that API). `io.to(room)` reaches the whole channel. `MoveNeverEchoes`, `MoverIdChannelHidesMove` and `MatchDeliveries` state its consequences. |
| Channels.MoveNeverEchoes | server.js:92 | A connection receives a relayed move iff it is on the room's channel, not on the sender's own-id channel and not the sender, so the move never comes back to the sender. |
| Channels.RejectedJoinerOverhears | server.js:32-60 | A joiner turned away from a full room leaves the store unchanged and gets `roomfull`. It is still on the room's channel. It receives the next move another player sends there iff it is not on that player's own-id channel and the room is not named after that player. |
| Channels.MoverIdChannelHidesMove | server.js:92 | C joins the room named by A's id, then A and C both join "r". A's move in "r" reaches nobody, though C sits in "r". |
| Channels.MatchScenario | server.js:30-127 | A joins "r1" and is told White. B joins and is told Black, and `startGame` lists both seats. A's move "e4" is recorded and relayed. B disconnects, `NewRoom` goes to "r1", and A remains alone in "r1" as White with the move history. |
| Channels.MatchDeliveries | server.js:53 | In that scenario, `startGame` reaches A and B, the move reaches only B, and the `NewRoom` sent after B leaves reaches only A. |
| Channels.IdNamedRoomReachesOwner | server.js:26-53 | When B and C fill a room whose name is A's connection id, the `startGame` broadcast reaches A as well as B and C, although A never joined. |
| ChessServer.RoomServer.constructor | server.js:23 | The store starts with no rooms, no keys and no channels, and satisfies the invariant. |
| ChessServer.RoomServer.OnConnect | server.js:26 | A new connection adds the socket to the channel named by its own id and changes nothing else. |
| ChessServer.RoomServer.OnJoinRoom | server.js:30-62 | Updates `rooms` and `order` in place exactly as `Session.Join` does and returns its emissions. Subscribes the joiner before the capacity check, and keeps the invariant. |
| ChessServer.RoomServer.OnMove | server.js:82-96 | Updates `rooms` in place exactly as `Session.PlayMove` does, leaves the channels alone, and keeps the invariant. |
| ChessServer.RoomServer.OnRequestRematch | server.js:70-78 | Updates `rooms` in place exactly as `Session.Rematch` does and keeps the invariant. |
| ChessServer.RoomServer.OnGameEnd | server.js:64-68 | Emits `gameEnd(status)` to the whole room and changes nothing. |
| ChessServer.RoomServer.OnOffer | server.js:101-104 | Relays the offer, unchanged, to its room without the sender. |
| ChessServer.RoomServer.OnAnswer | server.js:106-108 | Relays the answer, unchanged, to its room without the sender. |
| ChessServer.RoomServer.OnIceCandidate | server.js:110-112 | Relays the ICE candidate, unchanged, to its room without the sender. |
| ChessServer.RoomServer.OnDisconnect | server.js:115-127 | The `for..in` loop replaces each room's players by the filtered list in key order and broadcasts `NewRoom` after each room left under 2 players. The result equals `Session.Disconnect`. The socket is out of every channel, and the invariant is kept. |
| ChessServer.RoomServer.EvictEverywhere | server.js:119-126 | After the loop over every key, each room's players are the filtered list and the rooms are exactly `Session.Evict` of the old ones. The emissions are the `NewRoom` broadcasts for the rooms under 2 players, in key order. |
| ChessServer.VisitNext | server.js:119-125 | One iteration sets the room at the next key to its filtered value and leaves the not-yet-visited rooms as they were. It appends exactly that room's `NewRoom` broadcast, if the room is under 2 players, to the broadcasts so far. |
| ChessServer.VisitOne | server.js:121 | Overwriting the room at the next key, and no other, keeps the rooms already visited and extends the visited prefix by one. |
| ChessServer.AllVisited | server.js:119 | Once every key has been visited, every room holds its final value. |
| ObjectLookup.LookupAsWritten | server.js:35 | On a plain object, `rooms[id]` is the room iff `id` is an own key. It is undefined iff `id` is neither an own key nor a name inherited from Object.prototype. |
| ObjectLookup.JoinAsWritten | server.js:35-44 | The join handler as written throws a TypeError iff the room is new and its name is inherited from Object.prototype. Otherwise it behaves as `Session.Join`. |
| ObjectLookup.ConstructorRoomThrows | functions/api.js:35-40 | On a fresh server, joining "constructor" throws as written. The corrected join seats the joiner White. |
| ObjectLookup.AsWrittenAgreesElsewhere | server.js:35-38 | For every room name outside the inherited names, the handler as written is exactly `Session.Join`. |
| ObjectLookup.RematchAsWritten | server.js:70-78 | The rematch handler as written: an own room behaves as `Session.Rematch`. Otherwise the store is unchanged, and both events go out iff the name is inherited from Object.prototype, or is "moves" once Object.prototype carries `moves`; else nothing goes out. Object.prototype carries `moves` afterwards iff it did before or the name was "__proto__" and not an own key. |
| ObjectLookup.PollutedMovesRematch | server.js:71-75 | With Object.prototype carrying `moves`, `requestRematch("moves")` on a store without that room emits `requestRematch` and `message` to room "moves", where the corrected rematch does nothing. |
| ObjectLookup.DisconnectAsWritten | server.js:115-126 | The loop over the own keys does what `Session.Disconnect` does. The handler then throws iff Object.prototype carries `moves` and no own key "moves" shadows it. |
| ObjectLookup.ProtoRematchBreaksDisconnect | server.js:70-78 | On a store without rooms named "__proto__" or "moves", `requestRematch("__proto__")` as written emits both events and pollutes Object.prototype, and every later disconnect throws. The corrected rematch is a no-op there. |
| ObjectLookup.UnpollutedAgrees | server.js:70-126 | Without a polluted Object.prototype and for a name outside the inherited ones, the rematch and disconnect handlers as written are those of `Session`. |

## Left out

- The Express app, the HTTP server, the CORS settings, `server.listen` and the port (server.js:1-20, 130-135) are not modelled. They are transport plumbing around library calls.
- The `serverless-http` handler export (functions/api.js:119-120) is not modelled, for the same reason.
- Socket.IO delivery is not executed. Emissions are returned as data. Who would receive them is computed from the ghost channel map by `Channels.Recipients`.
- The model assumes that Socket.IO removes a socket from all its rooms before the `disconnect` handler runs (`Channels.LeaveAll`). The library's code is not part of this model.
- The `async` connection callback and the logging on connect are not modelled. They change no state.
- Channels.Tune: a new connection is not an inbound `Request`, so `Tune` and `Session.Run` have no connect step. The own-id channel it creates is modelled separately by `Channels.Connect` and `RoomServer.OnConnect`. `MatchScenario` and `MatchDeliveries` start without those channels; no room there is named after a connection id, so the recipients they state are unaffected.
- `console.log` and `console.error` are not modelled. They are diagnostics only.
- The `try`/`catch` in the move handler is not modelled. Nothing in the modelled move path throws. For an inherited name such as "toString" the push normally throws, the `catch` swallows it, and the result is the model's unknown-room no-op. That holds only while no earlier `requestRematch` gave the inherited value a `moves` array. After `requestRematch("toString")` (server.js:71-73) the function `Object.prototype.toString` has one. After `requestRematch("__proto__")` every inherited value sees `Object.prototype.moves`. In either case server.js:90 pushes and server.js:92 relays the move, while `Session.PlayMove` emits nothing.
- Moves, `gameEnd` statuses and signaling payloads are opaque values. The server never inspects them, and a signal is only routed by its `room` field.
- Malformed payloads are not modelled. For example, a `null` `move` payload makes the destructuring throw before the `try`.
- Room names are strings. JavaScript turns non-string names into property keys, while Socket.IO channel names keep them as sent. That difference is not modelled.
- Session.Disconnect: its emission order follows the key insertion order (`Store.order`). JavaScript enumerates keys that look like array indices ("0", "17") first, in numeric order. That affects only the order of the `NewRoom` emissions, not which rooms get one or the new store.
- Session.Rematch: a room name inherited from Object.prototype (such as "toString" or "__proto__") is treated as an unknown room, which is a no-op. As written, the handler instead writes `moves` on the inherited value and emits `requestRematch` and `message`. For "__proto__" that write reaches Object.prototype. `ObjectLookup.RematchAsWritten` tracks that one flag, and `ObjectLookup.DisconnectAsWritten` its effect on disconnect (see Findings). What the polluted prototype does to later joins and moves is not modelled.
- ChessServer.RoomServer.EvictEverywhere: the loop filters a local copy of the rooms and writes the field once, after the last key. The handler writes each room as it goes. No other handler runs in between, so the final rooms and the emissions are the same.
- A handler that throws is modelled as an outcome (`ObjectLookup.ThrewTypeError`, `ObjectLookup.ThrewAfter`). What then happens to the process is not modelled.

## Findings

| source | as written | input that shows it | evidently intended | confidence | as-written member | corrected member |
|---|---|---|---|---|---|---|
| server.js:35-42 (and functions/api.js:35-40) | `if (!rooms[room])` also counts names inherited from Object.prototype as existing rooms. Creation is skipped, and `rooms[room].players.length` then reads a property of undefined and throws a TypeError. | join-room "constructor" on a fresh server (`ObjectLookup.ConstructorRoomThrows`) | a new room is created and the joiner is seated White | high; not executed | ObjectLookup.JoinAsWritten | Session.Join |
| server.js:70-78 and 119-121 (and functions/api.js:64-71, 108-110) | `if (room)` lets an inherited name through, and `room.moves = []` for "__proto__" adds an enumerable `moves` to Object.prototype. Every later `for (const room in rooms)` then visits "moves" after the own keys, and `rooms["moves"].players.filter` throws a TypeError. | requestRematch "__proto__", then any connection disconnects (`ObjectLookup.ProtoRematchBreaksDisconnect`) | a rematch request for a room that does not exist does nothing, and the disconnect loop visits only the rooms | high; not executed | ObjectLookup.DisconnectAsWritten | Session.Rematch |
