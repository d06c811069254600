# scrollSyncServer: room file table and scroll relay

A Dafny model of the stateful core of the scroll-sync server (`index.js`).
The server lets several clients in one "room" view the same PDF and keeps their
scroll positions in step. Two pieces of state make up its core.

- **The room → file table** (`roomToFileMap`). `POST /upload` stores the file
  as `<Date.now()>-<original name>`. It writes the URL
  `http://localhost:5000/uploads/<stored name>` under the room identifier,
  replacing any earlier URL, and answers that URL. `GET /room-file/:roomId`
  answers the stored URL, or a 404 with the error text
  `File not found for this room ID`. This is module `RoomFiles`, a class
  `RoomFileTable` over a `map<string, string>`. `Decimal` renders the clock
  reading as JavaScript does for a non-negative integer.
- **The room relay.** On `join-room` a connection joins a room. On
  `scroll-sync` the scroll value goes out as `scroll-update` to every other
  member of the room. In the source, rooms are socket.io's built-in grouping.
  Module `RoomRelay` turns that library contract into an explicit registry:
  a class `Registry<ConnId>` over a `map<RoomId, set<ConnId>>`. The scroll value
  is an opaque type parameter, forwarded verbatim. The sends of one event are
  returned as a set of (recipient, value) deliveries.
- **socket.io's own room rules.** Module `SocketIoRooms` states what socket.io
  4's in-memory adapter does with the same calls. Every socket also sits in a
  room named after its own id. `socket.to` leaves out every member of the
  sender's own room. An array `roomId` is accepted, and an empty one addresses
  every connected socket. Its lemmas give conditions under which the
  `Registry` agrees with these rules, and an input for each case where it
  does not.

The two pieces share only the space of room identifiers. `Server.ExampleSession`
drives both through one session, with its relay steps in `Server.ExampleRelay`
and `Server.ExampleDisconnect`. A relay event never touches the file table:
`ScrollSync` has no `modifies` clause at all, and `Join` and `Disconnect` may
modify only the registry.

Inputs the source takes from the environment become parameters. The clock
reading `Date.now()` is the `timestamp` argument of `Upload`. The table's startup
contents, read from `roomMap.json`, are the argument of the `RoomFileTable`
constructor.

Two behaviours of the code are worth stating directly:
- The lookup tests the stored value for truthiness. A stored empty string
  therefore answers 404 like a room without an entry. URLs written by `Upload`
  are never empty, so such a value can only come from the startup contents.
  Keys that a plain JavaScript object inherits behave differently again; see
  the `LookupIn` and `Upload` lines of the list of what is left out.
- `index.js` has no disconnect handler. socket.io itself removes a closed
  connection from its rooms. `Disconnect` and `Left` model that library
  behaviour as an assumption.

## Model

| member | source | states |
|---|---|---|
| `Decimal.NatToDecimal` | index.js:38 | the clock reading concatenated into the file name is a canonical decimal numeral: digits only, non-empty, no leading zero, a single digit exactly for values below 10 |
| `Decimal.DecimalRoundTrip` | index.js:38 | reading the numeral back gives the clock reading |
| `Decimal.CanonicalRoundTrip` | index.js:38 | every canonical numeral is the rendering of its value, so rendering is onto the canonical numerals |
| `Decimal.NatToDecimalInjective` | index.js:38 | distinct clock readings render as distinct numerals |
| `RoomFiles.StoredFileName` | index.js:38 | the stored name: the clock reading in decimal, then `-`, then the original name; FileNameRoundTrip and FileNameParseSound pin it down as the exact inverse of the splitter ParseStoredFileName |
| `RoomFiles.FileNameRoundTrip` | index.js:38 | splitting a stored name at its first '-' gives back the timestamp and the original name, even when the original name contains '-' |
| `RoomFiles.FileNameParseSound` | index.js:38 | every name the splitter accepts is the stored name `timestamp + "-" + originalName` of the pair it returns |
| `RoomFiles.StoredFileNameInjective` | index.js:38 | two uploads share a stored name only if their timestamps and original names are equal |
| `RoomFiles.FileUrl` | index.js:46 | the URL is `http://localhost:5000/uploads/` followed by the stored name, with the port 5000 of line 12 rendered in decimal |
| `RoomFiles.UrlRoundTrip` | index.js:46 | a URL names a stored file exactly when it is the URL built for that file, in both directions |
| `RoomFiles.Status` | index.js:55-58 | a reply is status 200 or 404, and 404 exactly for the not-found reply |
| `RoomFiles.Body` | index.js:56-58 | the JSON body has the single field `fileUrl` with the URL when found, and the single field `error` with `File not found for this room ID` when not |
| `RoomFiles.LookupIn` | index.js:54-58 | the lookup rule: the stored URL exactly when the room has an entry that is not the empty string, otherwise not-found; LookupMissingRoom and LookupFindsUploadedUrl relate it to missing rooms and to uploads |
| `RoomFiles.LookupMissingRoom` | index.js:54-58 | a room with no entry answers not-found, status 404 |
| `RoomFiles.LookupFindsUploadedUrl` | index.js:47-56 | after writing an upload's URL under a room, a lookup of that room answers exactly that URL, whatever was there before |
| `RoomFiles.RoomFileTable.constructor` | index.js:24-28 | the table starts with the given startup contents |
| `RoomFiles.RoomFileTable.Upload` | index.js:44-50 | returns `http://localhost:5000/uploads/<timestamp>-<originalName>`; the table becomes the old one with `roomId` mapped to that URL; a lookup of `roomId` then answers it, so the last write wins; every other room answers as before |
| `RoomFiles.RoomFileTable.Lookup` | index.js:53-60 | answers the stored URL exactly when the room has a non-empty entry, otherwise not-found; it changes nothing |
| `RoomRelay.Joined` | index.js:64-65 | after `join`, the room's members are the old members plus the connection; every other room is unchanged; no room is left without members |
| `RoomRelay.JoinIdempotent` | index.js:65 | joining the same room a second time leaves the membership table unchanged |
| `RoomRelay.Left` | index.js:63-71 | after a disconnect, every room's members are the old ones minus the connection, and no empty room remains (socket.io's behaviour, assumed) |
| `RoomRelay.Recipients` | index.js:69 | who `socket.to(roomId)` addresses in the Registry: never the sender, only members of the room, and every member other than the sender; Deliveries and DeliveryCount give one delivery to each |
| `RoomRelay.Deliveries` | index.js:68-69 | every delivery goes to a member of the room other than the sender and carries the scroll value unchanged, and every such member gets one |
| `RoomRelay.DeliveryCount` | index.js:69 | there are exactly as many deliveries as members other than the sender, so no one gets two |
| `RoomRelay.NoOtherMemberNoDelivery` | index.js:69 | an empty room or a room holding only the sender yields no delivery |
| `RoomRelay.NoDeliveryAfterLeaving` | index.js:69 | a disconnected connection receives no delivery in any room |
| `RoomRelay.SameRoomScenario` | index.js:64-69 | A and B join "abc"; A's scroll value 120 reaches B only, and not A |
| `RoomRelay.OtherRoomScenario` | index.js:64-69 | A joins "abc" and B joins "xyz"; A's scroll on "abc" reaches nobody |
| `RoomRelay.DisconnectScenario` | index.js:63-71 | A and B join "abc" and A disconnects; B's scroll reaches nobody |
| `RoomRelay.Registry.constructor` | index.js:15 | the registry starts with no rooms |
| `RoomRelay.Registry.Join` | index.js:64-66 | the new table is `Joined` of the old one; the connection is a member; other rooms are unchanged; the no-empty-room invariant is kept |
| `RoomRelay.Registry.ScrollSync` | index.js:68-70 | returns exactly the deliveries `(c, scrollTop)` for the members `c` of the room other than the sender, one per recipient; it modifies nothing |
| `RoomRelay.Registry.HandleScrollSync` | index.js:68-69 | corrected handler: a string `roomId` gives exactly `Deliveries` of that room; any array gives no delivery, so every delivery goes to a member of the named room other than the sender |
| `RoomRelay.Registry.Disconnect` | index.js:63-71 | the new table is `Left` of the old one: the connection is in no room afterwards, others keep their rooms, and the invariant is kept (socket.io's behaviour, assumed) |
| `SocketIoRooms.WithOwnRooms` | index.js:63 | socket.io's room table: each room has its joined members, plus the socket of the same id when one is connected |
| `SocketIoRooms.TargetRooms` | index.js:69 | the rooms a `roomId` names: a string is one room, and an array is exactly the set of its elements |
| `SocketIoRooms.Reached` | index.js:69 | socket.io's broadcast rule: only connected sockets, never a member of the sender's own room, and with no target room every connected socket except those; with target rooms, exactly the connected sockets outside the sender's own room that belong to some target room |
| `SocketIoRooms.ReachedSingleRoom` | index.js:69 | for a string `roomId`, socket.io reaches the room's connected members minus every member of the sender's own room |
| `SocketIoRooms.AgreesWithRegistry` | index.js:69 | when the sender is connected, the room is not named after a connected socket, every member of the room is connected, and nobody joined a room named after the sender, socket.io reaches exactly the Registry's recipients |
| `SocketIoRooms.ReachedOnlyConnected` | index.js:69 | whatever `roomId` is, only connected sockets are reached |
| `SocketIoRooms.NotReachedAfterDisconnect` | index.js:69 | a socket that has disconnected is reached by no later scroll-sync, even one with an empty array |
| `SocketIoRooms.OwnIdRoomReachesNonMember` | index.js:69 | a `roomId` equal to B's socket id reaches B, who joined nothing, where the Registry delivers nothing |
| `SocketIoRooms.SenderIdRoomMemberSkipped` | index.js:65-69 | B is in "abc" and also joined the room named after A; A's scroll on "abc" does not reach B, where the Registry delivers to B |
| `SocketIoRooms.EmptyArrayReachesEveryone` | index.js:68-69 | A in "abc", B in "xyz": A's scroll-sync with `roomId: []` reaches B |

## Findings

| source | as written | input that shows it | evidently intended | confidence | as-written member | corrected member |
|---|---|---|---|---|---|---|
| index.js:68-69 | the client's `roomId` goes unchecked to `socket.to`, which accepts an array and, given no room at all, sends to every connected socket but the sender | A joins "abc", B joins "xyz", A sends `scroll-sync {roomId: [], scrollTop: 120}`: B receives `scroll-update` 120 | a scroll-sync reaches only other members of the room its payload names; a `roomId` that is not a string is a malformed payload and is ignored | not executed; its behaviour as read from socket.io 4's in-memory adapter (socket.io 3 would reach nobody) | `SocketIoRooms.EmptyArrayReachesEveryone` | `RoomRelay.Registry.HandleScrollSync` |

## Left out

- HTTP, CORS and static file serving (`express`, `cors`, `express.static`, `server.listen`), and the startup log line: transport and I/O.
- multer's disk storage and the write of the uploaded file itself: a foreign library. Only the stored-name rule is modelled.
- Loading `roomMap.json` at startup and writing the table back after every upload (`fs`, `JSON.parse`, `JSON.stringify`): file I/O and a serialiser that is not modelled. The startup contents are a parameter, and any string-to-string map is accepted.
- Values in `roomMap.json` that are not strings, and a missing or non-string `roomId` in an upload request, which JavaScript would coerce to a key such as `"undefined"`: room identifiers and URLs are strings throughout.
- An upload request without a file, where `req.file.filename` would throw: the model assumes multer delivered a file.
- `Date.now()` is a parameter rather than a clock. JavaScript renders numbers of 10^21 and more in exponent form, and such clock readings are not modelled.
- The socket.io transport, the network send of each delivery, and the interleaving of connections: each event is one atomic method call, and its sends are the returned set.
- Deliveries, NoOtherMemberNoDelivery, OtherRoomScenario, SameRoomScenario, Registry.ScrollSync: these hold of the Registry, which has no per-socket rooms. Clients can send any `roomId`, and index.js:65 and :69 pass it straight to socket.io. There, a `roomId` equal to another socket's id reaches that socket. Members of the room named after the sender are skipped. An empty array reaches every connected socket. `SocketIoRooms` states these rules. `AgreesWithRegistry` gives the conditions under which the two agree. NoDeliveryAfterLeaving holds in socket.io too (`NotReachedAfterDisconnect`).
- Registry.Join and Registry.ScrollSync take a string room id. A `join-room` with an array joins each of its rooms in socket.io. The model takes single names only.
- A `scroll-sync` event without a payload makes the destructuring at index.js:68 throw a TypeError. As read from socket.io 4's event dispatch, and not executed, the listener runs in a `process.nextTick` callback. The exception is therefore uncaught, and with no `uncaughtException` handler in index.js, one such event ends the server process. The model takes the payload as an already destructured room id and scroll value. In the payload, a missing `roomId` reaches socket.io as `undefined`.
- LookupIn: models the table as a map with no inherited entries. `roomToFileMap` is a plain object (index.js:24). A lookup of a key it inherits, such as `constructor`, `toString`, `hasOwnProperty` or `__proto__`, reads the inherited, truthy value at index.js:54. Unless that key was uploaded, the source answers 200 with it, where the model answers 404.
- Upload: `ensures LookupIn(entries, roomId) == Found(url)` fails in the source for room id `__proto__`. Assigning a string there at index.js:47 changes nothing. A URL stored under the empty room id is never read back, because `GET /room-file/` does not match the route at index.js:53.
- The socket.io rules in `SocketIoRooms` assume socket.io 4. index.js pins no version: `const { Server } = require('socket.io')` and the `cors` option (index.js:7, 15-20) imply version 3 or later. The except-room rule and array targets are version 4 behaviour. In version 3, `to` takes one room and excludes only the sender, so `roomId: []` reaches nobody.
- `Disconnect` and `Left`: index.js has no disconnect handler. They model socket.io's own clean-up and are an assumption about the library, not source behaviour.
