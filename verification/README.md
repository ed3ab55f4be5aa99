# cellchat domain behaviours in Dafny

cellchat is a multi-room chat service built as a mesh of cells (actors) on the
tideland `cells` library. Each cell hosts a behaviour whose `ProcessEvent`
handles one event at a time over private state. This project models the chat
behaviours that sit on that mesh, and proves their properties:

- the **censor** (`services.go`): a denylist and a per-user warning counter; it
  answers CENSOR requests and privately warns refused senders;
- the **room** (`room.go`): a membership set and a moderation gate. Speech from a
  trusted sender (the public address or the room's own censor) is re-broadcast
  at once. Speech from anyone else is re-broadcast only if the censor, asked
  synchronously, answers true;
- the **building** (`building.go`): the set of its rooms, the LIST_ROOMS query
  and the public-address-only SAYS_ALL;
- the **user** and the **log user** (`user.go`): SAY becomes a SAYS_ALL to the
  room once the room exists and the user is a member;
- the wiring functions `addBuilding`, `addRoom`, `addUser` and `addLogUser`, as
  lists of environment operations.

Each behaviour's `ProcessEvent` is a step. It takes the topic, the payload and
the answers of the synchronous calls it makes (`Request`, `HasCell`), given as
`Reply = Ok(v) | Err` and a boolean. It yields an `Outcome`: the response, the
emitted events, the calls made, and a fault. An emitted event goes either to
the cell's own subscribers (`ctx.Emit`, `ctx.EmitNew`) or to a named cell
(`env.EmitNew`). The censor, the room and the building update their state in
place, so they are classes (`Services.Censor`, `Rooms.Room`,
`Buildings.Building`). Each class's `ProcessEvent` is proved against a
specification function (`CensorStep`, `RoomStep`, `BuildingStep`), and the
properties are lemmas about those functions. The user has no mutable state and
is a pure function.

Files:

- `mesh.dfy`: ids, topics, payloads and outcomes.
- `tokens.dfy`: `strings.Split(s, " ")` and its inverse.
- `services.dfy`: the censor.
- `room.dfy`: the room, `addUser` and `addLogUser`.
- `building.dfy`: the building, `addBuilding` and `addRoom`.
- `user.dfy`: the user and the log user.
- `moderation.dfy`: a room and its censor composed.
- `wiring.dfy`: what the wiring operations do to an abstract environment.

Modelling choices:

- Cell ids are the injective datatype `CellId`. There is one constructor per kind
  of id the program builds (`UserId`, `RoomId`, `CensorId`, `BuildingId`, `PaId`).
  `makeUserID(n)` is `UserId(n)`, and `PublicAddressUserID` is
  `UserId("public address")`.
- A Go payload string is either free text (`Text`, under "message") or an id
  (`Ref`, under "from", "to", "user" and "room"). A value of another kind under
  a key behaves like a failed Go type assertion: a panic.
- A panic (failed type assertion, `log.Panic`) and a returned error are both a
  fault in the outcome. An answer given before a panic is still in the outcome.
- The room's censor id is `CensorId(building, room)`, the id `Init` computes.
  The room's own id is `RoomId(building, room)`, the id `addRoom` starts it under.
- A topic is a string in Go. `Topic` is the subset of `RawTopic` in which an
  `Other` never carries one of the ten constant names, so the string "says-all"
  is always `SaysAll` and every step function sees topics as Go compares them.
- `env.EmitNew(id, ...)` delivers the event to the cell `id` itself. That is how
  `addUser`, `addRoom` and the room's join notice use it.

## Model

| member | source | states |
|---|---|---|
| `Mesh.ParseTopic` | topics.go:3-14 | reading a topic name back gives that name; a name is an `Other` topic exactly when it is none of the ten constants |
| `Mesh.DecimalValue` | services.go:64 | the digits `%d` prints for a warning count read back as that count |
| `Tokens.Split` | services.go:36 | `strings.Split(message, " ")`: at least one piece, and no piece contains a space |
| `Tokens.JoinSplit` | services.go:36 | splitting loses nothing: joining the pieces with single spaces gives the message back |
| `Tokens.SplitJoin` | services.go:36 | space-free pieces, joined and split again, come back unchanged |
| `Tokens.SplitCount` | services.go:36 | n spaces give n + 1 pieces |
| `Tokens.SplitWord` | services.go:36 | a space-free string is one piece, so punctuation and tabs stay in the piece |
| `Tokens.SplitWordThen` | services.go:36 | a space-free word followed by a space is split off as the first piece |
| `Services.Censor.constructor` | services.go:19-31 | `newCensor`: the denylist holds exactly the given words, and the warnings map is empty |
| `Services.Censor.Filter` | services.go:33-44 | `filter` answers true iff no piece of the message is denied; at the first denied piece it adds exactly one warning to the sender and stops; a refused message without an id sender panics |
| `Services.Censor.ProcessEvent` | services.go:51-71 | handles an event exactly as `CensorStep`, changing only the warnings map |
| `Services.CensorStep` | services.go:51-71 | no step changes the censor's id or denylist |
| `Services.CensorAnswer` | services.go:54-67 | the answer is the filter's verdict; after the event the sender has an entry; a `SAYS_TO` notice from the censor to the sender, carrying the new count, is sent iff the message is refused |
| `Services.RefusalChargesOne` | services.go:36-40 | a refused message adds exactly one to the sender's count, however many denied words it holds; no other count changes |
| `Services.AcceptanceChargesNothing` | services.go:58-60 | an accepted message changes no count; a sender without an entry gets one at 0 |
| `Services.CensorMonotone` | services.go:39 | warning counts never decrease and entries are never removed |
| `Services.StepCharge` | services.go:36-60 | one event adds one to a user's count iff it is a CENSOR request refused for that user, and zero otherwise |
| `Services.RunCharges` | services.go:51-71 | over any run of events, a user's count grows by exactly the number of that user's refused messages |
| `Services.PunctuationIsPartOfThePiece` | services.go:36-37 | "hell?" and "hell\tno" pass a `{"hell"}` denylist, because only whole pieces match |
| `Services.SpacedWordIsRefused` | services.go:36-37 | "what teh hell ?" is refused by `{"hell"}` |
| `Rooms.RoomStep` | room.go:52-89 | no step changes the room's name or building |
| `Rooms.Room.constructor` | room.go:27-34 | `newRoom`: no members yet, and the censored words are kept for `Init` |
| `Rooms.Room.Init` | room.go:36-39 | makes a fresh censor under the room's censor id, with exactly the room's censored words and no warnings |
| `Rooms.Room.ProcessEvent` | room.go:52-89 | handles an event exactly as `RoomStep`, changing only the users set |
| `Rooms.UserAddedAnnouncesOnce` | room.go:76-84 | a new user is added and exactly one `SAYS_ALL` "<user> has entered the room" is sent to the room's own id, from the public address, whatever reply the step is given |
| `Rooms.UserAddedIdempotent` | room.go:76-78 | `USER_ADDED` for a member changes nothing and sends nothing |
| `Rooms.AddTwice` | room.go:76-84 | adding the same user twice to an empty room leaves one member and one join notice in all, whatever replies the steps are given |
| `Rooms.InRoomReadOnly` | room.go:72-75 | `IN_ROOM` answers whether the named user is a member and changes nothing |
| `Rooms.UserCountReadOnly` | room.go:85-86 | `USER_COUNT` answers the number of members, whatever the payload, and changes nothing |
| `Rooms.TrustedBypassesCensor` | room.go:54-58 | speech from the public address or the room's censor is re-emitted unchanged, whatever the censor would answer, and the censor is not asked |
| `Rooms.UntrustedIsGated` | room.go:59-70 | any other sender's speech is sent to the censor with its own payload; it is re-emitted unchanged iff the censor answers true; a failed request is an error and nothing is emitted |
| `Rooms.SpeechKeepsMembers` | room.go:54-71 | speech events never change the membership |
| `Rooms.MembersOnlyGrow` | room.go:52-89 | membership only grows, by at most one user per event |
| `Buildings.Announce` | building.go:45-50 | `SAYS_ALL` is re-emitted iff its sender is the public address; a missing or other sender gives an error and emits nothing |
| `Buildings.RoomAddedIdempotent` | building.go:35-38 | `ROOM_ADDED` inserts the room's id; a second insert changes nothing |
| `Buildings.ListRoomsReadOnly` | building.go:39-44 | `LIST_ROOMS` answers with the listing and leaves the rooms unchanged |
| `Buildings.Building.constructor` | building.go:56-59 | a new building has no rooms |
| `Buildings.Building.ListRooms` | building.go:40-43 | the append loop lists every room exactly once and nothing else |
| `Buildings.Building.ProcessEvent` | building.go:33-53 | handles an event as `BuildingStep`, changing only the rooms set; the `LIST_ROOMS` answer lists the rooms in some order, each once |
| `Users.UserStep` | user.go:32-68 | `SAY` emits exactly one `SAYS_ALL`, to the named room with the sender overwritten by the user's id, iff the room exists and the membership request answers true. A missing room, a failed request and a non-member are each their own error. `SAYS_TO` never emits; it faults only on a non-id recipient. There is never an answer |
| `Users.SayKeepsPayload` | user.go:60-63 | the emitted payload is the SAY's payload with "from" set to the user's id and every other key unchanged; the membership question asks about the user's own id |
| `Users.LogUserStep` | user.go:74-82 | the log user never answers, emits, calls or fails |
| `Moderation.ModerationGate` | room.go:59-70 | a room and its censor together: untrusted speech is re-broadcast unchanged iff the censor accepts the message. A refused message is dropped without error, adds one to the sender's count and triggers the censor's private notice |
| `Moderation.HellIsNeverRebroadcast` | building.go:73 | a room whose censor has the `addRoom` denylist `["hell"]` never re-broadcasts untrusted speech holding the piece "hell", and the sender's count rises by one |
| `Moderation.Deliver` | room.go:59-70 | the room object and its `Init`-made censor object, handling one event in place, behave as the composed specification |
| `Wiring.BuildingSetUp` | building.go:55-70 | `addBuilding` starts the building and its public address (10-second interval) and subscribes the building to the public address |
| `Wiring.RoomSetUp` | building.go:72-83 | `addRoom` in a live building starts the room with censored words `["hell"]`, subscribes it to the public address and tells the building `ROOM_ADDED` with the room's id |
| `Wiring.RoomBeforeBuilding` | building.go:72-83 | `addRoom` before its building exists starts the room, but the subscription and the `ROOM_ADDED` notice are both lost |
| `Wiring.UserSetUp` | room.go:91-105 | `addUser` starts the user (unless it is already live), subscribes it to the room and tells the room `USER_ADDED` with the user's id |
| `Wiring.LogUserSetUp` | room.go:107-120 | `addLogUser` starts the logger, subscribes it to the room and tells the room `USER_ADDED` |
| `Wiring.ChatSetUp` | main.go:45-46 | a building, a room in it and a user in the room (`addUser` as server.go:189 calls it) give exactly these cells, the three subscription edges and the two notices, counting only the wiring's own operations: the censor cell and edge that the room's `Init` adds later are not included |

## Left out

- The cells runtime: mailboxes, the subscription graph's delivery, `Emit`/`Request`
  transport, timeouts, the `Recover`/`Terminate` hooks and crash handling. Its source
  is not part of this model. `Request` and `HasCell` answers are inputs, and
  `EmitNew` is taken never to fail inside a behaviour. `wiring.dfy` states what the
  wiring assumes of `StartCell`, `Subscribe` and `EmitNew`, over an abstract registry.
- Room `Init`'s goroutine that starts the censor cell and subscribes the room to it.
  It is a concurrency workaround. `Rooms.Room.Init` makes the censor object only, and
  `Moderation` composes the two directly.
- The public-address timer loop (`publishLoop`, `Terminate`). It is time-driven and
  its body is commented out. Only its interval is recorded.
- The websocket gateway and the HTTP handlers (`server.go`). They are I/O and
  concurrency.
- `main`, the `subscribe` logging wrapper (beyond its meaning in `wiring.dfy`),
  `payloadToValues` and `nullBehavior`. The default `ProcessEvent` of `nullBehavior`
  ignores every topic, which is the `Quiet` outcome of every unhandled topic here.
- All logging. A user's `SAYS_TO` is only logged when it is addressed to that user,
  so in the model it is `Quiet` whoever the recipient is. `USER_DISCONNECTED` is only
  logged.
- `identifier.Identifier`'s text form and normalisation. `Mesh.Render` stands for it
  in the join notice.
- Users.UserStep: a plain string (not an id) under "to", "room", "from" or "user"
  faults in the model. In Go it is still a string and would be compared or used as a
  key. Every sender in the program puts ids there.
- Services.Censor.Filter: for a refused message, a sender that is not an id string
  panics. A plain-text "from" would be counted in Go. This follows the same
  value-kind rule as above.
- The room's censor id is fixed by the room's names rather than assigned in `Init`.
  Before `Init` the Go field is empty, but no event reaches a cell before its `Init`.
- Go's random map iteration order in `LIST_ROOMS` is not modelled. Any order is
  allowed, and each room appears once.
- The vendored `monitoring/doc.go` holds only a version constant.
