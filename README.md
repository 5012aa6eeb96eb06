# sync4fun room registry and event handlers, in Dafny

sync4fun is a watch-party server. Each browser connection is a socket.io
socket. A watcher (socket id, display name, the media file it plays) joins
a named room. The server relays play, pause and stop commands to the other
watchers of the room. This project models two parts of it:

- **The room registry (`RoomManager`).** It maps a room name to that room's
  watchers map (watcher id -> watcher).
  - `addWatcher` has three outcomes: "already in this room", "in another
    room", or an insertion that creates the room if needed.
  - `removeWatcher` does nothing for an unregistered watcher.
  - The other operations are `findWatcherRoom`, `findWatcherById`,
    `moveWatcher` and `setRooms`/`getRooms`.
- **The per-connection handlers of `setupEvents`.** These are 'user join
  room' with its three branches and its "other error" path, 'user leave
  room', 'disconnect', and the three play-state relays.

Modules:

- `Models` (models.dfy): the `File` and `Watcher` values.
- `Membership` (membership.dfy): the registry as a value,
  `Rooms = map<RoomName, map<WatcherId, Watcher>>`.
  - It defines the operations as functions: `Classify`, `AddWatcherTo`,
    `RemoveWatcherFrom`, `MoveWatcherTo`, `RoomOf`, `WatcherById`.
  - It states the invariant `WellFormed`: each watcher id is in at most one
    room, and each watcher is keyed by its own id.
  - Its lemmas state what each operation promises and that each operation
    keeps the invariant.
- `Managers` (managers.dfy): the class `RoomManager`.
  - It holds the nested map in a field and updates it in place.
  - The two lookups are loops over the room names.
  - Each method's postcondition ties its result or the new registry to a
    `Membership` function.
  - The two exceptions of `addWatcher` become the `AddOutcome` values
    `UseThisRoom` and `UseAnotherRoom`.
- `Transport` (transport.dfy): the socket.
  - It keeps a set of joined groups and an append-only log of emissions.
  - Each emission is a (target, event name, payload) triple.
  - The target is either the sender itself or "the room, except the
    sender".
- `Events` (events.dfy): one method per handler.
  - Each method's postcondition gives the new registry, the socket's new
    groups and the exact emissions appended, in order. It does this through
    a step function (`JoinStep`, `LeaveStep`, `RelayStep`) that follows the
    handler statement by statement, including its throw paths.
  - The lemmas state what the branches do on a well-formed registry.
- `ManagersTest` (managers_test.dfy): the registry's unit-test scenarios.
  Each is a method whose postcondition is the test's assertion.

Two behaviours of the handlers are modelled as written:

- **The move passes the previous room's name.** On "in another room", the
  handler calls `moveWatcher(watcher, previousRoom.name)` (events.js:69).
  - `MoveWatcher(w, name)` moves the watcher into exactly the room it is
    given.
  - So the watcher is moved into the room it was already in.
  - The socket's groups switch to the requested room.
  - 'you joined to room' names the previous room; `Events.JoinFromAnotherRoom`
    proves this.
- **'disconnect' is the leave handler.** It runs the same steps as 'user
  leave room', including the 'you left room' emission to the departing
  socket (events.js:161).

## Model

| member | source | states |
|---|---|---|
| Membership.RoomOf | test/managersTest.js:88-99 | the room reported for a watcher id is Some exactly when some room's watchers map holds the id, and that room does hold it |
| Membership.ClassifyByRoomOf | test/managersTest.js:24-40 | on a registry with each id in at most one room: "already in this room" iff the watcher's room is the requested one; "in another room" iff it has a different room; an insertion iff it has none |
| Membership.AddPlacesWatcher | test/managersTest.js:42-66 | a successful add leaves the registry's room names as before plus the requested name; the watcher sits in the requested room, which gains exactly its id; every other room and every other watcher's room are unchanged |
| Membership.RemoveEvicts | test/managersTest.js:70-79 | after a removal no room holds the id; rooms that did not hold it are unchanged; the room that held it is dropped iff the id was its only key; every other watcher keeps its room |
| Membership.RemoveUnregisteredIsNoop | test/managersTest.js:81-85 | removing an id that no room holds leaves the registry equal to what it was |
| Membership.RemoveIdempotent | test/managersTest.js:70-85 | removing the same watcher twice gives the same registry as removing it once |
| Membership.AddThenRemoveRestores | test/managersTest.js:42-79 | removing a watcher just added restores the registry, unless it was added to a room that existed empty |
| Membership.MovePlacesWatcher | events.js:69 | a move keeps the invariant, leaves the watcher, as given, in exactly the room named by the move's argument, and leaves every other watcher in its room |
| Membership.MoveWithinHome | events.js:69 | a move into the room the watcher is already in only replaces its record in that room; no room is created or dropped and nothing else changes |
| Managers.RoomManager.constructor | test/managersTest.js:19 | a new registry is valid and has no rooms |
| Managers.RoomManager.SetRooms | test/managersTest.js:13-21 | the registry's rooms become exactly the given rooms |
| Managers.RoomManager.FindWatcherRoom | test/managersTest.js:88-99 | the loop over room names returns the room whose watchers map holds the watcher's id, or None (null) when no room does |
| Managers.RoomManager.FindWatcherById | events.js:109-112 | the loop returns the watcher registered under the id (which carries that id), or None when no room holds it |
| Managers.RoomManager.AddWatcher | test/managersTest.js:23-66 | the outcome is the classification of the old registry (the two errors leave it unchanged); otherwise the registry becomes the old one with the watcher inserted into the named room, which is created when absent; the invariant is kept |
| Managers.RoomManager.RemoveWatcher | test/managersTest.js:69-85 | the registry becomes the old one with the id removed from its room, or stays unchanged when no room holds it; the invariant is kept |
| Managers.RoomManager.MoveWatcher | events.js:69 | the registry becomes the old one with the watcher removed, then added to exactly the named room; its room is that name afterwards |
| Events.UserJoinRoom | events.js:10-106 | registry, groups and emitted events equal JoinStep of the old state: no room means nothing happens (the error is only logged); otherwise add, reconnect or move-and-join according to the add outcome |
| Events.AnnounceJoin | events.js:22-41 | appends 'you joined to room' naming the room the registry reports, then 'user joined to room' to the requested room; groups unchanged |
| Events.AnnounceReconnect | events.js:43-65 | with no registry operation: appends 'you re-connected to room', joins the requested group, then appends 'user re-connected to room' to it |
| Events.MoveAndAnnounce | events.js:66-101 | looks up the previous room before calling moveWatcher with that room's name; leaves its group and tells it 'user left room', then joins the requested group and sends the join replies |
| Events.UserLeaveRoom | events.js:108-128 | registry, groups and emitted events equal LeaveStep of the old state |
| Events.RemoveAndAnnounce | events.js:114-127 | finds the room before removing the watcher; leaves the group, sends 'you left room' to the sender, then 'user left room' with {id, name} to that room |
| Events.Disconnect | events.js:149-169 | the same postcondition as 'user leave room', 'you left room' included |
| Events.UserChangePlayState | events.js:134-147 | appends exactly one relay event for the command to the named room, excluding the sender, and nothing when the request names no room; groups unchanged and no registry in reach |
| Events.JoinAddsWatcher | events.js:14-41 | when the socket's id is in no room: the watcher has the socket's id and the request's top-level file; it ends in the requested room and joins that group; 'you joined to room' names that room and comes before 'user joined to room' |
| Events.JoinReconnects | events.js:43-65 | when the watcher is already in the requested room: the registry is unchanged, and the two reconnect events go out in order |
| Events.JoinFromAnotherRoom | events.js:66-101 | when the watcher is in another room: the registry only replaces its record in its previous room (now with the new file), so it is not in the requested one and an absent requested room is not created; groups swap the previous room for the requested one; 'user left room' to the previous room comes first, then 'you joined to room' naming the previous room, then 'user joined to room' to the requested room |
| Events.JoinKeepsWellFormed | events.js:10-106 | every join keeps each id in at most one room and leaves the watcher registered; a request without a room changes and emits nothing |
| Events.LeaveOutcome | events.js:108-128 | an unknown socket id changes and emits nothing; a known one is removed from its room, which the socket leaves, and the sender gets 'you left room' before the room gets 'user left room' |
| Events.LeaveTwiceIsInert | events.js:108-128 | a second leave after a leave changes and emits nothing |
| Events.JoinThenLeaveRestores | events.js:10-128 | a join that adds the watcher, followed by a leave, restores the registry (unless the room existed empty) and emits the two leave events for the joined room |
| ManagersTest.GetRoomsAfterSetRooms | test/managersTest.js:13-21 | getRooms after setRooms gives rooms '#1' (ids 'ID:1', 'ID:2') and '#2' (empty), keyed by name and by watcher id |
| ManagersTest.AddWatcherToOwnRoom | test/managersTest.js:24-31 | adding 'ID:1' to '#1' is "already in this room" |
| ManagersTest.AddWatcherToAnotherRoom | test/managersTest.js:33-40 | adding 'ID:1' to '#2' is "in another room" |
| ManagersTest.AddWatcherToExistingRoom | test/managersTest.js:42-51 | '#2' does not hold the new watcher before the add and does after |
| ManagersTest.AddWatcherToMissingRoom | test/managersTest.js:53-66 | 'Some room' is absent before the add, present after, and holds the watcher |
| ManagersTest.RemoveWatcherFromRoom | test/managersTest.js:70-79 | '#1' holds 'ID:1' before the removal and not after |
| ManagersTest.RemoveUnregisteredWatcher | test/managersTest.js:81-85 | removing an unregistered watcher leaves the rooms exactly as they were |
| ManagersTest.FindRoomOfMember | test/managersTest.js:89-94 | the room of 'ID:1' is '#1' |
| ManagersTest.FindRoomOfStranger | test/managersTest.js:96-99 | an unregistered watcher has no room |

## Left out

- app.js: the Express bootstrap, templating, static files and `server.listen`. It is wiring and I/O.
- managers.js and models.js are not part of this model.
  - The registry's behaviour is taken from test/managersTest.js and from the registry's design: each id is in at most one room, and a room whose last watcher leaves is dropped.
  - The test does not exercise the dropping of empty rooms.
- The `models` classes, the test factories, their name and size checks, and the `getId`/`getName` accessors are not modelled.
  - Watchers and files are plain values.
  - The names and files of the fixture's watchers are stand-ins for whatever the factories produce.
- Room identity: a room is its name and its watchers map, held by value in the registry.
  - The test's checks that "the same room object" gains or loses a watcher become checks on the entry under that room's name.
  - Aliasing of a room object held outside the registry is not modelled.
- `getRooms` is a read of the `rooms` field.
- Managers.RoomManager.SetRooms: requires that the given rooms already satisfy the invariant (each id in at most one room, keyed by its own id). The JavaScript accepts any map.
- `moveWatcher` and `findWatcherById` are specified by their effect, not by the code of managers.js, which this model does not include.
  - The move is a removal followed by an insertion into exactly the room named by its argument.
  - The lookup returns the watcher registered under the id.
- socket.io delivery is not modelled: multicast to the room's members and the connection lifecycle.
  - `join`/`leave` update the socket's group set.
  - `emit`/`to(room).emit` append to its log.
- `console.error` in the join handler's last catch branch is not modelled: it is logging only.
  - When `req.room` is missing, that branch is reached before anything is done, so the request changes nothing and emits nothing.
  - When the room lookup after a successful add returns null (events.js:28), the add and the `socket.join` have already run; the model keeps both and emits nothing.
- Exceptions raised outside the join handler's `try` (a missing `req.user` or `req.file`) and TypeErrors escaping a handler are not modelled as errors.
  - The request fields `user` and `file` are mandatory in `JoinRequest`.
  - A handler step that would dereference a null room stops there, with the effects made so far.
- The 'user updates file information' handler (events.js:130-132) has an empty body, so there is nothing to model.
- The fields of a request beyond those the handlers read are not modelled, and neither is `req.user.file`. The join handler ignores `req.user.file`.
