/** The scenarios of the registry's unit tests, each a method that builds a
    fresh registry from the test fixture, runs one operation and returns
    what the test asserts on; the ensures clauses are the test's
    assertions. */
module ManagersTest {
  import opened Models
  import opened Membership
  import opened Managers

  /** The fixture's watchers: two watchers with ids 'ID:1' and 'ID:2'. */
  const First := Watcher("ID:1", "Watcher 1", File("movie.mp4", 1024))
  const Second := Watcher("ID:2", "Watcher 2", File("movie.mp4", 1024))

  /** A watcher no room holds. */
  const Stranger := Watcher("123", "Some name", File("movie.mp4", 1024))

  /** Two rooms, '#1' holding both watchers and '#2' empty. */
  function Fixture(): (v: Rooms)
    ensures WellFormed(v)
  {
    map["#1" := map[First.id := First, Second.id := Second], "#2" := map[]]
  }

  /** `beforeEach`: a new registry given the fixture with `setRooms`. */
  method NewManager() returns (manager: RoomManager)
    ensures fresh(manager) && manager.Valid() && manager.rooms == Fixture()
  {
    manager := new RoomManager();
    manager.SetRooms(Fixture());
  }

  /** `getRooms` after `setRooms` gives back the rooms keyed by name, each
      keyed by watcher id. */
  method GetRoomsAfterSetRooms() returns (rooms: Rooms)
    ensures rooms.Keys == {"#1", "#2"}
    ensures rooms["#1"].Keys == {"ID:1", "ID:2"} && rooms["#2"] == map[]
    ensures forall n, id :: n in rooms && id in rooms[n] ==> rooms[n][id].id == id
  {
    var manager := NewManager();
    rooms := manager.rooms;
  }

  /** Adding a watcher to the room it is in is "already in this room". */
  method AddWatcherToOwnRoom() returns (outcome: AddOutcome)
    ensures outcome == UseThisRoom
  {
    var manager := NewManager();
    var watcher := manager.rooms["#1"]["ID:1"];
    outcome := manager.AddWatcher(watcher, "#1");
  }

  /** Adding a watcher of '#1' to '#2' is "in another room". */
  method AddWatcherToAnotherRoom() returns (outcome: AddOutcome)
    ensures outcome == UseAnotherRoom
  {
    var manager := NewManager();
    var watcher := manager.rooms["#1"]["ID:1"];
    outcome := manager.AddWatcher(watcher, "#2");
  }

  /** An unregistered watcher added to '#2' is in it afterwards, and was not
      before. */
  method AddWatcherToExistingRoom() returns (before: bool, after: bool)
    ensures !before && after
  {
    var manager := NewManager();
    before := Stranger.id in manager.rooms["#2"];
    var outcome := manager.AddWatcher(Stranger, "#2");
    after := "#2" in manager.rooms && Stranger.id in manager.rooms["#2"];
  }

  /** An unregistered watcher added under an absent room name makes that
      room appear, holding the watcher. */
  method AddWatcherToMissingRoom() returns (existed: bool, present: bool, holds: bool)
    ensures !existed && present && holds
  {
    var manager := NewManager();
    existed := "Some room" in manager.rooms;
    var outcome := manager.AddWatcher(Stranger, "Some room");
    present := "Some room" in manager.rooms;
    holds := present && Stranger.id in manager.rooms["Some room"];
  }

  /** Removing a member of '#1' takes its id out of '#1'. */
  method RemoveWatcherFromRoom() returns (before: bool, after: bool)
    ensures before && !after
  {
    var manager := NewManager();
    var watcher := manager.rooms["#1"]["ID:1"];
    before := watcher.id in manager.rooms["#1"];
    manager.RemoveWatcher(watcher);
    after := "#1" in manager.rooms && watcher.id in manager.rooms["#1"];
  }

  /** Removing an unregistered watcher changes nothing. */
  method RemoveUnregisteredWatcher() returns (rooms: Rooms)
    ensures rooms == Fixture()
  {
    var manager := NewManager();
    RemoveUnregisteredIsNoop(Fixture(), Stranger.id);
    manager.RemoveWatcher(Stranger);
    rooms := manager.rooms;
  }

  /** The room of a member of '#1' is '#1'. */
  method FindRoomOfMember() returns (room: Option<RoomName>)
    ensures room == Some("#1")
  {
    var manager := NewManager();
    var watcher := manager.rooms["#1"]["ID:1"];
    room := manager.FindWatcherRoom(watcher);
  }

  /** An unregistered watcher has no room (null). */
  method FindRoomOfStranger() returns (room: Option<RoomName>)
    ensures room == None
  {
    var manager := NewManager();
    room := manager.FindWatcherRoom(Stranger);
  }
}
