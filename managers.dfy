/** The room registry (`RoomManager`): a map from room name to the room's
    watchers map (watcher id -> watcher), updated in place by its methods.
    Each method is specified by a Membership function. */
module Managers {
  import opened Models
  import opened Membership

  class RoomManager {
    var rooms: Rooms

    /** Each watcher id is in at most one room, under its own id. */
    ghost predicate Valid()
      reads this
    {
      WellFormed(rooms)
    }

    constructor ()
      ensures Valid() && rooms == map[]
    {
      rooms := map[];
    }

    /** `setRooms`: the registry takes the given rooms as its own. */
    method SetRooms(newRooms: Rooms)
      requires WellFormed(newRooms)
      modifies this
      ensures Valid() && rooms == newRooms
    {
      rooms := newRooms;
    }

    /** `findWatcherRoom`: the name of the room holding the watcher's id, or
        None for null. */
    method FindWatcherRoom(w: Watcher) returns (room: Option<RoomName>)
      requires Valid()
      ensures room == RoomOf(rooms, w.id)
    {
      var unseen := rooms.Keys;
      while unseen != {}
        invariant unseen <= rooms.Keys
        invariant forall n :: n in rooms && n !in unseen ==> w.id !in rooms[n]
        decreases unseen
      {
        var n :| n in unseen;
        if w.id in rooms[n] {
          RoomOfIs(rooms, w.id, n);
          return Some(n);
        }
        unseen := unseen - {n};
      }
      return None;
    }

    /** `findWatcherById`: the watcher registered under `id`, or None for
        null. */
    method FindWatcherById(id: WatcherId) returns (watcher: Option<Watcher>)
      requires Valid()
      ensures watcher == WatcherById(rooms, id)
      ensures watcher.Some? ==> watcher.value.id == id
    {
      var unseen := rooms.Keys;
      while unseen != {}
        invariant unseen <= rooms.Keys
        invariant forall n :: n in rooms && n !in unseen ==> id !in rooms[n]
        decreases unseen
      {
        var n :| n in unseen;
        if id in rooms[n] {
          RoomOfIs(rooms, id, n);
          return Some(rooms[n][id]);
        }
        unseen := unseen - {n};
      }
      return None;
    }

    /** `addWatcher`: UseThisRoom or UseAnotherRoom (the source's two
        exceptions) when the watcher is already registered, changing nothing;
        otherwise the watcher is inserted into the room, created if absent. */
    method AddWatcher(w: Watcher, name: RoomName) returns (outcome: AddOutcome)
      requires Valid()
      modifies this
      ensures Valid()
      ensures outcome == Classify(old(rooms), w, name)
      ensures rooms == AddWatcherTo(old(rooms), w, name)
    {
      ClassifyByRoomOf(rooms, w, name);
      AddKeepsWellFormed(rooms, w, name);
      var current := FindWatcherRoom(w);
      if current.Some? {
        if current.value == name {
          return UseThisRoom;
        }
        return UseAnotherRoom;
      }
      var watchers := if name in rooms then rooms[name] else map[];
      rooms := rooms[name := watchers[w.id := w]];
      outcome := Added;
    }

    /** `removeWatcher`: the watcher leaves the room holding it, and a room
        it leaves empty is dropped; an unregistered watcher changes nothing. */
    method RemoveWatcher(w: Watcher)
      requires Valid()
      modifies this
      ensures Valid()
      ensures rooms == RemoveWatcherFrom(old(rooms), w.id)
    {
      RemoveKeepsWellFormed(rooms, w.id);
      var current := FindWatcherRoom(w);
      if current.None? {
        RemoveUnregisteredIsNoop(rooms, w.id);
        return;
      }
      var home := current.value;
      RemoveShape(rooms, w.id, home);
      var rest := rooms[home] - {w.id};
      if rest == map[] {
        rooms := rooms - {home};
      } else {
        rooms := rooms[home := rest];
      }
    }

    /** `moveWatcher(w, name)`: the watcher leaves its room and joins the room
        called `name`, exactly the name it is given. */
    method MoveWatcher(w: Watcher, name: RoomName)
      requires Valid()
      modifies this
      ensures Valid()
      ensures rooms == MoveWatcherTo(old(rooms), w, name)
      ensures RoomOf(rooms, w.id) == Some(name)
    {
      MovePlacesWatcher(rooms, w, name);
      RemoveWatcher(w);
      var outcome := AddWatcher(w, name);
    }
  }
}
