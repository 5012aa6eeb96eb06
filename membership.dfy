/** The room registry seen as a value: room name -> (watcher id -> watcher).
    The three registry operations are defined here on that value, and the
    lemmas state what they promise: the outcome of an add, where a watcher
    ends up, that a removal evicts it and is idempotent, and that each
    operation keeps every watcher id in at most one room. */
module Membership {
  import opened Models

  type Rooms = map<RoomName, map<WatcherId, Watcher>>

  /** Some room of `v` holds the watcher id `id`. */
  predicate Member(v: Rooms, id: WatcherId)
  {
    exists n :: n in v && id in v[n]
  }

  /** Each watcher id is in at most one room. */
  predicate AtMostOneRoom(v: Rooms)
  {
    forall n1, n2, id :: n1 in v && n2 in v && id in v[n1] && id in v[n2] ==> n1 == n2
  }

  /** Every room's watchers map is keyed by the watchers' own ids. */
  predicate KeyedById(v: Rooms)
  {
    forall n, id :: n in v && id in v[n] ==> v[n][id].id == id
  }

  predicate WellFormed(v: Rooms)
  {
    AtMostOneRoom(v) && KeyedById(v)
  }

  /** The room holding `id`, or None (`findWatcherRoom` returning null). */
  ghost function RoomOf(v: Rooms, id: WatcherId): (r: Option<RoomName>)
    ensures r.Some? <==> Member(v, id)
    ensures r.Some? ==> r.value in v && id in v[r.value]
  {
    if Member(v, id) then var n :| n in v && id in v[n]; Some(n) else None
  }

  /** The watcher registered under `id`, or None (`findWatcherById`). */
  ghost function WatcherById(v: Rooms, id: WatcherId): Option<Watcher>
  {
    match RoomOf(v, id)
    case None => None
    case Some(n) => Some(v[n][id])
  }

  /** The three outcomes of `addWatcher`; the last two are the source's
      WatcherUseThisRoomError and WatcherUseAnotherRoomError. */
  datatype AddOutcome = Added | UseThisRoom | UseAnotherRoom

  function Classify(v: Rooms, w: Watcher, name: RoomName): AddOutcome
  {
    if name in v && w.id in v[name] then UseThisRoom
    else if Member(v, w.id) then UseAnotherRoom
    else Added
  }

  /** The registry after `addWatcher(w, name)`: unchanged on a conflict,
      otherwise `w` inserted into `name`, which is created when absent. */
  function AddWatcherTo(v: Rooms, w: Watcher, name: RoomName): Rooms
  {
    if Classify(v, w, name) != Added then v
    else v[name := (if name in v then v[name] else map[])[w.id := w]]
  }

  /** The registry after `removeWatcher`: `id` leaves its room, and a room
      it leaves empty is dropped; rooms not holding `id` stay as they are. */
  function RemoveWatcherFrom(v: Rooms, id: WatcherId): Rooms
  {
    map n | n in v && (id !in v[n] || v[n] - {id} != map[]) :: v[n] - {id}
  }

  /** The registry after `moveWatcher(w, name)`: `w` leaves its room and
      joins the room called `name`. */
  function MoveWatcherTo(v: Rooms, w: Watcher, name: RoomName): Rooms
  {
    AddWatcherTo(RemoveWatcherFrom(v, w.id), w, name)
  }

  lemma RoomOfIs(v: Rooms, id: WatcherId, n: RoomName)
    requires AtMostOneRoom(v) && n in v && id in v[n]
    ensures RoomOf(v, id) == Some(n)
  {
  }

  /** The shape of a removal of `id` from its room `home`. */
  lemma RemoveShape(v: Rooms, id: WatcherId, home: RoomName)
    requires AtMostOneRoom(v) && home in v && id in v[home]
    ensures var after := RemoveWatcherFrom(v, id);
      && after.Keys == (if v[home] - {id} == map[] then v.Keys - {home} else v.Keys)
      && (home in after ==> after[home] == v[home] - {id})
      && (forall n :: n in v && n != home ==> after[n] == v[n])
  {
    var after := RemoveWatcherFrom(v, id);
    forall n | n in v && n != home
      ensures n in after && after[n] == v[n]
    {
      assert id !in v[n];
      assert v[n] - {id} == v[n];
    }
  }

  /** The outcome of an add is decided by the room the watcher is in:
      the requested one, another one, or none. */
  lemma ClassifyByRoomOf(v: Rooms, w: Watcher, name: RoomName)
    requires AtMostOneRoom(v)
    ensures Classify(v, w, name) == UseThisRoom <==> RoomOf(v, w.id) == Some(name)
    ensures Classify(v, w, name) == UseAnotherRoom <==> RoomOf(v, w.id).Some? && RoomOf(v, w.id).value != name
    ensures Classify(v, w, name) == Added <==> RoomOf(v, w.id) == None
  {
    if name in v && w.id in v[name] {
      RoomOfIs(v, w.id, name);
    }
  }

  lemma AddKeepsWellFormed(v: Rooms, w: Watcher, name: RoomName)
    requires WellFormed(v)
    ensures WellFormed(AddWatcherTo(v, w, name))
  {
  }

  /** A successful add puts `w` in `name` (creating it when absent), leaves
      every other room as it was, and moves no other watcher. */
  lemma AddPlacesWatcher(v: Rooms, w: Watcher, name: RoomName)
    requires WellFormed(v) && Classify(v, w, name) == Added
    ensures var after := AddWatcherTo(v, w, name);
      && after.Keys == v.Keys + {name}
      && after[name][w.id] == w
      && RoomOf(after, w.id) == Some(name)
      && (name in v ==> after[name].Keys == v[name].Keys + {w.id})
      && (forall n :: n in v && n != name ==> after[n] == v[n])
      && (forall id :: id != w.id ==> RoomOf(after, id) == RoomOf(v, id))
  {
    var after := AddWatcherTo(v, w, name);
    AddKeepsWellFormed(v, w, name);
    RoomOfIs(after, w.id, name);
    forall id | id != w.id
      ensures RoomOf(after, id) == RoomOf(v, id)
    {
      if Member(v, id) {
        var n := RoomOf(v, id).value;
        RoomOfIs(after, id, n);
      } else {
        assert !Member(after, id);
      }
    }
  }

  lemma RemoveKeepsWellFormed(v: Rooms, id: WatcherId)
    requires WellFormed(v)
    ensures WellFormed(RemoveWatcherFrom(v, id))
  {
  }

  /** After a removal no room holds `id`; every other watcher keeps its
      room; a room that did not hold `id` is untouched, and the room that
      did is dropped exactly when `id` was its last watcher. */
  lemma RemoveEvicts(v: Rooms, id: WatcherId)
    requires WellFormed(v)
    ensures var after := RemoveWatcherFrom(v, id);
      && !Member(after, id)
      && (forall n :: n in v && id !in v[n] ==> n in after && after[n] == v[n])
      && (forall n :: n in v && id in v[n] ==> (n !in after <==> v[n].Keys == {id}))
      && (forall other :: other != id ==> RoomOf(after, other) == RoomOf(v, other))
  {
    var after := RemoveWatcherFrom(v, id);
    RemoveKeepsWellFormed(v, id);
    forall n | n in v && id !in v[n]
      ensures n in after && after[n] == v[n]
    {
      assert v[n] - {id} == v[n];
    }
    forall n | n in v && id in v[n]
      ensures n !in after <==> v[n].Keys == {id}
    {
      var rest := v[n] - {id};
      assert rest.Keys == v[n].Keys - {id};
      if rest.Keys == {} {
        assert rest == map[];
      }
    }
    forall other | other != id
      ensures RoomOf(after, other) == RoomOf(v, other)
    {
      if Member(v, other) {
        var n := RoomOf(v, other).value;
        assert other in (v[n] - {id});
        RoomOfIs(after, other, n);
      } else {
        assert !Member(after, other);
      }
    }
  }

  /** Removing a watcher that no room holds changes nothing. */
  lemma RemoveUnregisteredIsNoop(v: Rooms, id: WatcherId)
    requires !Member(v, id)
    ensures RemoveWatcherFrom(v, id) == v
  {
    var after := RemoveWatcherFrom(v, id);
    forall n | n in v
      ensures n in after && after[n] == v[n]
    {
      assert v[n] - {id} == v[n];
    }
  }

  /** Removing twice ends in the same registry as removing once. */
  lemma RemoveIdempotent(v: Rooms, id: WatcherId)
    requires WellFormed(v)
    ensures RemoveWatcherFrom(RemoveWatcherFrom(v, id), id) == RemoveWatcherFrom(v, id)
  {
    RemoveEvicts(v, id);
    RemoveUnregisteredIsNoop(RemoveWatcherFrom(v, id), id);
  }

  /** A removal undoes a successful add, unless the add went into a room
      that existed empty: that room is dropped, not restored. */
  lemma AddThenRemoveRestores(v: Rooms, w: Watcher, name: RoomName)
    requires WellFormed(v) && Classify(v, w, name) == Added
    requires name in v ==> v[name] != map[]
    ensures RemoveWatcherFrom(AddWatcherTo(v, w, name), w.id) == v
  {
    var added := AddWatcherTo(v, w, name);
    var after := RemoveWatcherFrom(added, w.id);
    forall n | n in v
      ensures n in after && after[n] == v[n]
    {
      assert w.id !in v[n];
      assert added[n] - {w.id} == v[n];
    }
    assert after.Keys == v.Keys;
  }

  /** A move lands `w` in `name`, whichever room it was in before, and
      moves no other watcher. */
  lemma MovePlacesWatcher(v: Rooms, w: Watcher, name: RoomName)
    requires WellFormed(v)
    ensures var after := MoveWatcherTo(v, w, name);
      && WellFormed(after)
      && RoomOf(after, w.id) == Some(name)
      && after[name][w.id] == w
      && (forall id :: id != w.id ==> RoomOf(after, id) == RoomOf(v, id))
  {
    var removed := RemoveWatcherFrom(v, w.id);
    RemoveEvicts(v, w.id);
    RemoveKeepsWellFormed(v, w.id);
    assert Classify(removed, w, name) == Added;
    AddPlacesWatcher(removed, w, name);
    AddKeepsWellFormed(removed, w, name);
  }

  /** A move into the room the watcher is already in only replaces the
      watcher's record there: no room is created or dropped, and every
      other room and watcher stays as it was. */
  lemma MoveWithinHome(v: Rooms, w: Watcher, home: RoomName)
    requires WellFormed(v) && home in v && w.id in v[home]
    ensures MoveWatcherTo(v, w, home) == v[home := v[home][w.id := w]]
  {
    var removed := RemoveWatcherFrom(v, w.id);
    RemoveShape(v, w.id, home);
    assert !Member(removed, w.id) by {
      forall n | n in removed
        ensures w.id !in removed[n]
      {
      }
    }
    var rest := if home in removed then removed[home] else map[];
    assert rest == v[home] - {w.id};
    assert rest[w.id := w] == v[home][w.id := w];
    var after := MoveWatcherTo(v, w, home);
    assert after == removed[home := rest[w.id := w]];
    var expected := v[home := v[home][w.id := w]];
    forall n | n in v && n != home
      ensures n in after && after[n] == expected[n]
    {
    }
    assert after.Keys == expected.Keys;
  }

}
