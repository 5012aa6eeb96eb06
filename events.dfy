/** The per-connection handlers of `setupEvents`. Each handler is a method
    over the registry and the socket, specified by a step function that gives
    the new registry value, the socket's new groups and the emissions it
    appends, in order. The step functions follow the handlers line by line,
    including the paths where a null room would throw; the lemmas below show
    which paths a well-formed registry actually takes. */
module Events {
  import opened Models
  import opened Membership
  import opened Transport
  import opened Managers

  const YouJoined := "you joined to room"
  const UserJoined := "user joined to room"
  const YouReconnected := "you re-connected to room"
  const UserReconnected := "user re-connected to room"
  const YouLeft := "you left room"
  const UserLeft := "user left room"

  /** `req.user`; a file sent under it is ignored by the handler. */
  datatype UserField = UserField(name: string, file: Option<File>)

  /** A 'user join room' request; `room` is None when `req.room` is absent. */
  datatype JoinRequest = JoinRequest(user: UserField, room: Option<RoomName>, file: File)

  /** The three play-state relay handlers. */
  datatype PlayCommand = Play | Pause | Stop

  /** A play-state request; `room` is None when `req.room` is absent. */
  datatype RelayRequest = RelayRequest(room: Option<RoomName>)

  /** What one handler invocation leaves behind: the registry value, the
      socket's groups, and the emissions it appended. */
  datatype Effect = Effect(rooms: Rooms, groups: set<RoomName>, emitted: seq<Emission>)

  /** The watcher a join request builds for socket `sid`. */
  function JoinWatcher(sid: WatcherId, req: JoinRequest): Watcher
  {
    Watcher(sid, req.user.name, File(req.file.name, req.file.size))
  }

  /** 'user join room': add the watcher; on "already in this room" send the
      reconnect notifications; on "in another room" move it, announce the
      departure, then the join. A missing `req.room` throws inside the try
      and is only logged. */
  ghost function JoinStep(v: Rooms, sid: WatcherId, groups: set<RoomName>, req: JoinRequest): Effect
  {
    var w := JoinWatcher(sid, req);
    match req.room
    case None => Effect(v, groups, [])
    case Some(name) =>
      match Classify(v, w, name)
      case Added =>
        var after := AddWatcherTo(v, w, name);
        Effect(after, groups + {name}, JoinReplies(after, w, name))
      case UseThisRoom => ReconnectStep(v, w, groups, name)
      case UseAnotherRoom => MoveStep(v, w, groups, name)
  }

  /** The replies once the watcher is in a room: 'you joined to room' with
      the room findWatcherRoom reports, then 'user joined to room' to the
      requested room; nothing when findWatcherRoom is null (it throws). */
  ghost function JoinReplies(v: Rooms, w: Watcher, name: RoomName): seq<Emission>
  {
    var me := UserView(w.id, w.name);
    match RoomOf(v, w.id)
    case None => []
    case Some(r) =>
      [Emission(Sender, YouJoined, Welcome(me, r, w.file)),
       Emission(RoomExceptSender(name), UserJoined, UserOnly(me))]
  }

  /** On "already in this room": reply, join the group, tell the room;
      no registry operation runs. */
  ghost function ReconnectStep(v: Rooms, w: Watcher, groups: set<RoomName>, name: RoomName): Effect
  {
    var me := UserView(w.id, w.name);
    match RoomOf(v, w.id)
    case None => Effect(v, groups, [])
    case Some(r) =>
      Effect(v, groups + {name},
             [Emission(Sender, YouReconnected, Welcome(me, r, w.file)),
              Emission(RoomExceptSender(name), UserReconnected, UserOnly(me))])
  }

  /** On "in another room": look the previous room up, call moveWatcher with
      that room's name, leave its group and tell it, join the requested
      group, reply with the room findWatcherRoom now reports, tell the
      requested room. */
  ghost function MoveStep(v: Rooms, w: Watcher, groups: set<RoomName>, name: RoomName): Effect
  {
    var me := UserView(w.id, w.name);
    match RoomOf(v, w.id)
    case None => Effect(v, groups, [])
    case Some(previous) =>
      var after := MoveWatcherTo(v, w, previous);
      var left := Emission(RoomExceptSender(previous), UserLeft, UserOnly(me));
      Effect(after, groups - {previous} + {name}, [left] + JoinReplies(after, w, name))
  }

  /** 'user leave room' and 'disconnect': look the socket's watcher up, then
      find its room, remove it, leave the group and notify. */
  ghost function LeaveStep(v: Rooms, sid: WatcherId, groups: set<RoomName>): Effect
  {
    match WatcherById(v, sid)
    case None => Effect(v, groups, [])
    case Some(w) => LeftStep(v, w, groups)
  }

  ghost function LeftStep(v: Rooms, w: Watcher, groups: set<RoomName>): Effect
  {
    var after := RemoveWatcherFrom(v, w.id);
    match RoomOf(v, w.id)
    case None => Effect(after, groups, [])
    case Some(r) =>
      Effect(after, groups - {r},
             [Emission(Sender, YouLeft, Empty),
              Emission(RoomExceptSender(r), UserLeft, UserOnly(UserView(w.id, w.name)))])
  }

  function RelayedEvent(cmd: PlayCommand): string
  {
    match cmd
    case Play => "user changed play state to play"
    case Pause => "user changed play state to pause"
    case Stop => "user changed play state to stop"
  }

  /** The play-state handlers relay one event to the requested room; a
      missing `req.room` throws before anything is emitted. */
  function RelayStep(cmd: PlayCommand, req: RelayRequest): seq<Emission>
  {
    match req.room
    case None => []
    case Some(name) => [Emission(RoomExceptSender(name), RelayedEvent(cmd), Empty)]
  }

  /** A successful join (the socket's id in no room) puts the watcher,
      with the request's top-level file, into the requested room, joins
      that group, replies 'you joined to room' naming that room and then
      tells the room 'user joined to room'. */
  lemma JoinAddsWatcher(v: Rooms, sid: WatcherId, groups: set<RoomName>, req: JoinRequest, name: RoomName)
    requires WellFormed(v) && !Member(v, sid) && req.room == Some(name)
    ensures var e := JoinStep(v, sid, groups, req);
      var me := UserView(sid, req.user.name);
      && e.rooms == AddWatcherTo(v, JoinWatcher(sid, req), name)
      && RoomOf(e.rooms, sid) == Some(name)
      && e.rooms[name][sid] == Watcher(sid, req.user.name, req.file)
      && e.groups == groups + {name}
      && e.emitted == [Emission(Sender, YouJoined, Welcome(me, name, req.file)),
                       Emission(RoomExceptSender(name), UserJoined, UserOnly(me))]
  {
    var w := JoinWatcher(sid, req);
    assert Classify(v, w, name) == Added;
    AddPlacesWatcher(v, w, name);
  }

  /** A join into the room the socket's watcher is already in leaves the
      registry as it was and sends the two reconnect notifications. */
  lemma JoinReconnects(v: Rooms, sid: WatcherId, groups: set<RoomName>, req: JoinRequest, name: RoomName)
    requires WellFormed(v) && req.room == Some(name) && name in v && sid in v[name]
    ensures var e := JoinStep(v, sid, groups, req);
      var me := UserView(sid, req.user.name);
      && e.rooms == v
      && e.groups == groups + {name}
      && e.emitted == [Emission(Sender, YouReconnected, Welcome(me, name, req.file)),
                       Emission(RoomExceptSender(name), UserReconnected, UserOnly(me))]
  {
    RoomOfIs(v, sid, name);
  }

  /** A join into another room than the one the watcher is in. The watcher
      is moved into its previous room (the name the handler passes to
      moveWatcher), so the registry only replaces its record there: it does
      not end up in the requested room, and an absent requested room is not
      created. Still, the socket swaps the previous group for the requested
      one; the previous room is told 'user left room' first, then the reply
      'you joined to room' names the previous room, and 'user joined to
      room' goes to the requested one. */
  lemma JoinFromAnotherRoom(v: Rooms, sid: WatcherId, groups: set<RoomName>, req: JoinRequest,
                            name: RoomName, previous: RoomName)
    requires WellFormed(v) && req.room == Some(name)
    requires previous in v && sid in v[previous] && previous != name
    ensures var e := JoinStep(v, sid, groups, req);
      var me := UserView(sid, req.user.name);
      && e.rooms == MoveWatcherTo(v, JoinWatcher(sid, req), previous)
      && e.rooms == v[previous := v[previous][sid := JoinWatcher(sid, req)]]
      && (name !in v ==> name !in e.rooms)
      && RoomOf(e.rooms, sid) == Some(previous)
      && e.rooms[previous][sid] == Watcher(sid, req.user.name, req.file)
      && (name in e.rooms ==> sid !in e.rooms[name])
      && e.groups == groups - {previous} + {name}
      && e.emitted == [Emission(RoomExceptSender(previous), UserLeft, UserOnly(me)),
                       Emission(Sender, YouJoined, Welcome(me, previous, req.file)),
                       Emission(RoomExceptSender(name), UserJoined, UserOnly(me))]
  {
    var w := JoinWatcher(sid, req);
    RoomOfIs(v, sid, previous);
    assert Classify(v, w, name) == UseAnotherRoom;
    MovePlacesWatcher(v, w, previous);
    MoveWithinHome(v, w, previous);
  }

  /** Every join keeps each watcher id in at most one room and leaves the
      socket's watcher registered; a request without a room changes
      nothing and emits nothing. */
  lemma JoinKeepsWellFormed(v: Rooms, sid: WatcherId, groups: set<RoomName>, req: JoinRequest)
    requires WellFormed(v)
    ensures var e := JoinStep(v, sid, groups, req);
      && WellFormed(e.rooms)
      && (req.room.Some? ==> Member(e.rooms, sid))
      && (req.room.None? ==> e == Effect(v, groups, []))
  {
    if req.room.Some? {
      var name := req.room.value;
      var w := JoinWatcher(sid, req);
      ClassifyByRoomOf(v, w, name);
      match Classify(v, w, name)
      case Added => JoinAddsWatcher(v, sid, groups, req, name);
      case UseThisRoom => AddKeepsWellFormed(v, w, name);
      case UseAnotherRoom =>
        JoinFromAnotherRoom(v, sid, groups, req, name, RoomOf(v, sid).value);
        MovePlacesWatcher(v, w, RoomOf(v, sid).value);
    }
  }

  /** Leave (and disconnect): an unknown socket id changes nothing and
      emits nothing; a known one is removed from its room, which the socket
      leaves, and the sender gets 'you left room' before the room gets
      'user left room'. */
  lemma LeaveOutcome(v: Rooms, sid: WatcherId, groups: set<RoomName>)
    requires WellFormed(v)
    ensures var e := LeaveStep(v, sid, groups);
      && (!Member(v, sid) ==> e == Effect(v, groups, []))
      && (Member(v, sid) ==>
            var r := RoomOf(v, sid).value;
            && e.rooms == RemoveWatcherFrom(v, sid)
            && !Member(e.rooms, sid)
            && e.groups == groups - {r}
            && e.emitted == [Emission(Sender, YouLeft, Empty),
                             Emission(RoomExceptSender(r), UserLeft, UserOnly(UserView(sid, v[r][sid].name)))])
  {
    RemoveEvicts(v, sid);
  }

  /** A second leave after a leave is inert. */
  lemma LeaveTwiceIsInert(v: Rooms, sid: WatcherId, groups: set<RoomName>)
    requires WellFormed(v)
    ensures var e := LeaveStep(v, sid, groups);
      LeaveStep(e.rooms, sid, e.groups) == Effect(e.rooms, e.groups, [])
  {
    LeaveOutcome(v, sid, groups);
    var e := LeaveStep(v, sid, groups);
    if Member(v, sid) {
      RemoveKeepsWellFormed(v, sid);
    }
    LeaveOutcome(e.rooms, sid, e.groups);
  }

  /** A join that adds the watcher followed by a leave restores the
      registry, unless the join went into a room that existed empty. */
  lemma JoinThenLeaveRestores(v: Rooms, sid: WatcherId, groups: set<RoomName>, req: JoinRequest, name: RoomName)
    requires WellFormed(v) && !Member(v, sid) && req.room == Some(name)
    requires name in v ==> v[name] != map[]
    ensures var j := JoinStep(v, sid, groups, req);
      var l := LeaveStep(j.rooms, sid, j.groups);
      && l.rooms == v
      && l.groups == groups + {name} - {name}
      && l.emitted == [Emission(Sender, YouLeft, Empty),
                       Emission(RoomExceptSender(name), UserLeft, UserOnly(UserView(sid, req.user.name)))]
  {
    var w := JoinWatcher(sid, req);
    JoinAddsWatcher(v, sid, groups, req, name);
    AddKeepsWellFormed(v, w, name);
    var j := JoinStep(v, sid, groups, req);
    LeaveOutcome(j.rooms, sid, j.groups);
    assert Classify(v, w, name) == Added;
    AddThenRemoveRestores(v, w, name);
  }

  method UserJoinRoom(manager: RoomManager, socket: Socket, req: JoinRequest)
    requires manager.Valid()
    modifies manager, socket
    ensures manager.Valid()
    ensures var e := JoinStep(old(manager.rooms), socket.id, old(socket.groups), req);
      && manager.rooms == e.rooms
      && socket.groups == e.groups
      && socket.log == old(socket.log) + e.emitted
  {
    var file := File(req.file.name, req.file.size);
    var watcher := Watcher(socket.id, req.user.name, file);
    if req.room.None? {
      return;
    }
    var name := req.room.value;
    var outcome := manager.AddWatcher(watcher, name);
    match outcome
    case Added =>
      socket.Join(name);
      AnnounceJoin(manager, socket, watcher, name);
    case UseThisRoom => AnnounceReconnect(manager, socket, watcher, name);
    case UseAnotherRoom => MoveAndAnnounce(manager, socket, watcher, name);
  }

  /** The replies that close a successful join or a move. */
  method AnnounceJoin(manager: RoomManager, socket: Socket, watcher: Watcher, name: RoomName)
    requires manager.Valid()
    modifies socket
    ensures socket.groups == old(socket.groups)
    ensures socket.log == old(socket.log) + JoinReplies(manager.rooms, watcher, name)
  {
    var me := UserView(watcher.id, watcher.name);
    var room := manager.FindWatcherRoom(watcher);
    if room.None? {
      return;
    }
    socket.Emit(YouJoined, Welcome(me, room.value, watcher.file));
    socket.EmitTo(name, UserJoined, UserOnly(me));
  }

  /** The WatcherUseThisRoomError branch of 'user join room'. */
  method AnnounceReconnect(manager: RoomManager, socket: Socket, watcher: Watcher, name: RoomName)
    requires manager.Valid()
    modifies socket
    ensures var e := ReconnectStep(manager.rooms, watcher, old(socket.groups), name);
      socket.groups == e.groups && socket.log == old(socket.log) + e.emitted
  {
    var me := UserView(watcher.id, watcher.name);
    var room := manager.FindWatcherRoom(watcher);
    if room.None? {
      return;
    }
    socket.Emit(YouReconnected, Welcome(me, room.value, watcher.file));
    socket.Join(name);
    socket.EmitTo(name, UserReconnected, UserOnly(me));
  }

  /** The WatcherUseAnotherRoomError branch of 'user join room'. */
  method MoveAndAnnounce(manager: RoomManager, socket: Socket, watcher: Watcher, name: RoomName)
    requires manager.Valid()
    modifies manager, socket
    ensures manager.Valid()
    ensures var e := MoveStep(old(manager.rooms), watcher, old(socket.groups), name);
      && manager.rooms == e.rooms
      && socket.groups == e.groups
      && socket.log == old(socket.log) + e.emitted
  {
    var me := UserView(watcher.id, watcher.name);
    var previous := manager.FindWatcherRoom(watcher);
    if previous.None? {
      return;
    }
    manager.MoveWatcher(watcher, previous.value);
    socket.Leave(previous.value);
    socket.EmitTo(previous.value, UserLeft, UserOnly(me));
    socket.Join(name);
    AnnounceJoin(manager, socket, watcher, name);
  }

  method UserLeaveRoom(manager: RoomManager, socket: Socket)
    requires manager.Valid()
    modifies manager, socket
    ensures manager.Valid()
    ensures var e := LeaveStep(old(manager.rooms), socket.id, old(socket.groups));
      && manager.rooms == e.rooms
      && socket.groups == e.groups
      && socket.log == old(socket.log) + e.emitted
  {
    var found := manager.FindWatcherById(socket.id);
    if found.None? {
      return;
    }
    RemoveAndAnnounce(manager, socket, found.value);
  }

  /** 'user leave room' once the watcher is found: find its room, remove
      it, then leave the group and notify (a null room throws). */
  method RemoveAndAnnounce(manager: RoomManager, socket: Socket, watcher: Watcher)
    requires manager.Valid()
    modifies manager, socket
    ensures manager.Valid()
    ensures var e := LeftStep(old(manager.rooms), watcher, old(socket.groups));
      && manager.rooms == e.rooms
      && socket.groups == e.groups
      && socket.log == old(socket.log) + e.emitted
  {
    var room := manager.FindWatcherRoom(watcher);
    manager.RemoveWatcher(watcher);
    if room.None? {
      return;
    }
    socket.Leave(room.value);
    socket.Emit(YouLeft, Empty);
    socket.EmitTo(room.value, UserLeft, UserOnly(UserView(watcher.id, watcher.name)));
  }

  /** 'disconnect' runs the same steps as 'user leave room'. */
  method Disconnect(manager: RoomManager, socket: Socket)
    requires manager.Valid()
    modifies manager, socket
    ensures manager.Valid()
    ensures var e := LeaveStep(old(manager.rooms), socket.id, old(socket.groups));
      && manager.rooms == e.rooms
      && socket.groups == e.groups
      && socket.log == old(socket.log) + e.emitted
  {
    UserLeaveRoom(manager, socket);
  }

  /** 'user change play state to play' / 'to pause' / 'to stop'. */
  method UserChangePlayState(socket: Socket, cmd: PlayCommand, req: RelayRequest)
    modifies socket
    ensures socket.groups == old(socket.groups)
    ensures socket.log == old(socket.log) + RelayStep(cmd, req)
  {
    if req.room.None? {
      return;
    }
    socket.EmitTo(req.room.value, RelayedEvent(cmd), Empty);
  }
}
