/** The socket.io connection as the handlers see it: the groups (rooms) the
    socket has joined, and an append-only log of what it emitted, to itself
    or to the other members of a room. Delivery itself is not modelled. */
module Transport {
  import opened Models

  /** `socket.emit` goes to the connection itself; `socket.to(room).emit`
      to every member of the room's group except the sender. */
  datatype Target = Sender | RoomExceptSender(room: RoomName)

  /** `{id, name}` of a watcher. */
  datatype UserView = UserView(id: WatcherId, name: string)

  datatype Payload =
    | Empty                                                 // {}
    | UserOnly(user: UserView)                              // {user: {id, name}}
    | Welcome(user: UserView, room: RoomName, file: File)   // {user, room: {name}, file: {name, size}}

  datatype Emission = Emission(target: Target, event: string, payload: Payload)

  class Socket {
    const id: WatcherId
    var groups: set<RoomName>
    var log: seq<Emission>

    constructor (id: WatcherId)
      ensures this.id == id && groups == {} && log == []
    {
      this.id := id;
      groups := {};
      log := [];
    }

    /** `socket.join(room)` */
    method Join(room: RoomName)
      modifies this
      ensures groups == old(groups) + {room} && log == old(log)
    {
      groups := groups + {room};
    }

    /** `socket.leave(room)` */
    method Leave(room: RoomName)
      modifies this
      ensures groups == old(groups) - {room} && log == old(log)
    {
      groups := groups - {room};
    }

    /** `socket.emit(event, payload)` */
    method Emit(event: string, payload: Payload)
      modifies this
      ensures log == old(log) + [Emission(Sender, event, payload)] && groups == old(groups)
    {
      log := log + [Emission(Sender, event, payload)];
    }

    /** `socket.to(room).emit(event, payload)` */
    method EmitTo(room: RoomName, event: string, payload: Payload)
      modifies this
      ensures log == old(log) + [Emission(RoomExceptSender(room), event, payload)] && groups == old(groups)
    {
      log := log + [Emission(RoomExceptSender(room), event, payload)];
    }
  }
}
