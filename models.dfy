/** Entities of the watch-party server: the file a watcher plays and the
    watcher itself. A room is its name and its watchers map, held by the
    registry (module Membership). */
module Models {

  datatype Option<+T> = None | Some(value: T)

  /** A watcher's id is the id of the socket it joined with. */
  type WatcherId = string

  type RoomName = string

  /** Metadata of the media file a watcher plays (`File(name, size)`). */
  datatype File = File(name: string, size: int)

  /** A participant (`Watcher(id, name, file)`). */
  datatype Watcher = Watcher(id: WatcherId, name: string, file: File)
}
