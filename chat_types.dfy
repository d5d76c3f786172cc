/** Values exchanged between the connection handler, the presence registry
    and the transport: users, message envelopes, outbound events and the
    fan-out records the gateway produces. */
module ChatTypes {

  datatype Option<T> = None | Some(value: T)

  /** A connection identifier (socket.id), assigned by the transport. */
  type Id = string

  /** A room tag, in the form the registry stored it. */
  type Room = string

  /** Milliseconds since the epoch, read from the wall clock by the caller. */
  type Stamp = int

  /** One connection's chat identity, as the registry hands it back. */
  datatype User = User(username: string, room: Room)

  /** What addUser returns: an error string or the registered user. */
  datatype AddResult = AddFailed(error: string) | Added(user: User)

  /** A text message envelope; the welcome sent on connect carries no username. */
  datatype Msg = Msg(username: Option<string>, text: string, createdAt: Stamp)

  /** A shared-location envelope. */
  datatype LocationMsg = LocationMsg(username: string, url: string, createdAt: Stamp)

  /** An outbound event with its payload; the constructors stand for the
      wire events `message`, `locationMessage` and `roomData`. */
  datatype Event =
    | Message(msg: Msg)
    | LocationMessage(location: LocationMsg)
    | RoomData(room: Room, users: seq<User>)

  /** One emit: the event and the exact set of connections it is delivered to. */
  datatype Emit = Emit(event: Event, to: set<Id>)

  /** The username the server signs its own announcements with. */
  const System: string := "System"
}
