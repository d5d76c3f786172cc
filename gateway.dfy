/** The per-connection event gateway: one method per inbound event of a
    connection (connect, join, sendMessage, sendLocation, disconnect). Each
    runs to completion before the next event is handled; each changes the
    registry and the room groups as the handler does, appends the handler's
    emits to the outbox in order, and returns what the handler passes to the
    acknowledgement callback (None for a callback with no error). */
module Gateway {
  import opened ChatTypes
  import opened Presence
  import MapsLink

  const WelcomeText: string := "Welcome to the chat room"
  const JoinWelcomeText: string := "Welcome!"
  const ProfanityError: string := "Profanity is not allowed"

  /** The announcement sent to a room when `username` joins it. */
  function JoinedText(username: string): string { username + " has joined!" }

  /** The announcement sent to a room when `username` leaves it. */
  function LeftText(username: string): string { username + " has left" }

  class Server {
    /** Connections the transport currently holds open. */
    var live: set<Id>
    /** The shared user registry. */
    var users: Registry
    /** The transport's room groups. */
    var groups: Groups
    /** Every emit issued so far, in order. */
    var outbox: seq<Emit>

    /** Only open connections are registered, and the room groups agree with
        the registry on every room. */
    ghost predicate Valid()
      reads this
    {
      users.Keys <= live && Consistent(users, groups)
    }

    constructor ()
      ensures Valid()
      ensures live == {} && users == map[] && groups == map[] && outbox == []
    {
      live, users, groups, outbox := {}, map[], map[], [];
      EmptyConsistent();
    }

    /** io.to(room): every connection in the room's group, which is every
        connection the registry records in that room. */
    function Everyone(room: Room): (to: set<Id>)
      reads this
      requires Valid()
      ensures to == Members(users, room)
    {
      Group(groups, room)
    }

    /** socket.broadcast.to(room): the room's group without the sender. */
    function AllBut(room: Room, sender: Id): (to: set<Id>)
      reads this
      requires Valid()
      ensures sender !in to
      ensures to == Members(users, room) - {sender}
    {
      Group(groups, room) - {sender}
    }

    /** A new connection: a welcome goes to it alone; nothing else changes. */
    method Connect(id: Id, now: Stamp)
      requires Valid()
      requires id !in live
      modifies this
      ensures Valid()
      ensures live == old(live) + {id}
      ensures users == old(users) && groups == old(groups)
      ensures outbox == old(outbox) + [Emit(Message(Msg(None, WelcomeText, now)), {id})]
    {
      live := live + {id};
      outbox := outbox + [Emit(Message(Msg(None, WelcomeText, now)), {id})];
    }

    /** join: `added` is what addUser returned for this connection and
        `roster` what getUsersInRoom returned afterwards; `welcomedAt` and
        `joinedAt` are the clock readings that stamp the two envelopes. A failure is passed
        back unchanged and nothing else happens. On success the connection is
        grouped under the user's room, then a welcome goes to it alone, the
        join announcement to the rest of the room, and the roster to the whole
        room including the newcomer. */
    method Join(id: Id, added: AddResult, roster: seq<User>, welcomedAt: Stamp, joinedAt: Stamp) returns (ack: Option<string>)
      requires Valid()
      requires id in live && id !in users
      requires added.AddFailed? ==> added.error != ""
      modifies this
      ensures Valid()
      ensures live == old(live)
      ensures added.AddFailed? ==>
        && ack == Some(added.error)
        && users == old(users) && groups == old(groups) && outbox == old(outbox)
      ensures added.Added? ==>
        && ack == None
        && users == old(users)[id := added.user]
        && groups == JoinGroup(old(groups), added.user.room, id)
        && Everyone(added.user.room) == old(Everyone(added.user.room)) + {id}
        && outbox == old(outbox) + [
             Emit(Message(Msg(Some(System), JoinWelcomeText, welcomedAt)), {id}),
             Emit(Message(Msg(Some(System), JoinedText(added.user.username), joinedAt)),
                  AllBut(added.user.room, id)),
             Emit(RoomData(added.user.room, roster), Everyone(added.user.room))]
    {
      if added.AddFailed? {
        return Some(added.error);
      }
      var user := added.user;
      JoinKeepsConsistent(users, groups, id, user);
      users := users[id := user];
      groups := JoinGroup(groups, user.room, id);
      outbox := outbox + [Emit(Message(Msg(Some(System), JoinWelcomeText, welcomedAt)), {id})];
      outbox := outbox + [Emit(Message(Msg(Some(System), JoinedText(user.username), joinedAt)),
                               AllBut(user.room, id))];
      outbox := outbox + [Emit(RoomData(user.room, roster), Everyone(user.room))];
      ack := None;
    }

    /** sendMessage: `profane` is the filter's verdict on `text`. Flagged
        text is refused with nothing emitted; otherwise the text goes
        unchanged, under the sender's username, to the sender's whole room.
        The refusal does not look at the sender, so a connection that never
        joined gets it too. */
    method SendMessage(id: Id, text: string, profane: bool, now: Stamp) returns (ack: Option<string>)
      requires Valid()
      requires id in users || profane
      modifies this`outbox
      ensures Valid()
      ensures profane ==> ack == Some(ProfanityError) && outbox == old(outbox)
      ensures !profane ==>
        && ack == None
        && outbox == old(outbox) +
             [Emit(Message(Msg(Some(users[id].username), text, now)), Everyone(users[id].room))]
    {
      if profane {
        return Some(ProfanityError);
      }
      var user := users[id];
      outbox := outbox + [Emit(Message(Msg(Some(user.username), text, now)), Everyone(user.room))];
      ack := None;
    }

    /** sendLocation: the map link for the coordinates, unchecked, goes under
        the sender's username to the sender's whole room; the callback never
        gets an error. */
    method SendLocation(id: Id, coords: MapsLink.Coords, now: Stamp) returns (ack: Option<string>)
      requires Valid()
      requires id in users
      modifies this`outbox
      ensures Valid()
      ensures ack == None
      ensures outbox == old(outbox) +
        [Emit(LocationMessage(LocationMsg(users[id].username, MapsLink.Url(coords), now)),
              Everyone(users[id].room))]
    {
      var user := users[id];
      outbox := outbox + [Emit(LocationMessage(LocationMsg(user.username, MapsLink.Url(coords), now)),
                               Everyone(user.room))];
      ack := None;
    }

    /** disconnect: the transport has already taken the connection out of
        every group; the handler then removes it from the registry. A
        connection that never joined causes no emit. One that did sends its
        room the leave announcement and then `roster` (what getUsersInRoom
        returned after the removal), both to the members that remain. */
    method Disconnect(id: Id, roster: seq<User>, now: Stamp)
      requires Valid()
      requires id in live
      modifies this
      ensures Valid()
      ensures live == old(live) - {id}
      ensures users == old(users) - {id}
      ensures groups == LeaveAll(old(groups), id)
      ensures id !in old(users) ==>
        && outbox == old(outbox)
        && forall r :: Group(groups, r) == Group(old(groups), r)
      ensures id in old(users) ==>
        && Everyone(old(users)[id].room) == old(Everyone(users[id].room)) - {id}
        && outbox == old(outbox) + [
             Emit(Message(Msg(Some(System), LeftText(old(users)[id].username), now)),
                  Everyone(old(users)[id].room)),
             Emit(RoomData(old(users)[id].room, roster), Everyone(old(users)[id].room))]
    {
      if id !in users {
        LeaveAllUnregistered(users, groups, id);
      }
      LeaveKeepsConsistent(users, groups, id);
      groups := LeaveAll(groups, id);
      live := live - {id};
      var removed := if id in users then Some(users[id]) else None;
      users := users - {id};
      if removed.Some? {
        var user := removed.value;
        outbox := outbox + [Emit(Message(Msg(Some(System), LeftText(user.username), now)),
                                 Everyone(user.room))];
        outbox := outbox + [Emit(RoomData(user.room, roster), Everyone(user.room))];
      }
    }
  }

  /** Two connections join "general"; the first disconnects: the leave
      announcement and the roster reach the second alone. */
  method LeaveReachesOnlyRemaining(a: Id, b: Id, now: Stamp) returns (leave: seq<Emit>)
    requires a != b
    ensures leave == [
      Emit(Message(Msg(Some(System), "A has left", now)), {b}),
      Emit(RoomData("general", [User("B", "general")]), {b})]
  {
    var s := new Server();
    s.Connect(a, now);
    s.Connect(b, now);
    var ackA := s.Join(a, Added(User("A", "general")), [User("A", "general")], now, now);
    var ackB := s.Join(b, Added(User("B", "general")), [User("A", "general"), User("B", "general")], now, now);
    assert ackA == None && ackB == None;
    var sent := |s.outbox|;
    assert a in s.users && s.users[a] == User("A", "general");
    s.Disconnect(a, [User("B", "general")], now);
    assert s.Everyone("general") == {b};
    assert LeftText("A") == "A has left";
    leave := s.outbox[sent..];
  }

  /** Two connections in "general"; one sends a message: it reaches the sender
      and the other member. Flagged text, from a member or from a connection
      that never joined, is refused and adds nothing to the outbox. */
  method MessageReachesWholeRoom(a: Id, b: Id, c: Id, now: Stamp)
    returns (delivered: seq<Emit>, refused: Option<string>, stranger: Option<string>, afterRefusals: seq<Emit>)
    requires a != b && c != a && c != b
    ensures delivered == [Emit(Message(Msg(Some("B"), "hello", now)), {a, b})]
    ensures refused == Some(ProfanityError)
    ensures stranger == Some(ProfanityError)
    ensures afterRefusals == []
  {
    var s := new Server();
    s.Connect(a, now);
    s.Connect(b, now);
    s.Connect(c, now);
    var ackA := s.Join(a, Added(User("A", "general")), [User("A", "general")], now, now);
    var ackB := s.Join(b, Added(User("B", "general")), [User("A", "general"), User("B", "general")], now, now);
    var sent := |s.outbox|;
    var ack := s.SendMessage(b, "hello", false, now);
    assert ack == None;
    assert s.Everyone("general") == {a, b};
    delivered := s.outbox[sent..];
    refused := s.SendMessage(b, "rude", true, now);
    stranger := s.SendMessage(c, "rude", true, now);
    afterRefusals := s.outbox[sent + 1..];
  }
}
