/** The shared user registry and the transport's room groups, and the
    consistency between them that every handler keeps: a connection is in a
    room's group exactly when the registry records it in that room. */
module Presence {
  import opened ChatTypes

  /** The registry: connection id to the identity it joined with. */
  type Registry = map<Id, User>

  /** The transport's room groups: room tag to the connections grouped under it. */
  type Groups = map<Room, set<Id>>

  /** The group of `room`; a room nobody was ever grouped under is empty. */
  function Group(groups: Groups, room: Room): set<Id>
  {
    if room in groups then groups[room] else {}
  }

  /** The connections the registry records in `room`. */
  function Members(users: Registry, room: Room): set<Id>
  {
    set id | id in users && users[id].room == room
  }

  /** Group membership and registry membership agree on every room. */
  ghost predicate Consistent(users: Registry, groups: Groups)
  {
    forall room :: Group(groups, room) == Members(users, room)
  }

  /** Groups connection `id` under `room` (socket.join); no other group changes. */
  function JoinGroup(groups: Groups, room: Room, id: Id): (g: Groups)
    ensures id in Group(g, room)
    ensures Group(g, room) - {id} == Group(groups, room) - {id}
    ensures forall r :: r != room ==> Group(g, r) == Group(groups, r)
  {
    groups[room := Group(groups, room) + {id}]
  }

  /** Takes connection `id` out of every group, as the transport does when the
      connection closes; nothing else leaves any group. */
  function LeaveAll(groups: Groups, id: Id): (g: Groups)
    ensures forall r :: id !in Group(g, r)
    ensures forall r, other :: other != id ==> (other in Group(g, r) <==> other in Group(groups, r))
  {
    map r | r in groups :: groups[r] - {id}
  }

  /** Before any connection, groups and registry agree trivially. */
  lemma EmptyConsistent()
    ensures Consistent(map[], map[])
  {
  }

  /** Registering a new connection in a room and grouping it under that same
      room keeps the two in agreement. */
  lemma JoinKeepsConsistent(users: Registry, groups: Groups, id: Id, u: User)
    requires Consistent(users, groups)
    requires id !in users
    ensures Consistent(users[id := u], JoinGroup(groups, u.room, id))
  {
  }

  /** Dropping a connection from the registry and from every group keeps the
      two in agreement, whether or not it was registered. */
  lemma LeaveKeepsConsistent(users: Registry, groups: Groups, id: Id)
    requires Consistent(users, groups)
    ensures Consistent(users - {id}, LeaveAll(groups, id))
  {
  }

  /** A connection that never joined is in no group, so the transport's
      leave on close changes no group. */
  lemma LeaveAllUnregistered(users: Registry, groups: Groups, id: Id)
    requires Consistent(users, groups)
    requires id !in users
    ensures forall r :: Group(LeaveAll(groups, id), r) == Group(groups, r)
  {
  }
}
