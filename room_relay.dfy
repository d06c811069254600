/** The scroll relay (index.js:63-71): a connection joins a room with
    `join-room`, and a `scroll-sync` from one member is forwarded as
    `scroll-update` to every other member of that room.

    In the source, rooms are socket.io's built-in grouping: `socket.join(roomId)`
    adds the socket to the room, and `socket.to(roomId).emit(...)` sends to every
    socket in the room except the sending socket. This module encodes that
    library contract as an explicit membership table, and the sends of one event
    as the set of (recipient, payload) deliveries it makes. */
module RoomRelay {

  /** Room identifiers are strings chosen by the clients, never validated. */
  type RoomId = string

  /** The `roomId` field of a `scroll-sync` payload as a client sends it: a
      string, or an array of strings, which `socket.to` accepts as well. */
  datatype RoomArg = Name(id: RoomId) | Names(ids: seq<RoomId>)

  /** The members of `roomId`; a room nobody has joined has none. */
  function MembersOf<C>(rooms: map<RoomId, set<C>>, roomId: RoomId): set<C> {
    if roomId in rooms then rooms[roomId] else {}
  }

  /** socket.io keeps no room without members, so the table holds none. */
  ghost predicate NoEmptyRoom<C>(rooms: map<RoomId, set<C>>) {
    forall r :: r in rooms ==> rooms[r] != {}
  }

  /** The table after connection `c` joins `roomId` (creating it if need be). */
  function Joined<C>(rooms: map<RoomId, set<C>>, c: C, roomId: RoomId): (rooms': map<RoomId, set<C>>)
    ensures MembersOf(rooms', roomId) == MembersOf(rooms, roomId) + {c}
    ensures forall r :: r != roomId ==> MembersOf(rooms', r) == MembersOf(rooms, r)
    ensures NoEmptyRoom(rooms) ==> NoEmptyRoom(rooms')
  {
    rooms[roomId := MembersOf(rooms, roomId) + {c}]
  }

  /** The table after connection `c` closes: socket.io drops it from every room
      and forgets the rooms left empty. This is the library's behaviour on
      disconnect; index.js itself does nothing on that event. */
  function Left<C>(rooms: map<RoomId, set<C>>, c: C): (rooms': map<RoomId, set<C>>)
    ensures forall r :: MembersOf(rooms', r) == MembersOf(rooms, r) - {c}
    ensures NoEmptyRoom(rooms')
  {
    map r | r in rooms && rooms[r] - {c} != {} :: rooms[r] - {c}
  }

  /** Who `socket.to(roomId)` addresses: the room's members but the sender. */
  function Recipients<C>(members: set<C>, sender: C): (r: set<C>)
    ensures sender !in r && r <= members && members <= r + {sender}
  {
    members - {sender}
  }

  /** The deliveries of one `scroll-update` carrying `scrollTop`, forwarded as is. */
  function Deliveries<C, T(==)>(members: set<C>, sender: C, scrollTop: T): (d: set<(C, T)>)
    ensures forall p :: p in d ==> p.0 in members && p.0 != sender && p.1 == scrollTop
    ensures forall c :: c in members && c != sender ==> (c, scrollTop) in d
  {
    set c | c in Recipients(members, sender) :: (c, scrollTop)
  }

  /** Tagging each connection of `rs` with the same payload keeps them apart. */
  lemma {:induction false} TaggedCount<C, T>(rs: set<C>, scrollTop: T)
    ensures |set c | c in rs :: (c, scrollTop)| == |rs|
    decreases |rs|
  {
    if rs != {} {
      var x :| x in rs;
      var rest := rs - {x};
      TaggedCount(rest, scrollTop);
      var all := set c | c in rs :: (c, scrollTop);
      var part := set c | c in rest :: (c, scrollTop);
      assert all == part + {(x, scrollTop)};
      assert (x, scrollTop) !in part;
    }
  }

  /** Each recipient gets exactly one delivery. */
  lemma DeliveryCount<C, T>(members: set<C>, sender: C, scrollTop: T)
    ensures |Deliveries(members, sender, scrollTop)| == |Recipients(members, sender)|
  {
    TaggedCount(Recipients(members, sender), scrollTop);
  }

  /** Joining a room one is already in changes nothing. */
  lemma JoinIdempotent<C>(rooms: map<RoomId, set<C>>, c: C, roomId: RoomId)
    ensures Joined(Joined(rooms, c, roomId), c, roomId) == Joined(rooms, c, roomId)
  {
  }

  /** A room with no member other than the sender gets no delivery. */
  lemma NoOtherMemberNoDelivery<C, T>(rooms: map<RoomId, set<C>>, sender: C, roomId: RoomId, scrollTop: T)
    requires MembersOf(rooms, roomId) <= {sender}
    ensures Deliveries(MembersOf(rooms, roomId), sender, scrollTop) == {}
  {
  }

  /** A connection that has disconnected receives no delivery in any room. */
  lemma NoDeliveryAfterLeaving<C, T>(rooms: map<RoomId, set<C>>, c: C, sender: C, roomId: RoomId, scrollTop: T)
    ensures forall p :: p in Deliveries(MembersOf(Left(rooms, c), roomId), sender, scrollTop) ==> p.0 != c
  {
  }

  /** Scenario: A and B join "abc"; A's scroll-sync of 120 reaches B alone. */
  lemma SameRoomScenario<C>(a: C, b: C)
    requires a != b
    ensures var rooms := Joined(Joined(map[], a, "abc"), b, "abc");
            Deliveries(MembersOf(rooms, "abc"), a, 120) == {(b, 120)}
  {
  }

  /** Scenario: A joins "abc" and B joins "xyz"; A's scroll-sync on "abc" reaches nobody. */
  lemma OtherRoomScenario<C>(a: C, b: C)
    requires a != b
    ensures var rooms := Joined(Joined(map[], a, "abc"), b, "xyz");
            Deliveries(MembersOf(rooms, "abc"), a, 120) == {}
  {
  }

  /** Scenario: A and B join "abc", A disconnects; B's scroll-sync reaches nobody. */
  lemma DisconnectScenario<C>(a: C, b: C)
    requires a != b
    ensures var rooms := Left(Joined(Joined(map[], a, "abc"), b, "abc"), a);
            Deliveries(MembersOf(rooms, "abc"), b, 120) == {}
  {
  }

  /** The room membership of all live connections. */
  class Registry<ConnId(==)> {
    var rooms: map<RoomId, set<ConnId>>

    /** Records that socket.io deletes a room when its last member leaves; no
        result of this class depends on it, since an absent room and an empty
        one have the same members. */
    ghost predicate Valid()
      reads this
    {
      NoEmptyRoom(rooms)
    }

    constructor ()
      ensures Valid() && rooms == map[]
    {
      rooms := map[];
    }

    /** The connections currently in `roomId`. */
    function Members(roomId: RoomId): set<ConnId>
      reads this
    {
      MembersOf(rooms, roomId)
    }

    /** `join-room` (index.js:64-65): `socket.join(roomId)`. */
    method Join(c: ConnId, roomId: RoomId)
      requires Valid()
      modifies this
      ensures Valid()
      ensures rooms == Joined(old(rooms), c, roomId)
      ensures Members(roomId) == old(Members(roomId)) + {c}
      ensures forall r :: r != roomId ==> Members(r) == old(Members(r))
    {
      rooms := Joined(rooms, c, roomId);
    }

    /** `scroll-sync` (index.js:68-69): the deliveries of
        `socket.to(roomId).emit('scroll-update', scrollTop)`. Membership is
        only read. */
    method ScrollSync<T(==)>(sender: ConnId, roomId: RoomId, scrollTop: T) returns (deliveries: set<(ConnId, T)>)
      ensures deliveries == Deliveries(Members(roomId), sender, scrollTop)
      ensures forall p :: p in deliveries ==> p.0 in Members(roomId) && p.0 != sender && p.1 == scrollTop
      ensures forall c :: c in Members(roomId) && c != sender ==> (c, scrollTop) in deliveries
      ensures |deliveries| == |Members(roomId) - {sender}|
    {
      deliveries := Deliveries(MembersOf(rooms, roomId), sender, scrollTop);
      DeliveryCount(MembersOf(rooms, roomId), sender, scrollTop);
    }

    /** `scroll-sync` with the payload's `roomId` as the client sent it. Only a
        string names a room; any other value is treated as a malformed payload
        and ignored. This is the handler as evidently intended: as written,
        index.js:69 hands an array to `socket.to`, and an empty one reaches
        every connection (SocketIoRooms.EmptyArrayReachesEveryone). */
    method HandleScrollSync<T(==)>(sender: ConnId, arg: RoomArg, scrollTop: T) returns (deliveries: set<(ConnId, T)>)
      ensures arg.Name? ==> deliveries == Deliveries(Members(arg.id), sender, scrollTop)
      ensures arg.Names? ==> deliveries == {}
      ensures forall p :: p in deliveries ==> arg.Name? && p.0 in Members(arg.id) && p.0 != sender
    {
      match arg
      case Name(roomId) =>
        deliveries := ScrollSync(sender, roomId, scrollTop);
      case Names(_) =>
        deliveries := {};
    }

    /** A closed connection leaves every room it had joined. This is socket.io's
        own clean-up, not code of index.js. */
    method Disconnect(c: ConnId)
      requires Valid()
      modifies this
      ensures Valid()
      ensures rooms == Left(old(rooms), c)
      ensures forall r :: Members(r) == old(Members(r)) - {c}
    {
      rooms := Left(rooms, c);
    }
  }
}
