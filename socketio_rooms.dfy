/** socket.io's own room semantics, which index.js gets through `socket.join`
    (index.js:65) and `socket.to(...).emit` (index.js:69), as read from
    socket.io 4's in-memory adapter; socket.io's own code is not modelled.
    These rules differ from the Registry of RoomRelay in three ways:
    - on connect, every socket joins a room named after its own id;
    - `socket.to` leaves out every socket in the room named after the sender's
      id, not only the sender;
    - `socket.to` accepts an array of rooms, and when it is given no room at
      all it addresses every connected socket.
    The lemmas below give conditions under which the Registry's deliveries
    agree with these rules, and an input for each difference. */
module SocketIoRooms {
  import opened RoomRelay

  /** socket.io gives each connection a string id, in the same namespace as room names. */
  type SocketId = string

  /** The adapter's table: the rooms clients joined, plus the room socket.io
      puts each connected socket in, named after the socket's own id. */
  function WithOwnRooms(joined: map<RoomId, set<SocketId>>, connected: set<SocketId>): (rooms: map<RoomId, set<SocketId>>)
    ensures forall r :: MembersOf(rooms, r) == MembersOf(joined, r) + (if r in connected then {r} else {})
  {
    map r | r in joined.Keys + connected :: MembersOf(joined, r) + (if r in connected then {r} else {})
  }

  /** The rooms a `roomId` value names: a string is one room, and an array is
      its elements. */
  function TargetRooms(arg: RoomArg): (targets: set<RoomId>)
    ensures arg.Name? ==> targets == {arg.id}
    ensures arg.Names? ==> forall r :: r in targets <==> r in arg.ids
  {
    match arg
    case Name(r) => {r}
    case Names(rs) => set r | r in rs
  }

  /** The sockets `socket.to(arg).emit(...)` sends to when socket `sender`
      calls it: the members of the target rooms, or every connected socket when
      there is no target room, less every member of the room named after the
      sender's id. Either way only connected sockets are reached: the adapter
      looks each id up among the namespace's live sockets. */
  function Reached(rooms: map<RoomId, set<SocketId>>, connected: set<SocketId>, sender: SocketId, arg: RoomArg): (reached: set<SocketId>)
    ensures reached <= connected
    ensures forall c :: c in reached ==> c !in MembersOf(rooms, sender)
    ensures TargetRooms(arg) == {} ==> reached == connected - MembersOf(rooms, sender)
    ensures TargetRooms(arg) != {} ==>
      forall c :: c in reached <==> c in connected && c !in MembersOf(rooms, sender) &&
                                    exists r :: r in TargetRooms(arg) && c in MembersOf(rooms, r)
  {
    var except := MembersOf(rooms, sender);
    var targets := TargetRooms(arg);
    if targets == {} then connected - except
    else (set r, c | r in targets && c in MembersOf(rooms, r) && c in connected :: c) - except
  }

  /** For a single room name, the sockets reached are the connected members of
      that room less the members of the sender's own room. */
  lemma ReachedSingleRoom(rooms: map<RoomId, set<SocketId>>, connected: set<SocketId>, sender: SocketId, roomId: RoomId)
    ensures Reached(rooms, connected, sender, Name(roomId)) == (MembersOf(rooms, roomId) * connected) - MembersOf(rooms, sender)
  {
  }

  /** The Registry's recipients are exactly what socket.io reaches, as long as
      the room is not named after a connected socket and nobody joined a room
      named after the sender. */
  lemma AgreesWithRegistry(joined: map<RoomId, set<SocketId>>, connected: set<SocketId>, sender: SocketId, roomId: RoomId)
    requires sender in connected
    requires roomId !in connected
    requires MembersOf(joined, sender) == {}
    requires MembersOf(joined, roomId) <= connected
    ensures Reached(WithOwnRooms(joined, connected), connected, sender, Name(roomId)) == Recipients(MembersOf(joined, roomId), sender)
  {
  }

  /** Only connected sockets are reached, whatever the payload names. */
  lemma ReachedOnlyConnected(rooms: map<RoomId, set<SocketId>>, connected: set<SocketId>, sender: SocketId, arg: RoomArg)
    ensures Reached(rooms, connected, sender, arg) <= connected
  {
  }

  /** A socket that disconnected is reached by nothing, in socket.io as in the
      Registry (RoomRelay.NoDeliveryAfterLeaving). */
  lemma NotReachedAfterDisconnect(rooms: map<RoomId, set<SocketId>>, connected: set<SocketId>, c: SocketId, sender: SocketId, arg: RoomArg)
    ensures c !in Reached(Left(rooms, c), connected - {c}, sender, arg)
  {
  }

  /** A scroll-sync whose `roomId` is another socket's id reaches that socket,
      which joined no room; the Registry delivers nothing. */
  lemma OwnIdRoomReachesNonMember(a: SocketId, b: SocketId)
    requires a != b
    ensures var joined: map<RoomId, set<SocketId>> := map[];
            MembersOf(joined, b) == {} &&
            Reached(WithOwnRooms(joined, {a, b}), {a, b}, a, Name(b)) == {b}
  {
  }

  /** A member of "abc" that also joined the room named after the sender gets
      none of the sender's scrolls on "abc"; the Registry delivers to it. */
  lemma SenderIdRoomMemberSkipped(a: SocketId, b: SocketId)
    requires a != b && a != "abc" && b != "abc"
    ensures var joined := Joined(Joined(Joined(map[], a, "abc"), b, "abc"), b, a);
            Recipients(MembersOf(joined, "abc"), a) == {b} &&
            Reached(WithOwnRooms(joined, {a, b}), {a, b}, a, Name("abc")) == {}
  {
  }

  /** A and B are in different rooms; A's scroll-sync with the empty array as
      `roomId` reaches B. Room isolation fails in the handler as written. */
  lemma EmptyArrayReachesEveryone(a: SocketId, b: SocketId)
    requires a != b && a != "abc" && b != "abc" && a != "xyz" && b != "xyz"
    ensures var joined := Joined(Joined(map[], a, "abc"), b, "xyz");
            b !in MembersOf(joined, "abc") &&
            Reached(WithOwnRooms(joined, {a, b}), {a, b}, a, Names([])) == {b}
  {
  }
}
