/** The two pieces of server state side by side: the room -> file table of the
    upload service and the relay's membership registry. They share only the
    room-identifier namespace; a relay event reads or writes the registry alone. */
module Server {
  import opened RoomFiles
  import opened RoomRelay

  /** A client session: A uploads a file for room "abc", A and B join "abc",
      A scrolls, B looks the file up, then A disconnects and B scrolls. The
      relay events run in between the upload and the lookups and leave the
      file table as it was. */
  method ExampleSession(table: RoomFileTable)
    modifies table
  {
    var url := table.Upload("abc", 1700000000000, "notes.pdf");
    var entriesBefore := table.entries;
    ExampleRelay();
    ExampleDisconnect();
    assert table.entries == entriesBefore;

    var reply := table.Lookup("abc");
    assert reply == Found(url);
    var other := table.Lookup("xyz");
    assert "xyz" !in old(table.entries) ==> other == NotFound;
  }

  /** The relay half of the session: A and B join "abc" (B twice), A's scroll
      reaches B alone, and an empty room list reaches nobody. */
  method ExampleRelay() {
    var relay := new Registry<int>();
    var a, b := 1, 2;
    relay.Join(a, "abc");
    relay.Join(b, "abc");
    relay.Join(b, "abc");
    assert relay.Members("abc") == {a, b};

    var sent := relay.ScrollSync(a, "abc", 120);
    assert sent == {(b, 120)};

    sent := relay.HandleScrollSync(a, Names([]), 90);
    assert sent == {};
  }

  /** After A disconnects from "abc", B's scroll reaches nobody, and neither
      does a scroll to a room nobody joined. */
  method ExampleDisconnect() {
    var relay := new Registry<int>();
    var a, b := 1, 2;
    relay.Join(a, "abc");
    relay.Join(b, "abc");
    relay.Disconnect(a);
    assert relay.Members("abc") == {b};

    var sent := relay.ScrollSync(b, "abc", 80);
    assert sent == {};
    sent := relay.ScrollSync(b, "nobody-here", 80);
    assert sent == {};
  }
}
