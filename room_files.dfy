/** The room -> file table of the upload service (index.js:22-60): an upload
    stores the URL of the uploaded file under the room identifier, and a
    lookup answers that URL or "not found" (HTTP 404). */
module RoomFiles {
  import opened Wrappers
  import opened Decimal

  /** The port the server listens on; it is also written into every file URL. */
  const Port: nat := 5000

  const NotFoundStatus: nat := 404
  const NotFoundError: string := "File not found for this room ID"

  /** The answer of `GET /room-file/:roomId`: the stored URL, or not found (a 404
      whose body is `Body(NotFound)`). */
  datatype Reply = Found(fileUrl: string) | NotFound

  // ---------------------------------------------------------------------------
  // The stored file name: `Date.now() + '-' + file.originalname`.
  // ---------------------------------------------------------------------------

  /** The name the upload is stored under, from the clock reading in
      milliseconds and the client's original file name. */
  function StoredFileName(timestamp: nat, originalName: string): string {
    NatToDecimal(timestamp) + "-" + originalName
  }

  /** The index of the first `ch` in `s`, or `|s|` when there is none. */
  function IndexOf(s: string, ch: char): (i: nat)
    ensures i <= |s|
    ensures i < |s| ==> s[i] == ch
    ensures forall j :: 0 <= j < i ==> s[j] != ch
    decreases |s|
  {
    if s == [] then 0
    else if s[0] == ch then 0
    else 1 + IndexOf(s[1..], ch)
  }

  /** Splits a stored file name back into its timestamp and original name. */
  function ParseStoredFileName(f: string): Option<(nat, string)> {
    var i := IndexOf(f, '-');
    if i < |f| && IsCanonical(f[..i]) then Some((DecimalToNat(f[..i]), f[i + 1..])) else None
  }

  /** The timestamp and the original name can be read back from a stored name
      (the numeral holds no '-', so the first '-' is the separator). */
  lemma FileNameRoundTrip(timestamp: nat, originalName: string)
    ensures ParseStoredFileName(StoredFileName(timestamp, originalName)) == Some((timestamp, originalName))
  {
    var ds := NatToDecimal(timestamp);
    var f := StoredFileName(timestamp, originalName);
    var i := IndexOf(f, '-');
    assert f[|ds|] == '-';
    assert i == |ds|;
    assert f[..i] == ds;
    assert f[i + 1..] == originalName;
    DecimalRoundTrip(timestamp);
  }

  /** Every name the parser accepts is the stored name of what it returns. */
  lemma FileNameParseSound(f: string, timestamp: nat, originalName: string)
    requires ParseStoredFileName(f) == Some((timestamp, originalName))
    ensures StoredFileName(timestamp, originalName) == f
  {
    var i := IndexOf(f, '-');
    CanonicalRoundTrip(f[..i]);
    assert f == f[..i] + "-" + f[i + 1..];
  }

  /** Two uploads get the same stored name only if their clock readings and
      original names agree. */
  lemma StoredFileNameInjective(t1: nat, n1: string, t2: nat, n2: string)
    requires StoredFileName(t1, n1) == StoredFileName(t2, n2)
    ensures t1 == t2 && n1 == n2
  {
    FileNameRoundTrip(t1, n1);
    FileNameRoundTrip(t2, n2);
  }

  // ---------------------------------------------------------------------------
  // The file URL: `http://localhost:${PORT}/uploads/${filename}`.
  // ---------------------------------------------------------------------------

  function UrlPrefix(): string {
    "http://localhost:" + NatToDecimal(Port) + "/uploads/"
  }

  /** The URL string the upload handler answers for a stored name. The name is
      not percent-encoded, so this is a statement about strings only. */
  function FileUrl(fileName: string): (url: string)
    ensures url == "http://localhost:5000/uploads/" + fileName
  {
    assert NatToDecimal(5) == "5";
    assert NatToDecimal(50) == "50";
    assert NatToDecimal(500) == "500";
    assert NatToDecimal(Port) == "5000";
    UrlPrefix() + fileName
  }

  /** The inverse of FileUrl on strings: the name after the prefix, if any. */
  function FileNameOfUrl(url: string): Option<string> {
    var p := UrlPrefix();
    if |p| <= |url| && url[..|p|] == p then Some(url[|p|..]) else None
  }

  /** A URL built by FileUrl names exactly its file, and every URL that names
      a file is the one FileUrl builds for it. */
  lemma UrlRoundTrip(fileName: string, url: string)
    ensures FileNameOfUrl(url) == Some(fileName) <==> url == FileUrl(fileName)
  {
  }

  // ---------------------------------------------------------------------------
  // The lookup rule (index.js:54-58).
  // ---------------------------------------------------------------------------

  /** The reply for `roomId`: the stored URL when there is one. The source tests
      the stored value for truthiness, so an empty string also answers 404. */
  function LookupIn(table: map<string, string>, roomId: string): (reply: Reply)
    ensures reply.Found? <==> roomId in table && table[roomId] != ""
    ensures reply.Found? ==> reply.fileUrl == table[roomId]
  {
    if roomId in table && table[roomId] != "" then Found(table[roomId]) else NotFound
  }

  /** The HTTP status of a reply. */
  function Status(reply: Reply): (code: nat)
    ensures code == 200 || code == 404
    ensures code == NotFoundStatus <==> reply.NotFound?
  {
    match reply
    case Found(_) => 200
    case NotFound => NotFoundStatus
  }

  /** The fields of the JSON body sent with a reply: `{ fileUrl }` when found,
      `{ error }` with the fixed message when not. */
  function Body(reply: Reply): (body: map<string, string>)
    ensures "fileUrl" in body <==> reply.Found?
    ensures "error" in body <==> reply.NotFound?
    ensures reply.Found? ==> body["fileUrl"] == reply.fileUrl
    ensures reply.NotFound? ==> body["error"] == "File not found for this room ID"
    ensures |body| == 1
  {
    match reply
    case Found(url) => map["fileUrl" := url]
    case NotFound => map["error" := NotFoundError]
  }

  /** A room the table holds no entry for answers 404. */
  lemma LookupMissingRoom(table: map<string, string>, roomId: string)
    requires roomId !in table
    ensures LookupIn(table, roomId) == NotFound
    ensures Status(LookupIn(table, roomId)) == 404
  {
  }

  /** Every URL an upload writes is found again by a lookup of its room. */
  lemma LookupFindsUploadedUrl(table: map<string, string>, roomId: string, timestamp: nat, originalName: string)
    ensures var url := FileUrl(StoredFileName(timestamp, originalName));
            LookupIn(table[roomId := url], roomId) == Found(url)
  {
  }

  /** The in-memory table `roomToFileMap`. The startup contents read from
      `roomMap.json` are the constructor's argument; writing the table back to
      that file after each upload is I/O and is not part of this model. */
  class RoomFileTable {
    var entries: map<string, string>

    constructor (initial: map<string, string>)
      ensures entries == initial
    {
      entries := initial;
    }

    /** `POST /upload`: the clock reading `timestamp` stands for `Date.now()`.
        Stores the URL under `roomId`, replacing any earlier one, and returns it. */
    method Upload(roomId: string, timestamp: nat, originalName: string) returns (url: string)
      modifies this
      ensures url == "http://localhost:5000/uploads/" + StoredFileName(timestamp, originalName)
      ensures FileNameOfUrl(url) == Some(StoredFileName(timestamp, originalName))
      ensures entries == old(entries)[roomId := url]
      ensures LookupIn(entries, roomId) == Found(url)
      ensures forall r :: r != roomId ==> LookupIn(entries, r) == LookupIn(old(entries), r)
    {
      var fileName := StoredFileName(timestamp, originalName);
      url := FileUrl(fileName);
      UrlRoundTrip(fileName, url);
      entries := entries[roomId := url];
    }

    /** `GET /room-file/:roomId`; reads the table and changes nothing. */
    method Lookup(roomId: string) returns (reply: Reply)
      ensures reply == LookupIn(entries, roomId)
      ensures reply.Found? <==> roomId in entries && entries[roomId] != ""
      ensures reply.Found? ==> reply.fileUrl == entries[roomId]
    {
      var url := if roomId in entries then entries[roomId] else "";
      if url != "" {
        reply := Found(url);
      } else {
        reply := NotFound;
      }
    }
  }
}
