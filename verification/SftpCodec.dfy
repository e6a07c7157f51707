/**
 The encodings of src/sftp/mod.rs: attributes whose layout depends on their flags, packets
 with their own length prefix, and the replies the handler builds.
 */
module SftpCodec {
  import opened Bytes
  import opened Mpint
  import opened Wire
  import opened Packets
  import opened Messages

  const FXP_OPEN: byte := 3
  const FXP_CLOSE: byte := 4
  const FXP_READ: byte := 5
  const FXP_WRITE: byte := 6
  const FXP_LSTAT: byte := 7
  const FXP_OPENDIR: byte := 11
  const FXP_READDIR: byte := 12
  const FXP_REMOVE: byte := 13
  const FXP_MKDIR: byte := 14
  const FXP_RMDIR: byte := 15
  const FXP_REALPATH: byte := 16
  const FXP_STAT: byte := 17
  const FXP_STATUS: byte := 101
  const FXP_HANDLE: byte := 102
  const FXP_DATA: byte := 103
  const FXP_NAME: byte := 104
  const FXP_ATTRS: byte := 105

  const FX_OK: u32 := 0
  const FX_EOF: u32 := 1
  const FX_NO_SUCH_FILE: u32 := 2
  const FX_PERMISSION_DENIED: u32 := 3
  const FX_FAILURE: u32 := 4
  const FX_OP_UNSUPPORTED: u32 := 8

  // ---------------------------------------------------------------- attributes

  datatype FileAttrs = FileAttrs(
    flags: u32, size: Option<u64>, uid: Option<u32>, gid: Option<u32>, permissions: Option<u32>,
    atime: Option<u32>, mtime: Option<u32>)

  const DEFAULT_ATTRS := FileAttrs(0, None, None, None, None, None, None)

  /** Bit number `i` of the flags: 0 size, 1 owner, 2 permissions, 3 times. */
  predicate Bit(flags: u32, i: nat) { flags / Pow2(i) % 2 == 1 }

  function EncSize(a: FileAttrs): bytes { if a.size.Some? then BE64(a.size.value) else [] }

  function EncPair(x: Option<u32>, y: Option<u32>): bytes {
    if x.Some? && y.Some? then BE32(x.value) + BE32(y.value) else []
  }

  function EncPermissions(a: FileAttrs): bytes { if a.permissions.Some? then BE32(a.permissions.value) else [] }

  function EncAttrs(a: FileAttrs): bytes {
    BE32(a.flags) + EncSize(a) + EncPair(a.uid, a.gid) + EncPermissions(a) + EncPair(a.atime, a.mtime)
  }

  method EncodeAttrs(a: FileAttrs) returns (data: bytes)
    ensures data == EncAttrs(a)
  {
    hide BE32, BE64;
    var buf := new Buffer();
    buf.WriteU32(a.flags);
    assert buf.data == BE32(a.flags);
    if a.size.Some? {
      buf.WriteAll(BE64(a.size.value));
    }
    assert buf.data == BE32(a.flags) + EncSize(a);
    if a.uid.Some? && a.gid.Some? {
      buf.WriteU32(a.uid.value);
      buf.WriteU32(a.gid.value);
    }
    assert buf.data == BE32(a.flags) + EncSize(a) + EncPair(a.uid, a.gid);
    if a.permissions.Some? {
      buf.WriteU32(a.permissions.value);
    }
    assert buf.data == BE32(a.flags) + EncSize(a) + EncPair(a.uid, a.gid) + EncPermissions(a);
    if a.atime.Some? && a.mtime.Some? {
      buf.WriteU32(a.atime.value);
      buf.WriteU32(a.mtime.value);
    }
    data := buf.data;
    assert data == EncAttrs(a);
  }

  function TakeSize(present: bool, b: bytes): Result<Parsed<Option<u64>>> {
    if !present then Ok(Parsed(None, b))
    else
      match TakeU64(b)
      case Err(_) => Err(Sftp("Failed to read file size"))
      case Ok(n) => Ok(Parsed(Some(n.value), n.rest))
  }

  function TakePair(present: bool, b: bytes): Result<Parsed<(Option<u32>, Option<u32>)>> {
    if !present then Ok(Parsed((None, None), b))
    else
      var x :- TakeU32(b);
      var y :- TakeU32(x.rest);
      Ok(Parsed((Some(x.value), Some(y.value)), y.rest))
  }

  function TakeOne(present: bool, b: bytes): Result<Parsed<Option<u32>>> {
    if !present then Ok(Parsed(None, b))
    else
      var x :- TakeU32(b);
      Ok(Parsed(Some(x.value), x.rest))
  }

  function TakeAttrs(b: bytes): Result<Parsed<FileAttrs>> {
    var flags :- TakeU32(b);
    var f := flags.value;
    var size :- TakeSize(Bit(f, 0), flags.rest);
    var owner :- TakePair(Bit(f, 1), size.rest);
    var permissions :- TakeOne(Bit(f, 2), owner.rest);
    var times :- TakePair(Bit(f, 3), permissions.rest);
    Ok(Parsed(FileAttrs(f, size.value, owner.value.0, owner.value.1, permissions.value, times.value.0, times.value.1),
              times.rest))
  }

  method DecodeAttrs(cursor: Cursor) returns (r: Result<FileAttrs>)
    requires cursor.Valid()
    modifies cursor
    ensures cursor.Valid() && Reads(TakeAttrs(old(cursor.Rest())), r, cursor.Rest())
  {
    hide TakeU32, TakeU64, Bit;
    var flags :- cursor.ReadU32();
    var attrs := DEFAULT_ATTRS.(flags := flags);
    if Bit(flags, 0) {
      var size := cursor.ReadU64();
      if size.Err? {
        return Err(Sftp("Failed to read file size"));
      }
      attrs := attrs.(size := Some(size.value));
    }
    if Bit(flags, 1) {
      var uid :- cursor.ReadU32();
      var gid :- cursor.ReadU32();
      attrs := attrs.(uid := Some(uid), gid := Some(gid));
    }
    if Bit(flags, 2) {
      var permissions :- cursor.ReadU32();
      attrs := attrs.(permissions := Some(permissions));
    }
    if Bit(flags, 3) {
      var atime :- cursor.ReadU32();
      var mtime :- cursor.ReadU32();
      attrs := attrs.(atime := Some(atime), mtime := Some(mtime));
    }
    r := Ok(attrs);
  }

  /** The flags say which fields are there, and paired fields come in pairs. */
  predicate WellFlagged(a: FileAttrs) {
    && (Bit(a.flags, 0) <==> a.size.Some?)
    && (Bit(a.flags, 1) <==> a.uid.Some?) && (a.uid.Some? <==> a.gid.Some?)
    && (Bit(a.flags, 2) <==> a.permissions.Some?)
    && (Bit(a.flags, 3) <==> a.atime.Some?) && (a.atime.Some? <==> a.mtime.Some?)
  }

  lemma TakePairInverts(x: Option<u32>, y: Option<u32>, rest: bytes)
    requires x.Some? <==> y.Some?
    ensures TakePair(x.Some?, EncPair(x, y) + rest) == Ok(Parsed((x, y), rest))
  {
    hide BE32, TakeU32;
    if x.Some? {
      var b := EncPair(x, y) + rest;
      assert b == BE32(x.value) + (BE32(y.value) + rest);
      TakeU32Inverts(b, x.value, BE32(y.value) + rest);
      TakeU32Inverts(BE32(y.value) + rest, y.value, rest);
    } else {
      assert EncPair(x, y) + rest == rest;
    }
  }

  lemma TakeOthersInvert(a: FileAttrs, rest: bytes)
    ensures TakeSize(a.size.Some?, EncSize(a) + rest) == Ok(Parsed(a.size, rest))
    ensures TakeOne(a.permissions.Some?, EncPermissions(a) + rest) == Ok(Parsed(a.permissions, rest))
  {
    hide BE32, BE64, TakeU32, TakeU64;
    if a.size.Some? {
      TakeU64Inverts(EncSize(a) + rest, a.size.value, rest);
    } else {
      assert EncSize(a) + rest == rest;
    }
    if a.permissions.Some? {
      TakeU32Inverts(EncPermissions(a) + rest, a.permissions.value, rest);
    } else {
      assert EncPermissions(a) + rest == rest;
    }
  }

  lemma AttrsDecode(a: FileAttrs, rest: bytes)
    requires WellFlagged(a)
    ensures TakeAttrs(EncAttrs(a) + rest) == Ok(Parsed(a, rest))
  {
    hide BE32, TakeU32, TakeSize, TakePair, TakeOne, EncSize, EncPair, EncPermissions, Bit;
    var b4 := EncPair(a.atime, a.mtime) + rest;
    var b3 := EncPermissions(a) + b4;
    var b2 := EncPair(a.uid, a.gid) + b3;
    var b1 := EncSize(a) + b2;
    var b := EncAttrs(a) + rest;
    assert b == BE32(a.flags) + EncSize(a) + EncPair(a.uid, a.gid) + EncPermissions(a) + b4;
    assert b == BE32(a.flags) + EncSize(a) + EncPair(a.uid, a.gid) + b3;
    assert b == BE32(a.flags) + EncSize(a) + b2;
    assert b == BE32(a.flags) + b1;
    TakeU32Inverts(b, a.flags, b1);
    TakeOthersInvert(a, b2);
    TakePairInverts(a.uid, a.gid, b3);
    TakeOthersInvert(a, b4);
    TakePairInverts(a.atime, a.mtime, rest);
  }

  lemma DecodedIsWellFlagged(b: bytes)
    requires TakeAttrs(b).Ok?
    ensures WellFlagged(TakeAttrs(b).value.value)
  {
    hide TakeU32, TakeU64, Bit;
  }

  /** Attributes survive encoding, leaving exactly what follows them, iff their flags match their fields. */
  lemma AttrsSurviveIff(a: FileAttrs, rest: bytes)
    ensures TakeAttrs(EncAttrs(a) + rest) == Ok(Parsed(a, rest)) <==> WellFlagged(a)
  {
    hide TakeAttrs, EncAttrs, WellFlagged;
    if WellFlagged(a) {
      AttrsDecode(a, rest);
    }
    if TakeAttrs(EncAttrs(a) + rest).Ok? {
      DecodedIsWellFlagged(EncAttrs(a) + rest);
    }
  }

  datatype Metadata = Metadata(len: u64, mode: u32, uid: u32, gid: u32)

  function MetadataToAttrs(m: Metadata): FileAttrs {
    var flags := 1 + 4;
    var attrs := DEFAULT_ATTRS.(flags := flags, size := Some(m.len), permissions := Some(m.mode));
    attrs.(uid := Some(m.uid), gid := Some(m.gid), flags := attrs.flags + 2)
  }

  /** Everything the handler sends is in the domain that survives. */
  lemma HandlerAttrsAreWellFlagged(m: Metadata)
    ensures WellFlagged(MetadataToAttrs(m)) && WellFlagged(DEFAULT_ATTRS)
  {
    assert Pow2(1) == 2 && Pow2(2) == 4 && Pow2(3) == 8;
  }

  // ---------------------------------------------------------------- packets and their framing

  datatype SftpPacket = SftpPacket(packetType: byte, requestId: u32, data: bytes)

  function EncSftp(p: SftpPacket): bytes {
    BE32((5 + |p.data|) % TWO_32) + [p.packetType] + BE32(p.requestId) + p.data
  }

  function DecodeSftp(data: bytes): Result<SftpPacket> {
    if |data| < 5 then Err(Sftp("SFTP packet too short"))
    else Ok(SftpPacket(data[0], FromBE32(data[1..5]), data[5..]))
  }

  /** What the server takes out of the data of one CHANNEL_DATA message. */
  function Unwrap(data: bytes): Option<SftpPacket> {
    if |data| < 9 then None
    else
      var len := FromBE32(data[..4]);
      if len + 4 <= |data| && len >= 5 then
        match DecodeSftp(data[4..4 + len])
        case Ok(p) => Some(p)
        case Err(_) => None
      else None
  }

  /** A packet survives the server's framing with any bytes behind it. */
  lemma SftpSurvivesFraming(p: SftpPacket, trailing: bytes)
    requires 5 + |p.data| < TWO_32
    ensures Unwrap(EncSftp(p) + trailing) == Some(p)
  {
    hide BE32, FromBE32;
    var len := 5 + |p.data|;
    var data := EncSftp(p) + trailing;
    BE32Inverse(len);
    BE32Inverse(p.requestId);
    assert data[..4] == BE32(len);
    var inner := data[4..4 + len];
    assert inner == [p.packetType] + BE32(p.requestId) + p.data;
    assert inner[1..5] == BE32(p.requestId) && inner[5..] == p.data;
  }

  // ---------------------------------------------------------------- replies

  function StatusReply(id: u32, code: u32, message: str): SftpPacket {
    SftpPacket(FXP_STATUS, id, BE32(code) + EncString(message) + EncString(Ascii("en")))
  }

  function HandleReply(id: u32, handle: bytes): SftpPacket { SftpPacket(FXP_HANDLE, id, EncString(handle)) }

  function DataReply(id: u32, data: bytes): SftpPacket { SftpPacket(FXP_DATA, id, EncString(data)) }

  function AttrsReply(id: u32, a: FileAttrs): SftpPacket { SftpPacket(FXP_ATTRS, id, EncAttrs(a)) }

  datatype Entry = Entry(name: str, attrs: FileAttrs)

  function EncEntry(e: Entry): bytes { EncString(e.name) + EncString(e.name) + EncAttrs(e.attrs) }

  function EncEntries(entries: seq<Entry>): bytes {
    if entries == [] then [] else EncEntry(entries[0]) + EncEntries(entries[1..])
  }

  function NameReply(id: u32, entries: seq<Entry>): SftpPacket {
    SftpPacket(FXP_NAME, id, BE32(|entries| % TWO_32) + EncEntries(entries))
  }

  lemma {:induction false} EncEntriesAppend(entries: seq<Entry>, last: Entry)
    ensures EncEntries(entries + [last]) == EncEntries(entries) + EncEntry(last)
    decreases |entries|
  {
    hide EncEntry;
    if entries == [] {
      assert entries + [last] == [last] && [last][1..] == [];
    } else {
      EncEntriesAppend(entries[1..], last);
      assert (entries + [last])[1..] == entries[1..] + [last];
    }
  }

  method BuildSftpName(id: u32, entries: seq<Entry>) returns (p: SftpPacket)
    ensures p == NameReply(id, entries)
  {
    hide BE32, EncString, EncAttrs;
    var buf := new Buffer();
    buf.WriteU32(|entries| % TWO_32);
    ghost var head := buf.data;
    assert head == BE32(|entries| % TWO_32);
    for i := 0 to |entries|
      invariant buf.data == head + EncEntries(entries[..i])
    {
      var entry := entries[i];
      buf.WriteString(entry.name);
      buf.WriteString(entry.name);
      var encoded := EncodeAttrs(entry.attrs);
      buf.WriteAll(encoded);
      EncEntriesAppend(entries[..i], entry);
      assert entries[..i] + [entry] == entries[..i + 1];
      assert buf.data == head + EncEntries(entries[..i]) + EncEntry(entry);
    }
    assert entries[..|entries|] == entries;
    p := SftpPacket(FXP_NAME, id, buf.data);
  }

  // ---------------------------------------------------------------- name lists are unambiguous

  predicate Sound(e: Entry) { |e.name| < TWO_32 && WellFlagged(e.attrs) }

  lemma EntryPrefixFree(a: Entry, b: Entry, x: bytes, y: bytes)
    requires Sound(a) && Sound(b)
    requires EncEntry(a) + x == EncEntry(b) + y
    ensures a == b && x == y
  {
    hide EncString, EncAttrs, TakeAttrs, WellFlagged;
    var aRest, bRest := EncAttrs(a.attrs) + x, EncAttrs(b.attrs) + y;
    assert EncEntry(a) + x == EncString(a.name) + (EncString(a.name) + aRest);
    assert EncEntry(b) + y == EncString(b.name) + (EncString(b.name) + bRest);
    EncStringPrefixFree(a.name, b.name, EncString(a.name) + aRest, EncString(b.name) + bRest);
    EncStringPrefixFree(a.name, b.name, aRest, bRest);
    AttrsDecode(a.attrs, x);
    AttrsDecode(b.attrs, y);
  }

  lemma {:induction false} EntriesInjective(a: seq<Entry>, b: seq<Entry>)
    requires |a| == |b| && EncEntries(a) == EncEntries(b)
    requires forall i :: 0 <= i < |a| ==> Sound(a[i]) && Sound(b[i])
    ensures a == b
    decreases |a|
  {
    hide EncEntry, Sound;
    if a != [] {
      EntryPrefixFree(a[0], b[0], EncEntries(a[1..]), EncEntries(b[1..]));
      EntriesInjective(a[1..], b[1..]);
      assert a == [a[0]] + a[1..] && b == [b[0]] + b[1..];
    }
  }

  /** Two NAME replies of any lengths are equal only if they list the same entries. */
  lemma NameRepliesEqualIff(id: u32, a: seq<Entry>, b: seq<Entry>)
    requires |a| < TWO_32 && |b| < TWO_32
    requires forall i :: 0 <= i < |a| ==> Sound(a[i])
    requires forall i :: 0 <= i < |b| ==> Sound(b[i])
    ensures NameReply(id, a) == NameReply(id, b) <==> a == b
  {
    hide BE32, EncEntry, Sound;
    if NameReply(id, a) == NameReply(id, b) {
      var x, y := NameReply(id, a).data, NameReply(id, b).data;
      assert x[..4] == BE32(|a|) && y[..4] == BE32(|b|);
      BE32Injective(|a|, |b|);
      assert x[4..] == EncEntries(a) && y[4..] == EncEntries(b);
      EntriesInjective(a, b);
    }
  }

  /** Every READ reply, at most 32768 bytes of data, fits into one encrypted packet and reaches the peer's parser. */
  lemma ReadReplyFits(id: u32, data: bytes, recipient: u32, rnd: bytes)
    requires |data| <= 32768
    ensures var m := ChannelDataMsg(recipient, EncSftp(DataReply(id, data)));
            && Frame(Packet(CHANNEL_DATA, DataPayload(m)), AES_BLOCK_SIZE, rnd).Ok?
            && ParseData(DataPayload(m)) == Ok(m)
  {
    hide BE32, EncString, Frame, ParseData;
    var m := ChannelDataMsg(recipient, EncSftp(DataReply(id, data)));
    assert |DataPayload(m)| == 21 + |data|;
    PayloadLimits(Packet(CHANNEL_DATA, DataPayload(m)), rnd);
    DataRoundTrip(m, []);
    assert DataPayload(m) + [] == DataPayload(m);
  }

  // ---------------------------------------------------------------- what a client reads

  datatype Reported = Reported(code: u32, message: str, language: str)

  /** A STATUS as a client reads it. */
  function TakeStatus(p: SftpPacket): Option<Reported> {
    if p.packetType != 101 then None
    else
      match TakeU32(p.data)
      case Err(_) => None
      case Ok(code) =>
        match TakeUtf8(code.rest)
        case Err(_) => None
        case Ok(message) =>
          match TakeUtf8(message.rest)
          case Err(_) => None
          case Ok(language) => Some(Reported(code.value, message.value, language.value))
  }

  lemma StatusReadsBack(id: u32, code: u32, message: str)
    requires Readable(message)
    ensures var p := StatusReply(id, code, message);
            p.requestId == id && TakeStatus(p) == Some(Reported(code, message, Ascii("en")))
  {
    hide BE32, EncString, TakeU32, TakeUtf8, Ascii;
    var p, en := StatusReply(id, code, message), EncString(Ascii("en"));
    assert p.data == BE32(code) + (EncString(message) + en);
    TakeU32Iff(p.data, code, EncString(message) + en);
    TakeUtf8Iff(EncString(message) + en, message, en);
    assert en + [] == en;
    TakeUtf8Iff(en, Ascii("en"), []);
  }

  /** A name of a NAME reply as a client reads it: the file name, the long name, the attributes. */
  datatype Named = Named(name: str, longName: str, attrs: FileAttrs)

  function TakeNamed(b: bytes): Result<Parsed<Named>> {
    var name :- TakeUtf8(b);
    var longName :- TakeUtf8(name.rest);
    var attrs :- TakeAttrs(longName.rest);
    Ok(Parsed(Named(name.value, longName.value, attrs.value), attrs.rest))
  }

  function TakeAllNamed(b: bytes, n: nat): Result<Parsed<seq<Named>>>
    decreases n
  {
    hide TakeNamed, ValidUtf8;
    if n == 0 then Ok(Parsed([], b))
    else
      var first :- TakeNamed(b);
      var others :- TakeAllNamed(first.rest, n - 1);
      Ok(Parsed([first.value] + others.value, others.rest))
  }

  /** The names of a NAME reply. */
  function TakeNames(p: SftpPacket): Option<seq<Named>> {
    if p.packetType != 104 then None
    else
      match TakeU32(p.data)
      case Err(_) => None
      case Ok(count) =>
        match TakeAllNamed(count.rest, count.value)
        case Err(_) => None
        case Ok(all) => if all.rest == [] then Some(all.value) else None
  }

  predicate Listable(e: Entry) { Readable(e.name) && WellFlagged(e.attrs) }

  function AsNamed(e: Entry): Named { Named(e.name, e.name, e.attrs) }

  lemma EntryReadsBack(e: Entry, rest: bytes)
    requires Listable(e)
    ensures TakeNamed(EncEntry(e) + rest) == Ok(Parsed(AsNamed(e), rest))
  {
    hide EncString, TakeUtf8, EncAttrs, TakeAttrs, WellFlagged;
    var b := EncAttrs(e.attrs) + rest;
    assert EncEntry(e) + rest == EncString(e.name) + (EncString(e.name) + b);
    TakeUtf8Iff(EncEntry(e) + rest, e.name, EncString(e.name) + b);
    TakeUtf8Iff(EncString(e.name) + b, e.name, b);
    AttrsDecode(e.attrs, rest);
  }

  lemma {:induction false} EntriesReadBack(entries: seq<Entry>, rest: bytes)
    requires forall i :: 0 <= i < |entries| ==> Listable(entries[i])
    ensures TakeAllNamed(EncEntries(entries) + rest, |entries|)
         == Ok(Parsed(seq(|entries|, i requires 0 <= i < |entries| => AsNamed(entries[i])), rest))
    decreases |entries|
  {
    hide EncEntry, TakeNamed, Listable, AsNamed;
    var all := seq(|entries|, i requires 0 <= i < |entries| => AsNamed(entries[i]));
    if entries == [] {
      assert [] + rest == rest;
    } else {
      var b := EncEntries(entries[1..]) + rest;
      assert EncEntries(entries) + rest == EncEntry(entries[0]) + b;
      EntryReadsBack(entries[0], b);
      EntriesReadBack(entries[1..], rest);
      var tail := seq(|entries[1..]|, i requires 0 <= i < |entries[1..]| => AsNamed(entries[1..][i]));
      assert all == [AsNamed(entries[0])] + tail;
    }
  }

  /** A NAME reply reads back as the entries it was built from, in order. */
  lemma NamesReadBack(id: u32, entries: seq<Entry>)
    requires |entries| < TWO_32 && forall i :: 0 <= i < |entries| ==> Listable(entries[i])
    ensures TakeNames(NameReply(id, entries))
         == Some(seq(|entries|, i requires 0 <= i < |entries| => AsNamed(entries[i])))
  {
    hide EncEntries, TakeAllNamed, BE32, TakeU32, Listable, AsNamed;
    var p := NameReply(id, entries);
    TakeU32Iff(p.data, |entries|, EncEntries(entries));
    EntriesReadBack(entries, []);
    assert EncEntries(entries) + [] == EncEntries(entries);
  }

  /** What a CHANNEL_DATA must hold for the server to find a packet in it: the packet itself, and anything behind it. */
  lemma UnwrapsIff(data: bytes, p: SftpPacket)
    requires 5 + |p.data| < TWO_32
    ensures Unwrap(data) == Some(p) <==> EncSftp(p) <= data
  {
    hide BE32, FromBE32;
    if Unwrap(data) == Some(p) {
      var len := FromBE32(data[..4]);
      FromBE32Inverse(data[..4]);
      FromBE32Inverse(data[4..4 + len][1..5]);
      assert data[4..4 + len] == [p.packetType] + BE32(p.requestId) + p.data;
      assert data[..4 + len] == data[..4] + data[4..4 + len];
      assert EncSftp(p) == data[..4 + len];
    }
    if EncSftp(p) <= data {
      var n := |EncSftp(p)|;
      assert data == data[..n] + data[n..] && data[..n] == EncSftp(p);
      SftpSurvivesFraming(p, data[n..]);
    }
  }

  /** On the wire a packet is its length without the length itself, its type, its id and its data. */
  lemma SftpOnWire(p: SftpPacket)
    requires 5 + |p.data| < TWO_32
    ensures var b := EncSftp(p);
            && Unsigned(b[..4]) == 5 + |p.data| == |b| - 4 && b[4] == p.packetType
            && Unsigned(b[5..9]) == p.requestId && b[9..] == p.data
  {
    hide BE32, FromBE32, Unsigned;
    var b := EncSftp(p);
    assert b[..4] == BE32(5 + |p.data|) && b[5..9] == BE32(p.requestId);
    BE32Inverse(5 + |p.data|);
    BE32Inverse(p.requestId);
    BE32IsUnsigned(b[..4]);
    BE32IsUnsigned(b[5..9]);
  }

  /** What STAT sends: flags for size, owner and mode, and these in that order. */
  lemma MetadataOnWire(m: Metadata)
    ensures EncAttrs(MetadataToAttrs(m)) == BE32(7) + BE64(m.len) + (BE32(m.uid) + BE32(m.gid)) + BE32(m.mode)
  {
    hide BE32, BE64;
    var a := MetadataToAttrs(m);
    assert EncPair(a.atime, a.mtime) == [];
  }
}
