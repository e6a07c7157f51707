/**
 Every request of the SFTP handler, as a client builds it, against the answer as a client reads it.
 */
module SftpAnswers {
  import opened Bytes
  import opened Wire
  import opened SftpCodec
  import opened SftpPaths
  import opened SftpFiles
  import opened SftpHandler
  import opened SftpRuns

  // ---------------------------------------------------------------- requests and answers

  /** A request that starts with a path or a handle. */
  function Asks(kind: byte, id: u32, first: bytes, rest: bytes): SftpPacket {
    SftpPacket(kind, id, EncString(first) + rest)
  }

  function AsksWrite(id: u32, handle: bytes, offset: u64, data: bytes, rest: bytes): SftpPacket {
    Asks(6, id, handle, BE64(offset) + (EncString(data) + rest))
  }

  function AsksRead(id: u32, handle: bytes, offset: u64, length: u32, rest: bytes): SftpPacket {
    Asks(5, id, handle, BE64(offset) + (BE32(length) + rest))
  }

  function AsksOpen(id: u32, path: str, flags: u32, rest: bytes): SftpPacket { Asks(3, id, path, BE32(flags) + rest) }

  /** The reply is a status under the request's id. */
  predicate Says(reply: SftpPacket, id: u32, code: u32, message: string) {
    reply.requestId == id && TakeStatus(reply) == Some(Reported(code, Ascii(message), Ascii("en")))
  }

  lemma StatusSays(s: State, id: u32, code: u32, message: string)
    requires |message| <= 100
    ensures Status(s, id, code, message).state == s && Says(Status(s, id, code, message).reply, id, code, message)
  {
    hide StatusReply, TakeStatus, Ascii;
    StatusReadsBack(id, code, Ascii(message));
  }

  lemma PathTaken(kind: byte, id: u32, path: str, rest: bytes)
    requires Readable(path)
    ensures TakeUtf8(Asks(kind, id, path, rest).data) == Ok(Parsed(path, rest))
  {
    hide TakeUtf8, EncString;
    TakeUtf8Iff(EncString(path) + rest, path, rest);
  }

  lemma HandleTaken(kind: byte, id: u32, handle: bytes, rest: bytes)
    requires Readable(handle)
    ensures TakeString(Asks(kind, id, handle, rest).data) == Ok(Parsed(handle, rest))
  {
    hide TakeString, EncString;
    TakeStringIff(EncString(handle) + rest, handle, rest);
  }

  /** Which handler a request goes to. */
  lemma Dispatch(s: State, p: SftpPacket, io: Io)
    ensures p.packetType == 16 ==> Handled(s, p, io) == OnRealpath(s, p, io)
    ensures p.packetType == 17 || p.packetType == 7 ==> Handled(s, p, io) == OnStat(s, p, io)
    ensures p.packetType == 11 ==> Handled(s, p, io) == OnOpendir(s, p, io)
    ensures p.packetType == 12 ==> Handled(s, p, io) == OnReaddir(s, p, io)
    ensures p.packetType == 4 ==> Handled(s, p, io) == OnClose(s, p)
    ensures p.packetType == 3 ==> Handled(s, p, io) == OnOpen(s, p, io)
    ensures p.packetType == 5 ==> Handled(s, p, io) == OnRead(s, p, io)
    ensures p.packetType == 6 ==> Handled(s, p, io) == OnWrite(s, p, io)
    ensures p.packetType == 14 ==> Handled(s, p, io) == OnChange(s, p, io, false, "mkdir failed")
    ensures p.packetType == 15 ==> Handled(s, p, io) == OnChange(s, p, io, false, "rmdir failed")
    ensures p.packetType == 13 ==> Handled(s, p, io) == OnChange(s, p, io, true, "remove failed")
  {
    hide OnRealpath, OnStat, OnOpendir, OnReaddir, OnClose, OnOpen, OnRead, OnWrite, OnChange, Status;
  }

  // ---------------------------------------------------------------- every answer

  /** Every answer bears the id of its request. */
  lemma AnswersBearId(s: State, p: SftpPacket, io: Io)
    ensures Handled(s, p, io).reply.requestId == p.requestId
  {
    hide TakeUtf8, TakeString, TakeU32, Resolve, TakeRead, TakeWrite, BE32, Overwrite, Chunk, EncString, Ascii, Bit,
      EncAttrs, EncEntries;
  }

  lemma Unsupported(s: State, p: SftpPacket, io: Io)
    requires p.packetType !in {3, 4, 5, 6, 7, 11, 12, 13, 14, 15, 16, 17}
    ensures var x := Handled(s, p, io); x.state == s && Says(x.reply, p.requestId, 8, "Unsupported operation")
  {
    hide OnRealpath, OnStat, OnOpendir, OnReaddir, OnClose, OnOpen, OnRead, OnWrite, OnChange, Status;
    StatusSays(s, p.requestId, 8, "Unsupported operation");
  }

  /** A request whose path cannot be read is refused without effect. */
  lemma BadPathIsRefused(s: State, p: SftpPacket, io: Io)
    requires p.packetType in {3, 7, 11, 13, 14, 15, 16, 17} && TakeUtf8(p.data).Err?
    ensures var x := Handled(s, p, io); x.state == s && Says(x.reply, p.requestId, 4, "Bad path")
  {
    hide TakeUtf8, Resolve, Status, Handled;
    Dispatch(s, p, io);
    StatusSays(s, p.requestId, 4, "Bad path");
  }

  // ---------------------------------------------------------------- paths

  /** STAT and LSTAT report the size, owner and mode the system reports, or that there is no such file. */
  lemma StatAnswered(s: State, kind: byte, id: u32, path: str, rest: bytes, io: Io)
    requires (kind == 17 || kind == 7) && Readable(path)
    ensures var x, m := Handled(s, Asks(kind, id, path, rest), io), io.metadata;
            && x.state == s
            && if Resolve(s.handler.root, path, io.canon).Err? || m.None? then Says(x.reply, id, 2, "Not found")
               else
                 && x.reply.packetType == 105 && x.reply.requestId == id
                 && x.reply.data
                      == BE32(7) + BE64(m.value.len) + (BE32(m.value.uid) + BE32(m.value.gid)) + BE32(m.value.mode)
                 && TakeAttrs(x.reply.data)
                      == Ok(Parsed(FileAttrs(7, Some(m.value.len), Some(m.value.uid), Some(m.value.gid),
                                             Some(m.value.mode), None, None), []))
  {
    hide TakeUtf8, Resolve, Status, Handled, EncAttrs, TakeAttrs, EncString, BE32, BE64;
    Dispatch(s, Asks(kind, id, path, rest), io);
    PathTaken(kind, id, path, rest);
    StatusSays(s, id, 2, "Not found");
    if io.metadata.Some? {
      HandlerAttrsAreWellFlagged(io.metadata.value);
      MetadataOnWire(io.metadata.value);
      var a := MetadataToAttrs(io.metadata.value);
      AttrsDecode(a, []);
      assert EncAttrs(a) + [] == EncAttrs(a);
    }
  }

  /** REALPATH names the one path a request stands for. */
  lemma RealpathAnswered(s: State, id: u32, path: str, rest: bytes, io: Io)
    requires Readable(path)
    ensures var x, resolved := Handled(s, Asks(16, id, path, rest), io), Resolve(s.handler.root, path, io.canon);
            && x.state == s && x.reply.requestId == id
            && if resolved.Err? then Says(x.reply, id, 2, "Not found")
               else
                 && x.reply.packetType == 104
                 && var name: str := if ValidUtf8(resolved.value) then resolved.value else io.lossy;
                    Readable(name) ==> TakeNames(x.reply) == Some([Named(name, name, DEFAULT_ATTRS)])
  {
    hide TakeUtf8, Resolve, Status, Handled, NameReply, TakeNames, EncString, ValidUtf8;
    Dispatch(s, Asks(16, id, path, rest), io);
    PathTaken(16, id, path, rest);
    StatusSays(s, id, 2, "Not found");
    var resolved := Resolve(s.handler.root, path, io.canon);
    if resolved.Ok? {
      var name: str := if ValidUtf8(resolved.value) then resolved.value else io.lossy;
      OneName(id, name);
    }
  }

  lemma OneName(id: u32, name: str)
    ensures NameReply(id, [Entry(name, DEFAULT_ATTRS)]).requestId == id
    ensures NameReply(id, [Entry(name, DEFAULT_ATTRS)]).packetType == 104
    ensures Readable(name) ==>
      TakeNames(NameReply(id, [Entry(name, DEFAULT_ATTRS)])) == Some([Named(name, name, DEFAULT_ATTRS)])
  {
    hide TakeNames, EncEntries;
    if Readable(name) {
      var e := Entry(name, DEFAULT_ATTRS);
      HandlerAttrsAreWellFlagged(Metadata(0, 0, 0, 0));
      NamesReadBack(id, [e]);
      assert seq(1, i requires 0 <= i < 1 => AsNamed([e][i])) == [AsNamed(e)];
    }
  }

  /** MKDIR, RMDIR and REMOVE: the last takes the file away, and none of them touches anything else. */
  lemma ChangeAnswered(s: State, kind: byte, id: u32, path: str, rest: bytes, io: Io)
    requires (kind == 13 || kind == 14 || kind == 15) && Readable(path)
    ensures var x, resolved := Handled(s, Asks(kind, id, path, rest), io), Resolve(s.handler.root, path, io.canon);
            && x.state.handler == s.handler
            && if resolved.Err? then x.state == s && Says(x.reply, id, 3, "Bad path")
               else if !io.changes then
                 && x.state == s
                 && Says(x.reply, id, 4,
                         if kind == 13 then "remove failed" else if kind == 14 then "mkdir failed" else "rmdir failed")
               else
                 && Says(x.reply, id, 0, "OK")
                 && (kind != 13 ==> x.state == s)
                 && (kind == 13 ==>
                       && resolved.value !in x.state.disk
                       && forall q :: q != resolved.value ==> Untouched(s.disk, x.state.disk, q))
  {
    hide TakeUtf8, Resolve, StatusReply, TakeStatus, Handled, EncString, Ascii;
    Dispatch(s, Asks(kind, id, path, rest), io);
    PathTaken(kind, id, path, rest);
    StatusSays(s, id, 3, "Bad path");
    StatusSays(s, id, 4, "remove failed");
    StatusSays(s, id, 4, "mkdir failed");
    StatusSays(s, id, 4, "rmdir failed");
    StatusSays(s, id, 0, "OK");
  }

  // ---------------------------------------------------------------- handles

  /** The reply hands out this handle. */
  predicate Gives(reply: SftpPacket, id: u32, handle: bytes) {
    reply.requestId == id && reply.packetType == 102 && TakeString(reply.data) == Ok(Parsed(handle, []))
  }

  lemma HandleGiven(id: u32, n: u32)
    ensures Gives(HandleReply(id, BE32(n)), id, BE32(n))
  {
    hide BE32, EncString, TakeString;
    assert EncString(BE32(n)) + [] == EncString(BE32(n));
    TakeStringIff(EncString(BE32(n)), BE32(n), []);
  }

  /** OPEN: the next number becomes a handle for the path the request stands for, with the flags it asks for. */
  lemma OpenAnswered(s: State, id: u32, path: str, flags: u32, rest: bytes, io: Io)
    requires Readable(path)
    ensures var x, resolved := Handled(s, AsksOpen(id, path, flags, rest), io), Resolve(s.handler.root, path, io.canon);
            var h, handle := s.handler, BE32(s.handler.nextHandle);
            && x.state.disk == s.disk
            && if resolved.Err? then x.state == s && Says(x.reply, id, 2, "Path error")
               else
                 && Gives(x.reply, id, handle)
                 && x.state.handler.files == h.files[handle := OpenFile(resolved.value, flags)]
                 && x.state.handler.dirs == h.dirs && x.state.handler.nextHandle == (h.nextHandle + 1) % TWO_32
  {
    hide TakeUtf8, TakeU32, Resolve, Status, Handled, EncString, BE32, HandleReply;
    Dispatch(s, AsksOpen(id, path, flags, rest), io);
    PathTaken(3, id, path, BE32(flags) + rest);
    TakeU32Iff(BE32(flags) + rest, flags, rest);
    StatusSays(s, id, 2, "Path error");
    HandleGiven(id, s.handler.nextHandle);
  }

  /** OPENDIR: the same for a directory, to be listed once. */
  lemma OpendirAnswered(s: State, id: u32, path: str, rest: bytes, io: Io)
    requires Readable(path)
    ensures var x, resolved := Handled(s, Asks(11, id, path, rest), io), Resolve(s.handler.root, path, io.canon);
            var h, handle := s.handler, BE32(s.handler.nextHandle);
            && x.state.disk == s.disk
            && if resolved.Err? then x.state == s && Says(x.reply, id, 2, "Not found")
               else if !io.isDir then x.state == s && Says(x.reply, id, 2, "Not a directory")
               else
                 && Gives(x.reply, id, handle)
                 && x.state.handler.dirs == h.dirs[handle := OpenDir(resolved.value, false)]
                 && x.state.handler.files == h.files && x.state.handler.nextHandle == (h.nextHandle + 1) % TWO_32
  {
    hide TakeUtf8, Resolve, Status, Handled, EncString, BE32, HandleReply;
    Dispatch(s, Asks(11, id, path, rest), io);
    PathTaken(11, id, path, rest);
    StatusSays(s, id, 2, "Not found");
    StatusSays(s, id, 2, "Not a directory");
    HandleGiven(id, s.handler.nextHandle);
  }

  /** READDIR: the first lists everything the system lists, every further one is told that this was all. */
  lemma ReaddirAnswered(s: State, id: u32, handle: bytes, rest: bytes, io: Io)
    requires Readable(handle)
    ensures var x, h := Handled(s, Asks(12, id, handle, rest), io), s.handler;
            && x.state.disk == s.disk && x.reply.requestId == id
            && if handle !in h.dirs then x.state == s && Says(x.reply, id, 4, "Invalid handle")
               else if h.dirs[handle].listed then x.state == s && Says(x.reply, id, 1, "End of directory")
               else
                 && x.state.handler == h.(dirs := h.dirs[handle := OpenDir(h.dirs[handle].path, true)])
                 && match io.listing
                    case None => Says(x.reply, id, 3, "Cannot read dir")
                    case Some(entries) =>
                      |entries| < TWO_32 && (forall i :: 0 <= i < |entries| ==> Listable(entries[i])) ==>
                        TakeNames(x.reply) == Some(seq(|entries|, i requires 0 <= i < |entries| => AsNamed(entries[i])))
  {
    hide TakeString, StatusReply, TakeStatus, Handled, EncString, EncEntries, TakeNames, Listable, Ascii;
    Dispatch(s, Asks(12, id, handle, rest), io);
    HandleTaken(12, id, handle, rest);
    StatusSays(s, id, 4, "Invalid handle");
    StatusSays(s, id, 1, "End of directory");
    StatusSays(s, id, 3, "Cannot read dir");
    if io.listing.Some? {
      var entries := io.listing.value;
      if |entries| < TWO_32 && forall i :: 0 <= i < |entries| ==> Listable(entries[i]) {
        NamesReadBack(id, entries);
      }
    }
  }

  predicate SameEntry(a: Handler, b: Handler, k: bytes) {
    && (k in a.files <==> k in b.files) && (k in a.files ==> a.files[k] == b.files[k])
    && (k in a.dirs <==> k in b.dirs) && (k in a.dirs ==> a.dirs[k] == b.dirs[k])
  }

  /** CLOSE takes the handle out of both tables, whether or not it was there. */
  lemma CloseAnswered(s: State, id: u32, handle: bytes, rest: bytes, io: Io)
    requires Readable(handle)
    ensures var x := Handled(s, Asks(4, id, handle, rest), io);
            && x.state.disk == s.disk && Says(x.reply, id, 0, "OK")
            && handle !in x.state.handler.files && handle !in x.state.handler.dirs
            && x.state.handler.nextHandle == s.handler.nextHandle
            && forall k :: k != handle ==> SameEntry(s.handler, x.state.handler, k)
  {
    hide TakeString, StatusReply, TakeStatus, Handled, EncString, Ascii;
    Dispatch(s, Asks(4, id, handle, rest), io);
    HandleTaken(4, id, handle, rest);
    StatusSays(s, id, 0, "OK");
  }

  /** A request by handle whose handle cannot be read is refused without effect. */
  lemma BadHandleIsRefused(s: State, p: SftpPacket, io: Io)
    requires p.packetType in {4, 5, 6, 12} && TakeString(p.data).Err?
    ensures var x := Handled(s, p, io); x.state == s && Says(x.reply, p.requestId, 4, "Bad handle")
  {
    hide TakeString, Status, Handled;
    Dispatch(s, p, io);
    StatusSays(s, p.requestId, 4, "Bad handle");
  }

  // ---------------------------------------------------------------- writing

  lemma WriteTaken(id: u32, handle: bytes, offset: u64, data: bytes, rest: bytes)
    requires Readable(handle) && Readable(data)
    ensures TakeWrite(AsksWrite(id, handle, offset, data, rest).data) == Ok(WriteArgs(handle, offset, data))
  {
    hide TakeString, TakeU64, EncString, BE64;
    var b := EncString(data) + rest;
    HandleTaken(6, id, handle, BE64(offset) + b);
    TakeU64Inverts(BE64(offset) + b, offset, b);
    TakeStringIff(b, data, rest);
  }

  /** The three flags that count, as numbers: 2 to write, 8 to create, 16 to truncate. */
  lemma FlagBits(f: OpenFile)
    ensures f.Writable() <==> f.flags / 2 % 2 == 1
    ensures f.Creates() <==> f.flags / 8 % 2 == 1
    ensures f.Truncates() <==> f.flags / 16 % 2 == 1
  {
    assert Pow2(1) == 2 && Pow2(3) == 8 && Pow2(4) == 16;
  }

  /** What a WRITE does, by the flags and the system's answers. */
  predicate WritesThus(s: State, f: OpenFile, id: u32, offset: u64, data: bytes, io: Io, x: Response) {
    var there := f.path in s.disk;
    if f.flags / 2 % 2 == 0 then x.state == s && Says(x.reply, id, 3, "Not opened for writing")
    else if !io.opens || (!there && f.flags / 8 % 2 == 0) then x.state == s && Says(x.reply, id, 3, "Cannot open")
    else
      var before := if there && f.flags / 16 % 2 == 0 then s.disk[f.path] else [];
      if !io.seeks then
        x.state == s.(disk := s.disk[f.path := before]) && Says(x.reply, id, 4, "Seek failed")
      else if !io.transfers then
        x.state == s.(disk := s.disk[f.path := io.torn]) && Says(x.reply, id, 4, "Write error")
      else
        x.state == s.(disk := s.disk[f.path := Overwrite(before, offset, data)]) && Says(x.reply, id, 0, "OK")
  }

  lemma WriteAnswered(s: State, id: u32, handle: bytes, offset: u64, data: bytes, rest: bytes, io: Io)
    requires Readable(handle) && Readable(data) && handle in s.handler.files
    ensures var p := AsksWrite(id, handle, offset, data, rest);
            WritesThus(s, s.handler.files[handle], id, offset, data, io, Handled(s, p, io))
  {
    hide TakeWrite, StatusReply, TakeStatus, Handled, EncString, BE64, Overwrite, Ascii, OpenFile.Writable,
      OpenFile.Creates, OpenFile.Truncates;
    Dispatch(s, AsksWrite(id, handle, offset, data, rest), io);
    WriteTaken(id, handle, offset, data, rest);
    FlagBits(s.handler.files[handle]);
    StatusSays(s, id, 3, "Not opened for writing");
    StatusSays(s, id, 3, "Cannot open");
    StatusSays(s, id, 4, "Seek failed");
    StatusSays(s, id, 4, "Write error");
    StatusSays(s, id, 0, "OK");
  }

  lemma {:induction false} EntryStays(s: State, reqs: seq<Request>, handle: bytes)
    requires handle in s.handler.files && !Reissued(s, reqs, handle)
    requires forall i :: 0 <= i < |reqs| ==> !Closes(reqs[i].packet, handle)
    ensures handle in StateAfter(s, reqs).handler.files
    ensures StateAfter(s, reqs).handler.files[handle] == s.handler.files[handle]
    decreases |reqs|
  {
    hide Handled, Changed, ChangeOf, Closes, Allocates;
    if reqs != [] {
      HandlerChanges(s, reqs[0]);
      ChangeKeepsEntry(s, reqs[0], handle);
      EntryStays(Handled(s, reqs[0].packet, reqs[0].io).state, reqs[1..], handle);
    }
  }

  lemma ChangeKeepsEntry(s: State, r: Request, handle: bytes)
    requires handle in s.handler.files && !Closes(r.packet, handle)
    requires Grants(ChangeOf(s, r)) ==> BE32(s.handler.nextHandle) != handle
    ensures var h := Changed(s.handler, ChangeOf(s, r)); handle in h.files && h.files[handle] == s.handler.files[handle]
  {
    hide BE32, TakeString, TakeUtf8, TakeU32, Resolve, OpenedPath;
  }

  /**
   The flags of an OPEN decide for good what its handle can write: after any requests that neither close the
   handle nor are given it again, a WRITE through it is carried out by those flags, on the path of the OPEN.
   */
  lemma OpenDecidesWriting(s: State, open: u32, path: str, flags: u32, openRest: bytes, openIo: Io, reqs: seq<Request>,
                           id: u32, offset: u64, data: bytes, rest: bytes, io: Io)
    requires Readable(path) && Readable(data) && Resolve(s.handler.root, path, openIo.canon).Ok?
    requires var s1 := Handled(s, AsksOpen(open, path, flags, openRest), openIo).state;
             !Reissued(s1, reqs, BE32(s.handler.nextHandle))
    requires forall i :: 0 <= i < |reqs| ==> !Closes(reqs[i].packet, BE32(s.handler.nextHandle))
    ensures var handle := BE32(s.handler.nextHandle);
            var s2 := StateAfter(Handled(s, AsksOpen(open, path, flags, openRest), openIo).state, reqs);
            WritesThus(s2, OpenFile(Resolve(s.handler.root, path, openIo.canon).value, flags), id, offset, data, io,
                       Handled(s2, AsksWrite(id, handle, offset, data, rest), io))
  {
    hide Handled, Resolve, WritesThus, StateAfter, Reissued, Closes, BE32, AsksOpen, AsksWrite, Says;
    var handle, s1 := BE32(s.handler.nextHandle), Handled(s, AsksOpen(open, path, flags, openRest), openIo).state;
    OpenAnswered(s, open, path, flags, openRest, openIo);
    EntryStays(s1, reqs, handle);
    WriteAnswered(StateAfter(s1, reqs), id, handle, offset, data, rest, io);
  }

  // ---------------------------------------------------------------- reading

  lemma ReadTaken(id: u32, handle: bytes, offset: u64, length: u32, rest: bytes)
    requires Readable(handle)
    ensures TakeRead(AsksRead(id, handle, offset, length, rest).data) == Ok(ReadArgs(handle, offset, length))
  {
    hide TakeString, TakeU64, TakeU32, EncString, BE64, BE32;
    var b := BE32(length) + rest;
    HandleTaken(5, id, handle, BE64(offset) + b);
    TakeU64Inverts(BE64(offset) + b, offset, b);
    TakeU32Iff(b, length, rest);
  }

  /** READ: bytes of the file from the offset on, at most 32768, or EOF, or the error of the step that fails. */
  lemma ReadAnswered(s: State, id: u32, handle: bytes, offset: u64, length: u32, rest: bytes, io: Io)
    requires Readable(handle) && handle in s.handler.files
    ensures var x, path := Handled(s, AsksRead(id, handle, offset, length, rest), io), s.handler.files[handle].path;
            && x.state == s
            && if !io.opens || (path !in s.disk && !io.isDir) then Says(x.reply, id, 2, "Cannot open")
               else if !io.seeks then Says(x.reply, id, 4, "Seek failed")
               else if !io.transfers || path !in s.disk then Says(x.reply, id, 4, "Read error")
               else if length == 0 || offset >= |s.disk[path]| then Says(x.reply, id, 1, "EOF")
               else
                 && x.reply.requestId == id && x.reply.packetType == 103
                 && TakeString(x.reply.data).Ok? && TakeString(x.reply.data).value.rest == []
                 && var data, file := TakeString(x.reply.data).value.value, s.disk[path];
                 && 1 <= |data| <= 32768 && |data| <= length && offset + |data| <= |file|
                 && data == file[offset..offset + |data|]
                 && (io.chunk >= 32768 ==> |data| == Min(Min(length, 32768), |file| - offset))
  {
    hide TakeRead, StatusReply, TakeStatus, Handled, EncString, TakeString, Ascii, BE32, BE64;
    Dispatch(s, AsksRead(id, handle, offset, length, rest), io);
    ReadTaken(id, handle, offset, length, rest);
    StatusSays(s, id, 2, "Cannot open");
    StatusSays(s, id, 4, "Seek failed");
    StatusSays(s, id, 4, "Read error");
    StatusSays(s, id, 1, "EOF");
    var path := s.handler.files[handle].path;
    if path in s.disk && length > 0 && offset < |s.disk[path]| {
      var data := Chunk(s.disk[path], offset, length, io.chunk);
      assert EncString(data) + [] == EncString(data);
      TakeStringIff(EncString(data), data, []);
      assert 1 <= |data| <= 32768 && |data| <= length && data == s.disk[path][offset..offset + |data|];
    }
  }

  /** READ and WRITE through a handle that is not open. */
  lemma UnknownHandleIsRefused(s: State, p: SftpPacket, handle: bytes, io: Io)
    requires UsesHandle(p, handle) && Gone(s.handler, handle)
    ensures Handled(s, p, io).state == s && Says(Handled(s, p, io).reply, p.requestId, 4, "Invalid handle")
  {
    hide TakeString, TakeRead, TakeWrite, Status, Handled, Bit;
    Dispatch(s, p, io);
    StatusSays(s, p.requestId, 4, "Invalid handle");
  }
}
