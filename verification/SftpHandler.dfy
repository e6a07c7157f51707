/**
 `SftpHandler` of src/sftp/mod.rs: the handle tables and the requests that use them, over
 an abstract disk. Every answer of the operating system is part of the request's `Io`.
 The `On*` functions specify the methods of the class.
 */
module SftpHandler {
  import opened Bytes
  import opened Wire
  import opened SftpCodec
  import opened SftpPaths
  import opened SftpFiles

  datatype OpenFile = OpenFile(path: bytes, flags: u32) {
    predicate Writable() { Bit(flags, 1) }
    predicate Creates() { Bit(flags, 3) }
    predicate Truncates() { Bit(flags, 4) }
  }

  datatype OpenDir = OpenDir(path: bytes, listed: bool)

  datatype Handler = Handler(nextHandle: u32, files: map<bytes, OpenFile>, dirs: map<bytes, OpenDir>, root: bytes)

  /** Contents of the regular files, by path. */
  type Disk = map<bytes, bytes>

  /** The operating system's answers while one request is handled. */
  datatype Io = Io(
    canon: Canon,                      // canonicalize of the path and of the root
    lossy: str,                        // a path that is not UTF-8, as text
    isDir: bool,
    listing: Option<seq<Entry>>,       // read_dir
    metadata: Option<Metadata>,
    opens: bool, seeks: bool, transfers: bool,
    chunk: nat,                        // how much one read returns at most
    torn: bytes,                       // the file after a write that failed on the way
    changes: bool)                     // create_dir, remove_dir, remove_file

  datatype State = State(handler: Handler, disk: Disk)
  datatype Response = Response(state: State, reply: SftpPacket)

  function Status(s: State, id: u32, code: u32, message: string): Response {
    Response(s, StatusReply(id, code, Ascii(message)))
  }

  // ---------------------------------------------------------------- the requests

  function OnRealpath(s: State, p: SftpPacket, io: Io): Response {
    match TakeUtf8(p.data)
    case Err(_) => Status(s, p.requestId, FX_FAILURE, "Bad path")
    case Ok(path) =>
      match Resolve(s.handler.root, path.value, io.canon)
      case Err(_) => Status(s, p.requestId, FX_NO_SUCH_FILE, "Not found")
      case Ok(resolved) =>
        Response(s, NameReply(p.requestId, [Entry(if ValidUtf8(resolved) then resolved else io.lossy, DEFAULT_ATTRS)]))
  }

  function OnStat(s: State, p: SftpPacket, io: Io): Response {
    match TakeUtf8(p.data)
    case Err(_) => Status(s, p.requestId, FX_FAILURE, "Bad path")
    case Ok(path) =>
      if Resolve(s.handler.root, path.value, io.canon).Err? || io.metadata.None? then
        Status(s, p.requestId, FX_NO_SUCH_FILE, "Not found")
      else Response(s, AttrsReply(p.requestId, MetadataToAttrs(io.metadata.value)))
  }

  function OnOpendir(s: State, p: SftpPacket, io: Io): Response {
    match TakeUtf8(p.data)
    case Err(_) => Status(s, p.requestId, FX_FAILURE, "Bad path")
    case Ok(path) =>
      match Resolve(s.handler.root, path.value, io.canon)
      case Err(_) => Status(s, p.requestId, FX_NO_SUCH_FILE, "Not found")
      case Ok(resolved) =>
        if !io.isDir then Status(s, p.requestId, FX_NO_SUCH_FILE, "Not a directory")
        else
          var h, handle := s.handler, BE32(s.handler.nextHandle);
          Response(s.(handler := h.(nextHandle := WrapInc(h.nextHandle),
                                    dirs := h.dirs[handle := OpenDir(resolved, false)])),
                   HandleReply(p.requestId, handle))
  }

  function OnReaddir(s: State, p: SftpPacket, io: Io): Response {
    match TakeString(p.data)
    case Err(_) => Status(s, p.requestId, FX_FAILURE, "Bad handle")
    case Ok(handle) =>
      var h := s.handler;
      if handle.value !in h.dirs then Status(s, p.requestId, FX_FAILURE, "Invalid handle")
      else if h.dirs[handle.value].listed then Status(s, p.requestId, FX_EOF, "End of directory")
      else
        var s' := s.(handler := h.(dirs := h.dirs[handle.value := h.dirs[handle.value].(listed := true)]));
        match io.listing
        case Some(entries) => Response(s', NameReply(p.requestId, entries))
        case None => Status(s', p.requestId, FX_PERMISSION_DENIED, "Cannot read dir")
  }

  function OnClose(s: State, p: SftpPacket): Response {
    match TakeString(p.data)
    case Err(_) => Status(s, p.requestId, FX_FAILURE, "Bad handle")
    case Ok(handle) =>
      var h := s.handler;
      Status(s.(handler := h.(files := h.files - {handle.value}, dirs := h.dirs - {handle.value})), p.requestId, FX_OK,
             "OK")
  }

  function OnOpen(s: State, p: SftpPacket, io: Io): Response {
    match TakeUtf8(p.data)
    case Err(_) => Status(s, p.requestId, FX_FAILURE, "Bad path")
    case Ok(path) =>
      match TakeU32(path.rest)
      case Err(_) => Status(s, p.requestId, FX_FAILURE, "Bad flags")
      case Ok(flags) =>
        match Resolve(s.handler.root, path.value, io.canon)
        case Err(_) => Status(s, p.requestId, FX_NO_SUCH_FILE, "Path error")
        case Ok(resolved) =>
          var h, handle := s.handler, BE32(s.handler.nextHandle);
          Response(s.(handler := h.(nextHandle := WrapInc(h.nextHandle),
                                    files := h.files[handle := OpenFile(resolved, flags.value)])),
                   HandleReply(p.requestId, handle))
  }

  datatype ReadArgs = ReadArgs(handle: bytes, offset: u64, length: u32)
  datatype WriteArgs = WriteArgs(handle: bytes, offset: u64, data: bytes)

  /** The three arguments of a READ, or which of them is bad. */
  function TakeRead(b: bytes): (r: Result<ReadArgs>)
    ensures r.Err? ==> r.error.Sftp?
  {
    match TakeString(b)
    case Err(_) => Err(Sftp("Bad handle"))
    case Ok(handle) =>
      match TakeU64(handle.rest)
      case Err(_) => Err(Sftp("Bad offset"))
      case Ok(offset) =>
        match TakeU32(offset.rest)
        case Err(_) => Err(Sftp("Bad length"))
        case Ok(length) => Ok(ReadArgs(handle.value, offset.value, length.value))
  }

  function TakeWrite(b: bytes): (r: Result<WriteArgs>)
    ensures r.Err? ==> r.error.Sftp?
  {
    match TakeString(b)
    case Err(_) => Err(Sftp("Bad handle"))
    case Ok(handle) =>
      match TakeU64(handle.rest)
      case Err(_) => Err(Sftp("Bad offset"))
      case Ok(offset) =>
        match TakeString(offset.rest)
        case Err(_) => Err(Sftp("Bad data"))
        case Ok(data) => Ok(WriteArgs(handle.value, offset.value, data.value))
  }

  /** A directory can be opened like a file, and then fails to be read. */
  function OnRead(s: State, p: SftpPacket, io: Io): Response {
    match TakeRead(p.data)
    case Err(e) => Status(s, p.requestId, FX_FAILURE, e.reason)
    case Ok(a) =>
      if a.handle !in s.handler.files then Status(s, p.requestId, FX_FAILURE, "Invalid handle")
      else
        var path := s.handler.files[a.handle].path;
        if !io.opens || (path !in s.disk && !io.isDir) then Status(s, p.requestId, FX_NO_SUCH_FILE, "Cannot open")
        else if !io.seeks then Status(s, p.requestId, FX_FAILURE, "Seek failed")
        else if !io.transfers || path !in s.disk then Status(s, p.requestId, FX_FAILURE, "Read error")
        else
          var data := Chunk(s.disk[path], a.offset, a.length, io.chunk);
          if data == [] then Status(s, p.requestId, FX_EOF, "EOF") else Response(s, DataReply(p.requestId, data))
  }

  /** The file is opened anew for every write, and truncated anew if the handle says so. */
  function OnWrite(s: State, p: SftpPacket, io: Io): Response {
    match TakeWrite(p.data)
    case Err(e) => Status(s, p.requestId, FX_FAILURE, e.reason)
    case Ok(a) =>
      if a.handle !in s.handler.files then Status(s, p.requestId, FX_FAILURE, "Invalid handle")
      else
        var f := s.handler.files[a.handle];
        if !f.Writable() then Status(s, p.requestId, FX_PERMISSION_DENIED, "Not opened for writing")
        else if !io.opens || (f.path !in s.disk && !f.Creates()) then
          Status(s, p.requestId, FX_PERMISSION_DENIED, "Cannot open")
        else
          var before := if f.Truncates() || f.path !in s.disk then [] else s.disk[f.path];
          if !io.seeks then
            Status(s.(disk := s.disk[f.path := before]), p.requestId, FX_FAILURE, "Seek failed")
          else if !io.transfers then
            Status(s.(disk := s.disk[f.path := io.torn]), p.requestId, FX_FAILURE, "Write error")
          else
            Status(s.(disk := s.disk[f.path := Overwrite(before, a.offset, a.data)]), p.requestId, FX_OK, "OK")
  }

  /** MKDIR, RMDIR and REMOVE: only a removed file shows on the abstract disk. */
  function OnChange(s: State, p: SftpPacket, io: Io, removes: bool, failure: string): Response {
    match TakeUtf8(p.data)
    case Err(_) => Status(s, p.requestId, FX_FAILURE, "Bad path")
    case Ok(path) =>
      match Resolve(s.handler.root, path.value, io.canon)
      case Err(_) => Status(s, p.requestId, FX_PERMISSION_DENIED, "Bad path")
      case Ok(resolved) =>
        if !io.changes then Status(s, p.requestId, FX_FAILURE, failure)
        else Status(if removes then s.(disk := s.disk - {resolved}) else s, p.requestId, FX_OK, "OK")
  }

  function Handled(s: State, p: SftpPacket, io: Io): Response {
    if p.packetType == FXP_REALPATH then OnRealpath(s, p, io)
    else if p.packetType == FXP_STAT || p.packetType == FXP_LSTAT then OnStat(s, p, io)
    else if p.packetType == FXP_OPENDIR then OnOpendir(s, p, io)
    else if p.packetType == FXP_READDIR then OnReaddir(s, p, io)
    else if p.packetType == FXP_CLOSE then OnClose(s, p)
    else if p.packetType == FXP_OPEN then OnOpen(s, p, io)
    else if p.packetType == FXP_READ then OnRead(s, p, io)
    else if p.packetType == FXP_WRITE then OnWrite(s, p, io)
    else if p.packetType == FXP_MKDIR then OnChange(s, p, io, false, "mkdir failed")
    else if p.packetType == FXP_RMDIR then OnChange(s, p, io, false, "rmdir failed")
    else if p.packetType == FXP_REMOVE then OnChange(s, p, io, true, "remove failed")
    else Status(s, p.requestId, FX_OP_UNSUPPORTED, "Unsupported operation")
  }

  // ---------------------------------------------------------------- the class

  class FileSystem {
    var files: Disk

    constructor (d: Disk)
      ensures files == d
    {
      files := d;
    }
  }

  method StatusPacket(id: u32, code: u32, message: string) returns (r: SftpPacket)
    ensures r == StatusReply(id, code, Ascii(message))
  {
    hide BE32, EncString, Ascii;
    var buf := new Buffer();
    buf.WriteU32(code);
    assert buf.data == BE32(code);
    buf.WriteString(Ascii(message));
    buf.WriteString(Ascii("en"));
    r := SftpPacket(FXP_STATUS, id, buf.data);
  }

  class SftpServer {
    var nextHandle: u32
    var openFiles: map<bytes, OpenFile>
    var openDirs: map<bytes, OpenDir>
    const root: bytes

    function Value(): Handler reads this { Handler(nextHandle, openFiles, openDirs, root) }

    constructor (r: bytes)
      ensures Value() == Handler(0, map[], map[], r)
    {
      nextHandle, openFiles, openDirs, root := 0, map[], map[], r;
    }

    method AllocHandle() returns (handle: bytes)
      modifies this`nextHandle
      ensures handle == BE32(old(nextHandle)) && nextHandle == WrapInc(old(nextHandle))
    {
      handle := BE32(nextHandle);
      nextHandle := WrapInc(nextHandle);
    }

    method HandleRealpath(pkt: SftpPacket, disk: FileSystem, io: Io) returns (reply: SftpPacket)
      ensures Response(State(Value(), disk.files), reply) == OnRealpath(State(Value(), disk.files), pkt, io)
    {
      hide TakeUtf8, Resolve, StatusReply, NameReply;
      var cursor := new Cursor(pkt.data);
      var path := cursor.ReadUtf8();
      if path.Err? {
        reply := StatusPacket(pkt.requestId, FX_FAILURE, "Bad path");
        return;
      }
      var resolved := ResolvePath(root, path.value, io.canon);
      if resolved.Err? {
        reply := StatusPacket(pkt.requestId, FX_NO_SUCH_FILE, "Not found");
        return;
      }
      var name := if ValidUtf8(resolved.value) then resolved.value else io.lossy;
      reply := BuildSftpName(pkt.requestId, [Entry(name, DEFAULT_ATTRS)]);
    }

    method HandleStat(pkt: SftpPacket, disk: FileSystem, io: Io) returns (reply: SftpPacket)
      ensures Response(State(Value(), disk.files), reply) == OnStat(State(Value(), disk.files), pkt, io)
    {
      hide TakeUtf8, Resolve, StatusReply, EncAttrs;
      var cursor := new Cursor(pkt.data);
      var path := cursor.ReadUtf8();
      if path.Err? {
        reply := StatusPacket(pkt.requestId, FX_FAILURE, "Bad path");
        return;
      }
      var resolved := ResolvePath(root, path.value, io.canon);
      if resolved.Err? || io.metadata.None? {
        reply := StatusPacket(pkt.requestId, FX_NO_SUCH_FILE, "Not found");
        return;
      }
      var encoded := EncodeAttrs(MetadataToAttrs(io.metadata.value));
      reply := SftpPacket(FXP_ATTRS, pkt.requestId, encoded);
    }

    method HandleOpendir(pkt: SftpPacket, disk: FileSystem, io: Io) returns (reply: SftpPacket)
      modifies this
      ensures Response(State(Value(), disk.files), reply) == OnOpendir(old(State(Value(), disk.files)), pkt, io)
    {
      hide TakeUtf8, Resolve, StatusReply, BE32;
      var cursor := new Cursor(pkt.data);
      var path := cursor.ReadUtf8();
      if path.Err? {
        reply := StatusPacket(pkt.requestId, FX_FAILURE, "Bad path");
        return;
      }
      var resolved := ResolvePath(root, path.value, io.canon);
      if resolved.Err? {
        reply := StatusPacket(pkt.requestId, FX_NO_SUCH_FILE, "Not found");
        return;
      }
      if !io.isDir {
        reply := StatusPacket(pkt.requestId, FX_NO_SUCH_FILE, "Not a directory");
        return;
      }
      var handle := AllocHandle();
      openDirs := openDirs[handle := OpenDir(resolved.value, false)];
      reply := HandleReply(pkt.requestId, handle);
    }

    method HandleReaddir(pkt: SftpPacket, disk: FileSystem, io: Io) returns (reply: SftpPacket)
      modifies this
      ensures Response(State(Value(), disk.files), reply) == OnReaddir(old(State(Value(), disk.files)), pkt, io)
    {
      hide TakeString, StatusReply, NameReply;
      var cursor := new Cursor(pkt.data);
      var handle := cursor.ReadString();
      if handle.Err? {
        reply := StatusPacket(pkt.requestId, FX_FAILURE, "Bad handle");
        return;
      }
      if handle.value !in openDirs {
        reply := StatusPacket(pkt.requestId, FX_FAILURE, "Invalid handle");
        return;
      }
      if openDirs[handle.value].listed {
        reply := StatusPacket(pkt.requestId, FX_EOF, "End of directory");
        return;
      }
      openDirs := openDirs[handle.value := openDirs[handle.value].(listed := true)];
      match io.listing {
        case Some(entries) => reply := BuildSftpName(pkt.requestId, entries);
        case None => reply := StatusPacket(pkt.requestId, FX_PERMISSION_DENIED, "Cannot read dir");
      }
    }

    method HandleClose(pkt: SftpPacket, disk: FileSystem) returns (reply: SftpPacket)
      modifies this
      ensures Response(State(Value(), disk.files), reply) == OnClose(old(State(Value(), disk.files)), pkt)
    {
      hide TakeString, StatusReply;
      var cursor := new Cursor(pkt.data);
      var handle := cursor.ReadString();
      if handle.Err? {
        reply := StatusPacket(pkt.requestId, FX_FAILURE, "Bad handle");
        return;
      }
      openFiles := openFiles - {handle.value};
      openDirs := openDirs - {handle.value};
      reply := StatusPacket(pkt.requestId, FX_OK, "OK");
    }

    method HandleOpen(pkt: SftpPacket, disk: FileSystem, io: Io) returns (reply: SftpPacket)
      modifies this
      ensures Response(State(Value(), disk.files), reply) == OnOpen(old(State(Value(), disk.files)), pkt, io)
    {
      hide TakeUtf8, TakeU32, Resolve, StatusReply, BE32, TakeAttrs;
      var cursor := new Cursor(pkt.data);
      var path := cursor.ReadUtf8();
      if path.Err? {
        reply := StatusPacket(pkt.requestId, FX_FAILURE, "Bad path");
        return;
      }
      var flags := cursor.ReadU32();
      if flags.Err? {
        reply := StatusPacket(pkt.requestId, FX_FAILURE, "Bad flags");
        return;
      }
      var ignored := DecodeAttrs(cursor);
      var resolved := ResolvePath(root, path.value, io.canon);
      if resolved.Err? {
        reply := StatusPacket(pkt.requestId, FX_NO_SUCH_FILE, "Path error");
        return;
      }
      var handle := AllocHandle();
      openFiles := openFiles[handle := OpenFile(resolved.value, flags.value)];
      reply := HandleReply(pkt.requestId, handle);
    }

    method ReadReadArgs(data: bytes) returns (r: Result<ReadArgs>)
      ensures r == TakeRead(data)
    {
      hide TakeString, TakeU64, TakeU32;
      var cursor := new Cursor(data);
      var handle := cursor.ReadString();
      if handle.Err? {
        return Err(Sftp("Bad handle"));
      }
      var offset := cursor.ReadU64();
      if offset.Err? {
        return Err(Sftp("Bad offset"));
      }
      var length := cursor.ReadU32();
      if length.Err? {
        return Err(Sftp("Bad length"));
      }
      r := Ok(ReadArgs(handle.value, offset.value, length.value));
    }

    method ReadWriteArgs(data: bytes) returns (r: Result<WriteArgs>)
      ensures r == TakeWrite(data)
    {
      hide TakeString, TakeU64;
      var cursor := new Cursor(data);
      var handle := cursor.ReadString();
      if handle.Err? {
        return Err(Sftp("Bad handle"));
      }
      var offset := cursor.ReadU64();
      if offset.Err? {
        return Err(Sftp("Bad offset"));
      }
      var content := cursor.ReadString();
      if content.Err? {
        return Err(Sftp("Bad data"));
      }
      r := Ok(WriteArgs(handle.value, offset.value, content.value));
    }

    method HandleRead(pkt: SftpPacket, disk: FileSystem, io: Io) returns (reply: SftpPacket)
      ensures Response(State(Value(), disk.files), reply) == OnRead(State(Value(), disk.files), pkt, io)
    {
      hide TakeRead, StatusReply, Chunk;
      var args := ReadReadArgs(pkt.data);
      if args.Err? {
        reply := StatusPacket(pkt.requestId, FX_FAILURE, args.error.reason);
        return;
      }
      var a := args.value;
      if a.handle !in openFiles {
        reply := StatusPacket(pkt.requestId, FX_FAILURE, "Invalid handle");
        return;
      }
      var path := openFiles[a.handle].path;
      if !io.opens || (path !in disk.files && !io.isDir) {
        reply := StatusPacket(pkt.requestId, FX_NO_SUCH_FILE, "Cannot open");
      } else if !io.seeks {
        reply := StatusPacket(pkt.requestId, FX_FAILURE, "Seek failed");
      } else if !io.transfers || path !in disk.files {
        reply := StatusPacket(pkt.requestId, FX_FAILURE, "Read error");
      } else {
        var buf := Chunk(disk.files[path], a.offset, a.length, io.chunk);
        if buf == [] {
          reply := StatusPacket(pkt.requestId, FX_EOF, "EOF");
        } else {
          reply := DataReply(pkt.requestId, buf);
        }
      }
    }

    method HandleWrite(pkt: SftpPacket, disk: FileSystem, io: Io) returns (reply: SftpPacket)
      modifies disk
      ensures Response(State(Value(), disk.files), reply) == OnWrite(old(State(Value(), disk.files)), pkt, io)
    {
      hide TakeWrite, StatusReply, Overwrite, Bit;
      var args := ReadWriteArgs(pkt.data);
      if args.Err? {
        reply := StatusPacket(pkt.requestId, FX_FAILURE, args.error.reason);
        return;
      }
      var a := args.value;
      if a.handle !in openFiles {
        reply := StatusPacket(pkt.requestId, FX_FAILURE, "Invalid handle");
        return;
      }
      var f := openFiles[a.handle];
      if !f.Writable() {
        reply := StatusPacket(pkt.requestId, FX_PERMISSION_DENIED, "Not opened for writing");
        return;
      }
      if !io.opens || (f.path !in disk.files && !f.Creates()) {
        reply := StatusPacket(pkt.requestId, FX_PERMISSION_DENIED, "Cannot open");
        return;
      }
      var content := if f.Truncates() || f.path !in disk.files then [] else disk.files[f.path];
      if !io.seeks {
        disk.files := disk.files[f.path := content];
        reply := StatusPacket(pkt.requestId, FX_FAILURE, "Seek failed");
      } else if !io.transfers {
        disk.files := disk.files[f.path := io.torn];
        reply := StatusPacket(pkt.requestId, FX_FAILURE, "Write error");
      } else {
        disk.files := disk.files[f.path := Overwrite(content, a.offset, a.data)];
        reply := StatusPacket(pkt.requestId, FX_OK, "OK");
      }
    }

    method HandleChange(pkt: SftpPacket, disk: FileSystem, io: Io, removes: bool, failure: string)
      returns (reply: SftpPacket)
      modifies disk
      ensures Response(State(Value(), disk.files), reply)
           == OnChange(old(State(Value(), disk.files)), pkt, io, removes, failure)
    {
      hide TakeUtf8, Resolve, StatusReply;
      var cursor := new Cursor(pkt.data);
      var path := cursor.ReadUtf8();
      if path.Err? {
        reply := StatusPacket(pkt.requestId, FX_FAILURE, "Bad path");
        return;
      }
      var resolved := ResolvePath(root, path.value, io.canon);
      if resolved.Err? {
        reply := StatusPacket(pkt.requestId, FX_PERMISSION_DENIED, "Bad path");
        return;
      }
      if !io.changes {
        reply := StatusPacket(pkt.requestId, FX_FAILURE, failure);
        return;
      }
      if removes {
        disk.files := disk.files - {resolved.value};
      }
      reply := StatusPacket(pkt.requestId, FX_OK, "OK");
    }

    method HandleRequest(pkt: SftpPacket, disk: FileSystem, io: Io) returns (reply: SftpPacket)
      modifies this, disk
      ensures Response(State(Value(), disk.files), reply) == Handled(old(State(Value(), disk.files)), pkt, io)
    {
      hide OnRealpath, OnStat, OnOpendir, OnReaddir, OnClose, OnOpen, OnRead, OnWrite, OnChange, StatusReply;
      var t := pkt.packetType;
      if t == FXP_REALPATH {
        reply := HandleRealpath(pkt, disk, io);
      } else if t == FXP_STAT || t == FXP_LSTAT {
        reply := HandleStat(pkt, disk, io);
      } else if t == FXP_OPENDIR {
        reply := HandleOpendir(pkt, disk, io);
      } else if t == FXP_READDIR {
        reply := HandleReaddir(pkt, disk, io);
      } else if t == FXP_CLOSE {
        reply := HandleClose(pkt, disk);
      } else if t == FXP_OPEN {
        reply := HandleOpen(pkt, disk, io);
      } else if t == FXP_READ {
        reply := HandleRead(pkt, disk, io);
      } else if t == FXP_WRITE {
        reply := HandleWrite(pkt, disk, io);
      } else if t == FXP_MKDIR {
        reply := HandleChange(pkt, disk, io, false, "mkdir failed");
      } else if t == FXP_RMDIR {
        reply := HandleChange(pkt, disk, io, false, "rmdir failed");
      } else if t == FXP_REMOVE {
        reply := HandleChange(pkt, disk, io, true, "remove failed");
      } else {
        reply := StatusPacket(pkt.requestId, FX_OP_UNSUPPORTED, "Unsupported operation");
      }
    }
  }
}
