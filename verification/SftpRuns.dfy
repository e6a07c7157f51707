/**
 Whole runs of requests against one SFTP handler: which handles are issued and when one comes
 back, that a closed handle stays invalid until then, and that a directory handle lists once.
 */
module SftpRuns {
  import opened Bytes
  import opened Wire
  import opened SftpCodec
  import opened SftpPaths
  import opened SftpConfinement
  import opened SftpFiles
  import opened SftpHandler

  datatype Request = Request(packet: SftpPacket, io: Io)

  function StateAfter(s: State, reqs: seq<Request>): State
    decreases |reqs|
  {
    if reqs == [] then s else StateAfter(Handled(s, reqs[0].packet, reqs[0].io).state, reqs[1..])
  }

  /** The answer to request number `i`. */
  function ReplyTo(s: State, reqs: seq<Request>, i: nat): SftpPacket
    requires i < |reqs|
  {
    Handled(StateAfter(s, reqs[..i]), reqs[i].packet, reqs[i].io).reply
  }

  function Handles(s: State, reqs: seq<Request>): nat
    decreases |reqs|
  {
    if reqs == [] then 0
    else (if Allocates(s, reqs[0]) then 1 else 0) + Handles(Handled(s, reqs[0].packet, reqs[0].io).state, reqs[1..])
  }

  /** The request is answered with a new handle. */
  predicate Allocates(s: State, r: Request) { Handled(s, r.packet, r.io).reply.packetType == FXP_HANDLE }

  lemma {:induction false} StateAfterConcat(s: State, a: seq<Request>, b: seq<Request>)
    ensures StateAfter(s, a + b) == StateAfter(StateAfter(s, a), b)
    ensures Handles(s, a + b) == Handles(s, a) + Handles(StateAfter(s, a), b)
    decreases |a|
  {
    hide Handled, Allocates;
    if a == [] {
      assert a + b == b;
    } else {
      StateAfterConcat(Handled(s, a[0].packet, a[0].io).state, a[1..], b);
      assert (a + b)[1..] == a[1..] + b;
    }
  }

  // ---------------------------------------------------------------- the invariant

  predicate IsHandle(handle: bytes, count: nat) { |handle| == 4 && FromBE32(handle) < count }

  predicate Tables(h: Handler, count: nat) {
    && h.nextHandle == count % TWO_32
    && (forall k :: k in h.files ==> IsHandle(k, count))
    && (forall k :: k in h.dirs ==> IsHandle(k, count))
    && h.files.Keys !! h.dirs.Keys
  }

  predicate Confined(h: Handler) {
    && (forall k :: k in h.files ==> Components(h.root) <= Components(h.files[k].path))
    && (forall k :: k in h.dirs ==> Components(h.root) <= Components(h.dirs[k].path))
  }

  /** If the system canonicalises the root, it names the same place. */
  predicate RootStable(h: Handler, io: Io) {
    io.canon.root.Some? ==> Components(io.canon.root.value) == Components(h.root)
  }

  lemma AcceptedIsUnderRoot(root: bytes, requested: bytes, canon: Canon)
    requires GoodRoot(root) && Resolve(root, requested, canon).Ok?
    requires canon.root.Some? ==> Components(canon.root.value) == Components(root)
    ensures Components(root) <= Components(Resolve(root, requested, canon).value)
  {
    hide Components, Normalize, GoodRoot;
    RootNormalizes(root);
  }

  /** How one request changes the tables: a fresh entry, a listed flag, a removal, or nothing. */
  datatype Change =
    | NoChange
    | NewFile(path: bytes, flags: u32)
    | NewDir(path: bytes)
    | List(handle: bytes)
    | Drop(handle: bytes)

  function Changed(h: Handler, c: Change): Handler {
    match c
    case NoChange => h
    case NewFile(path, flags) =>
      h.(nextHandle := WrapInc(h.nextHandle), files := h.files[BE32(h.nextHandle) := OpenFile(path, flags)])
    case NewDir(path) =>
      h.(nextHandle := WrapInc(h.nextHandle), dirs := h.dirs[BE32(h.nextHandle) := OpenDir(path, false)])
    case List(handle) =>
      if handle in h.dirs then h.(dirs := h.dirs[handle := h.dirs[handle].(listed := true)]) else h
    case Drop(handle) => h.(files := h.files - {handle}, dirs := h.dirs - {handle})
  }

  function ChangeOf(s: State, r: Request): Change {
    var t, h := r.packet.packetType, s.handler;
    if t == FXP_OPEN then
      match OpenedPath(h, r)
      case Some(path) => NewFile(path, TakeU32(TakeUtf8(r.packet.data).value.rest).value.value)
      case None => NoChange
    else if t == FXP_OPENDIR then
      match OpenedPath(h, r)
      case Some(path) => NewDir(path)
      case None => NoChange
    else if t == FXP_READDIR && TakeString(r.packet.data).Ok? then List(TakeString(r.packet.data).value.value)
    else if t == FXP_CLOSE && TakeString(r.packet.data).Ok? then Drop(TakeString(r.packet.data).value.value)
    else NoChange
  }

  /** The path an OPEN or OPENDIR gets a handle for. */
  function OpenedPath(h: Handler, r: Request): (p: Option<bytes>)
    ensures p.Some? && r.packet.packetType == FXP_OPEN ==>
              TakeUtf8(r.packet.data).Ok? && TakeU32(TakeUtf8(r.packet.data).value.rest).Ok?
  {
    match TakeUtf8(r.packet.data)
    case Err(_) => None
    case Ok(path) =>
      if r.packet.packetType == FXP_OPEN && TakeU32(path.rest).Err? then None
      else if r.packet.packetType == FXP_OPENDIR && !r.io.isDir then None
      else
        match Resolve(h.root, path.value, r.io.canon)
        case Ok(resolved) => Some(resolved)
        case Err(_) => None
  }

  lemma HandlerChanges(s: State, r: Request)
    ensures Handled(s, r.packet, r.io).state.handler == Changed(s.handler, ChangeOf(s, r))
    ensures Allocates(s, r) <==> ChangeOf(s, r).NewFile? || ChangeOf(s, r).NewDir?
  {
    hide TakeUtf8, TakeString, TakeU32, Resolve, TakeRead, TakeWrite, BE32, Overwrite, Chunk, EncString, Ascii, Bit;
    if r.packet.packetType == FXP_READDIR && TakeString(r.packet.data).Ok? {
      var handle, h := TakeString(r.packet.data).value.value, s.handler;
      if handle in h.dirs && h.dirs[handle].listed {
        assert h.dirs[handle := h.dirs[handle].(listed := true)] == h.dirs;
      }
    }
  }

  lemma FreshHandle(n: u32)
    ensures IsHandle(BE32(n), n + 1) && !IsHandle(BE32(n), n)
  {
    BE32Inverse(n);
  }

  predicate Grants(c: Change) { c.NewFile? || c.NewDir? }

  lemma ChangeKeepsTables(h: Handler, c: Change, count: nat)
    requires Tables(h, count) && (Grants(c) ==> count < TWO_32)
    ensures Tables(Changed(h, c), if Grants(c) then count + 1 else count)
  {
    hide BE32, FromBE32;
    FreshHandle(h.nextHandle);
  }

  lemma ChangeKeepsConfined(s: State, r: Request)
    requires Confined(s.handler) && GoodRoot(s.handler.root) && RootStable(s.handler, r.io)
    ensures Confined(Changed(s.handler, ChangeOf(s, r))) && Changed(s.handler, ChangeOf(s, r)).root == s.handler.root
  {
    hide BE32, TakeUtf8, TakeString, TakeU32, Resolve, Components, GoodRoot;
    if OpenedPath(s.handler, r).Some? {
      var path := TakeUtf8(r.packet.data).value.value;
      AcceptedIsUnderRoot(s.handler.root, path, r.io.canon);
    }
  }

  /** A handle that is in neither table. */
  predicate Gone(h: Handler, handle: bytes) { handle !in h.files && handle !in h.dirs }

  /** A handle that names no directory still to be listed. */
  predicate Spent(h: Handler, handle: bytes) { handle in h.dirs ==> h.dirs[handle].listed }

  /** Along any run of at most 2^32 handles the tables stay sound. */
  lemma {:induction false} RunKeepsTables(s: State, reqs: seq<Request>, count: nat)
    requires Tables(s.handler, count) && count + Handles(s, reqs) <= TWO_32
    ensures Tables(StateAfter(s, reqs).handler, count + Handles(s, reqs))
    decreases |reqs|
  {
    hide Handled, Allocates, Tables, Changed, ChangeOf;
    if reqs != [] {
      var r := reqs[0];
      HandlerChanges(s, r);
      ChangeKeepsTables(s.handler, ChangeOf(s, r), count);
      RunKeepsTables(Handled(s, r.packet, r.io).state, reqs[1..], if Allocates(s, r) then count + 1 else count);
    }
  }

  /** Along any run the stored paths stay under the root. */
  lemma {:induction false} RunConfined(s: State, reqs: seq<Request>)
    requires Confined(s.handler) && GoodRoot(s.handler.root)
    requires forall i :: 0 <= i < |reqs| ==> RootStable(s.handler, reqs[i].io)
    ensures Confined(StateAfter(s, reqs).handler) && StateAfter(s, reqs).handler.root == s.handler.root
    decreases |reqs|
  {
    hide Handled, Confined, Changed, ChangeOf, GoodRoot;
    if reqs != [] {
      HandlerChanges(s, reqs[0]);
      ChangeKeepsConfined(s, reqs[0]);
      RunConfined(Handled(s, reqs[0].packet, reqs[0].io).state, reqs[1..]);
    }
  }

  predicate NewHandler(h: Handler) { h.nextHandle == 0 && h.files == map[] && h.dirs == map[] }

  /**
   In every run from a new handler the stored paths lie under the root; and as long as no more than 2^32
   handles have been issued, live handles are the numbers issued so far and none is in both tables.
   */
  lemma TablesStaySound(s: State, reqs: seq<Request>)
    requires NewHandler(s.handler)
    requires GoodRoot(s.handler.root) && forall i :: 0 <= i < |reqs| ==> RootStable(s.handler, reqs[i].io)
    ensures Confined(StateAfter(s, reqs).handler)
    ensures Handles(s, reqs) <= TWO_32 ==> Tables(StateAfter(s, reqs).handler, Handles(s, reqs))
  {
    hide Handled, Allocates, GoodRoot, StateAfter, Handles, RootStable;
    assert Tables(s.handler, 0) && Confined(s.handler);
    hide Tables, Confined;
    if Handles(s, reqs) <= TWO_32 {
      RunKeepsTables(s, reqs, 0);
    }
    RunConfined(s, reqs);
  }

  predicate Apart(h: Handler) { h.files.Keys !! h.dirs.Keys }

  /** The request is granted a handle that is live in the other table. */
  predicate Collides(s: State, r: Request) {
    var c, next := ChangeOf(s, r), BE32(s.handler.nextHandle);
    (c.NewFile? && next in s.handler.dirs) || (c.NewDir? && next in s.handler.files)
  }

  lemma StaysApartIff(s: State, r: Request)
    requires Apart(s.handler)
    ensures Apart(Handled(s, r.packet, r.io).state.handler) <==> !Collides(s, r)
  {
    HandlerChanges(s, r);
    hide Handled, ChangeOf, BE32;
    if Collides(s, r) {
      assert BE32(s.handler.nextHandle) in Changed(s.handler, ChangeOf(s, r)).files;
    }
  }

  /** The tables are apart after every request of the run. */
  predicate AlwaysApart(s: State, reqs: seq<Request>)
    decreases |reqs|
  {
    Apart(s.handler) && (reqs != [] ==> AlwaysApart(Handled(s, reqs[0].packet, reqs[0].io).state, reqs[1..]))
  }

  predicate AnyCollision(s: State, reqs: seq<Request>)
    decreases |reqs|
  {
    reqs != [] && (Collides(s, reqs[0]) || AnyCollision(Handled(s, reqs[0].packet, reqs[0].io).state, reqs[1..]))
  }

  /** In every run the tables stay apart exactly if no granted handle is live in the other table. */
  lemma {:induction false} AlwaysApartIff(s: State, reqs: seq<Request>)
    requires Apart(s.handler)
    ensures AlwaysApart(s, reqs) <==> !AnyCollision(s, reqs)
    decreases |reqs|
  {
    hide Handled, Collides, Apart;
    if reqs != [] {
      StaysApartIff(s, reqs[0]);
      var s' := Handled(s, reqs[0].packet, reqs[0].io).state;
      if Apart(s'.handler) {
        AlwaysApartIff(s', reqs[1..]);
      }
    }
  }

  // ---------------------------------------------------------------- the handles issued along a run

  /** The numbers handed out, in order. */
  function Numbers(s: State, reqs: seq<Request>): seq<u32>
    decreases |reqs|
  {
    if reqs == [] then []
    else
      (if Allocates(s, reqs[0]) then [s.handler.nextHandle] else [])
      + Numbers(Handled(s, reqs[0].packet, reqs[0].io).state, reqs[1..])
  }

  /** They count up and wrap, in every run. */
  lemma {:induction false} NumbersCountUp(s: State, reqs: seq<Request>)
    ensures |Numbers(s, reqs)| == Handles(s, reqs)
    ensures forall i :: 0 <= i < |Numbers(s, reqs)| ==> Numbers(s, reqs)[i] == (s.handler.nextHandle + i) % TWO_32
    ensures StateAfter(s, reqs).handler.nextHandle == (s.handler.nextHandle + Handles(s, reqs)) % TWO_32
    decreases |reqs|
  {
    hide Handled, Allocates;
    if reqs != [] {
      var s' := Handled(s, reqs[0].packet, reqs[0].io).state;
      NextNumber(s, reqs[0]);
      NumbersCountUp(s', reqs[1..]);
      var n, rest := s.handler.nextHandle, Numbers(s', reqs[1..]);
      if Allocates(s, reqs[0]) {
        forall i | 0 < i <= |rest| ensures ([n] + rest)[i] == (n + i) % TWO_32 {
          WrapShift(n, i - 1);
        }
        WrapShift(n, Handles(s', reqs[1..]));
      }
    }
  }

  lemma NextNumber(s: State, r: Request)
    ensures Handled(s, r.packet, r.io).state.handler.nextHandle
         == if Allocates(s, r) then WrapInc(s.handler.nextHandle) else s.handler.nextHandle
  {
    hide Handled, ChangeOf, BE32, Allocates;
    HandlerChanges(s, r);
  }

  /** No handle is issued twice exactly in the runs that issue at most 2^32. */
  lemma HandlesNeverReusedIff(s: State, reqs: seq<Request>)
    ensures var issued := Numbers(s, reqs);
            (forall i, j :: 0 <= i < j < |issued| ==> issued[i] != issued[j]) <==> Handles(s, reqs) <= TWO_32
  {
    hide Numbers, Handles, StateAfter;
    NumbersCountUp(s, reqs);
    var n, issued := s.handler.nextHandle, Numbers(s, reqs);
    if |issued| > TWO_32 {
      assert issued[0] == issued[TWO_32] by { WrapAgain(n, 0); }
    }
    forall i, j | 0 <= i < j < |issued| && |issued| <= TWO_32 ensures issued[i] != issued[j] {
      WrapApart(n, i, j);
    }
  }

  function Again(r: Request, n: nat): seq<Request> { seq(n, _ => r) }

  /** A request that gets a file handle gets one every time. */
  lemma {:induction false} AgainAllocates(s: State, r: Request, n: nat)
    requires ChangeOf(s, r).NewFile?
    ensures Handles(s, Again(r, n)) == n
    ensures StateAfter(s, Again(r, n)).handler.root == s.handler.root
    ensures forall k :: k in s.handler.files ==> k in StateAfter(s, Again(r, n)).handler.files
    ensures n > 0 ==> BE32(s.handler.nextHandle) in StateAfter(s, Again(r, n)).handler.files
    decreases n
  {
    hide Handled, Allocates, BE32, TakeUtf8, TakeU32, TakeString, Resolve;
    if n > 0 {
      HandlerChanges(s, r);
      assert Again(r, n)[1..] == Again(r, n - 1);
      AgainAllocates(Handled(s, r.packet, r.io).state, r, n - 1);
    }
  }

  /** One handle too many: a file kept open since the first request shares its handle with a new directory. */
  lemma TablesClash(s: State, file: Request, dir: Request)
    requires NewHandler(s.handler) && ChangeOf(s, file).NewFile? && ChangeOf(s, dir).NewDir?
    ensures var h := StateAfter(s, Again(file, TWO_32) + [dir]).handler;
            BE32(0) in h.files && BE32(0) in h.dirs
  {
    hide Handled, Allocates, BE32, ChangeOf, StateAfter, Handles, Numbers, Again;
    var full := StateAfter(s, Again(file, TWO_32));
    AgainAllocates(s, file, TWO_32);
    NumbersCountUp(s, Again(file, TWO_32));
    StateAfterConcat(s, Again(file, TWO_32), [dir]);
    SameGrant(s, full, dir);
    HandlerChanges(full, dir);
    OneRequest(full, dir);
  }

  lemma SameGrant(s: State, t: State, r: Request)
    requires s.handler.root == t.handler.root
    ensures ChangeOf(s, r) == ChangeOf(t, r)
  {
    hide TakeUtf8, TakeU32, TakeString, Resolve;
  }

  lemma OneRequest(s: State, r: Request)
    ensures StateAfter(s, [r]) == Handled(s, r.packet, r.io).state
  {
    hide Handled;
    assert [r][1..] == [];
  }

  // ---------------------------------------------------------------- closed handles

  predicate UsesHandle(p: SftpPacket, handle: bytes) {
    || (p.packetType == FXP_READ && TakeRead(p.data).Ok? && TakeRead(p.data).value.handle == handle)
    || (p.packetType == FXP_WRITE && TakeWrite(p.data).Ok? && TakeWrite(p.data).value.handle == handle)
    || (p.packetType == FXP_READDIR && TakeString(p.data).Ok? && TakeString(p.data).value.value == handle)
  }

  lemma GoneIsInvalid(s: State, r: Request, handle: bytes)
    requires Gone(s.handler, handle) && UsesHandle(r.packet, handle)
    ensures Handled(s, r.packet, r.io).reply == StatusReply(r.packet.requestId, FX_FAILURE, Ascii("Invalid handle"))
  {
    hide Handled, TakeString, TakeRead, TakeWrite, StatusReply, OnReaddir, OnRead, OnWrite, Ascii, Gone;
    var p, io := r.packet, r.io;
    Dispatches(s, p, io);
    if p.packetType == FXP_READ {
      GoneForReading(s, p, io, handle);
    } else if p.packetType == FXP_WRITE {
      GoneForWriting(s, p, io, handle);
    } else {
      GoneForListing(s, p, io, handle);
    }
  }

  lemma Dispatches(s: State, p: SftpPacket, io: Io)
    ensures p.packetType == FXP_READ ==> Handled(s, p, io) == OnRead(s, p, io)
    ensures p.packetType == FXP_WRITE ==> Handled(s, p, io) == OnWrite(s, p, io)
    ensures p.packetType == FXP_READDIR ==> Handled(s, p, io) == OnReaddir(s, p, io)
  {
    hide OnRealpath, OnStat, OnOpendir, OnReaddir, OnClose, OnOpen, OnRead, OnWrite, OnChange, Status;
  }

  lemma GoneForReading(s: State, p: SftpPacket, io: Io, handle: bytes)
    requires Gone(s.handler, handle) && TakeRead(p.data).Ok? && TakeRead(p.data).value.handle == handle
    ensures OnRead(s, p, io).reply == StatusReply(p.requestId, FX_FAILURE, Ascii("Invalid handle"))
  {
    hide TakeRead, StatusReply, Chunk, EncString, Ascii;
  }

  lemma GoneForWriting(s: State, p: SftpPacket, io: Io, handle: bytes)
    requires Gone(s.handler, handle) && TakeWrite(p.data).Ok? && TakeWrite(p.data).value.handle == handle
    ensures OnWrite(s, p, io).reply == StatusReply(p.requestId, FX_FAILURE, Ascii("Invalid handle"))
  {
    hide TakeWrite, StatusReply, Overwrite, Bit, Ascii;
  }

  lemma GoneForListing(s: State, p: SftpPacket, io: Io, handle: bytes)
    requires Gone(s.handler, handle) && TakeString(p.data).Ok? && TakeString(p.data).value.value == handle
    ensures OnReaddir(s, p, io).reply == StatusReply(p.requestId, FX_FAILURE, Ascii("Invalid handle"))
  {
    hide TakeString, StatusReply, NameReply, Ascii;
  }

  /** A new handle is the next number. */
  lemma AllocatedHandle(s: State, r: Request)
    requires Allocates(s, r)
    ensures Handled(s, r.packet, r.io).reply == HandleReply(r.packet.requestId, BE32(s.handler.nextHandle))
  {
    hide TakeUtf8, TakeString, TakeU32, Resolve, TakeRead, TakeWrite, BE32, Overwrite, Chunk, EncString, Ascii, Bit;
  }

  lemma HandleRepliesDiffer(id: u32, m: u32, n: u32)
    requires m != n
    ensures HandleReply(id, BE32(m)) != HandleReply(id, BE32(n))
  {
    hide BE32, EncString;
    if EncString(BE32(m)) == EncString(BE32(n)) {
      assert EncString(BE32(m)) + [] == EncString(BE32(n)) + [];
      EncStringPrefixFree(BE32(m), BE32(n), [], []);
      BE32Injective(m, n);
    }
  }

  predicate Closes(p: SftpPacket, handle: bytes) {
    p.packetType == FXP_CLOSE && TakeString(p.data).Ok? && TakeString(p.data).value.value == handle
  }

  lemma Splits(reqs: seq<Request>, i: nat, j: nat)
    requires i < j <= |reqs|
    ensures reqs[..j] == reqs[..i] + ([reqs[i]] + reqs[i + 1..j])
  {
  }

  /** The request is answered with this very handle. */
  predicate Reissues(s: State, r: Request, handle: bytes) { Allocates(s, r) && BE32(s.handler.nextHandle) == handle }

  /** Somewhere along the run the handle is issued. */
  predicate Reissued(s: State, reqs: seq<Request>, handle: bytes)
    decreases |reqs|
  {
    && reqs != []
    && (Reissues(s, reqs[0], handle) || Reissued(Handled(s, reqs[0].packet, reqs[0].io).state, reqs[1..], handle))
  }

  lemma {:induction false} ReissuedIffNumber(s: State, reqs: seq<Request>, n: u32)
    ensures Reissued(s, reqs, BE32(n)) <==> n in Numbers(s, reqs)
    decreases |reqs|
  {
    hide Handled, Allocates, BE32;
    if reqs != [] {
      ReissuedIffNumber(Handled(s, reqs[0].packet, reqs[0].io).state, reqs[1..], n);
      if BE32(s.handler.nextHandle) == BE32(n) {
        BE32Injective(s.handler.nextHandle, n);
      }
    }
  }

  lemma ChangeKeepsOld(h: Handler, c: Change, handle: bytes)
    requires Grants(c) ==> BE32(h.nextHandle) != handle
    ensures Gone(h, handle) ==> Gone(Changed(h, c), handle)
    ensures Spent(h, handle) ==> Spent(Changed(h, c), handle)
  {
    hide BE32;
  }

  /** Until a handle is issued again, what is closed stays closed and what is listed stays listed. */
  lemma {:induction false} RunKeepsOld(s: State, reqs: seq<Request>, handle: bytes)
    requires !Reissued(s, reqs, handle)
    ensures Gone(s.handler, handle) ==> Gone(StateAfter(s, reqs).handler, handle)
    ensures Spent(s.handler, handle) ==> Spent(StateAfter(s, reqs).handler, handle)
    decreases |reqs|
  {
    hide Handled, Changed, ChangeOf, Gone, Spent, Allocates;
    if reqs != [] {
      HandlerChanges(s, reqs[0]);
      ChangeKeepsOld(s.handler, ChangeOf(s, reqs[0]), handle);
      RunKeepsOld(Handled(s, reqs[0].packet, reqs[0].io).state, reqs[1..], handle);
    }
  }

  /** The state request `i` leaves. */
  function Left(s: State, reqs: seq<Request>, i: nat): State
    requires i < |reqs|
  {
    Handled(StateAfter(s, reqs[..i]), reqs[i].packet, reqs[i].io).state
  }

  lemma LeftReaches(s: State, reqs: seq<Request>, i: nat, j: nat)
    requires i < j <= |reqs|
    ensures StateAfter(s, reqs[..j]) == StateAfter(Left(s, reqs, i), reqs[i + 1..j])
    ensures Handles(s, reqs[..j]) == Handles(s, reqs[..i + 1]) + Handles(Left(s, reqs, i), reqs[i + 1..j])
  {
    hide Handled, Allocates, Handles, StateAfter;
    var before := StateAfter(s, reqs[..i]);
    Splits(reqs, i, j);
    Splits(reqs, i, i + 1);
    StateAfterConcat(s, reqs[..i], [reqs[i]] + reqs[i + 1..j]);
    StateAfterConcat(s, reqs[..i], [reqs[i]]);
    StateAfterConcat(before, [reqs[i]], reqs[i + 1..j]);
    OneRequest(before, reqs[i]);
    assert [reqs[i]] + reqs[i + 1..i + 1] == [reqs[i]];
  }

  /** A closed handle answers "Invalid handle" until it is issued again. */
  lemma ClosedStaysClosed(s: State, reqs: seq<Request>, i: nat, j: nat, handle: bytes)
    requires i < j < |reqs| && Closes(reqs[i].packet, handle) && UsesHandle(reqs[j].packet, handle)
    requires !Reissued(Left(s, reqs, i), reqs[i + 1..j], handle)
    ensures ReplyTo(s, reqs, j) == StatusReply(reqs[j].packet.requestId, FX_FAILURE, Ascii("Invalid handle"))
  {
    hide Handled, Allocates, UsesHandle, StateAfter, Reissued, Gone, Closes, Ascii;
    CloseDrops(StateAfter(s, reqs[..i]), reqs[i], handle);
    RunKeepsOld(Left(s, reqs, i), reqs[i + 1..j], handle);
    LeftReaches(s, reqs, i, j);
    GoneIsInvalid(StateAfter(s, reqs[..j]), reqs[j], handle);
  }

  lemma CloseDrops(s: State, r: Request, handle: bytes)
    requires Closes(r.packet, handle)
    ensures Gone(Handled(s, r.packet, r.io).state.handler, handle)
  {
    hide TakeString, StatusReply;
  }

  /** A reply carries handle `n` exactly when the request is granted one and `n` is next. */
  lemma IssuesIff(s: State, r: Request, n: u32)
    ensures Handled(s, r.packet, r.io).reply == HandleReply(r.packet.requestId, BE32(n)) <==> Reissues(s, r, BE32(n))
  {
    hide Handled, BE32;
    if Handled(s, r.packet, r.io).reply == HandleReply(r.packet.requestId, BE32(n)) {
      AllocatedHandle(s, r);
      if s.handler.nextHandle != n {
        HandleRepliesDiffer(r.packet.requestId, s.handler.nextHandle, n);
      }
    } else if Reissues(s, r, BE32(n)) {
      AllocatedHandle(s, r);
    }
  }

  /** A handle comes back after its first issue exactly when 2^32 more have been issued. */
  lemma ComesBackIff(s: State, reqs: seq<Request>, i: nat, n: u32)
    requires NewHandler(s.handler) && i < |reqs| && n < Handles(s, reqs[..i + 1]) <= TWO_32 + n
    ensures Reissued(Left(s, reqs, i), reqs[i + 1..], BE32(n)) <==> Handles(s, reqs) > TWO_32 + n
  {
    hide Handled, Allocates, BE32, StateAfter, Handles, Numbers, Reissued;
    var mid, rest, c := Left(s, reqs, i), reqs[i + 1..], Handles(s, reqs[..i + 1]);
    LeftReaches(s, reqs, i, |reqs|);
    LeftReaches(s, reqs, i, i + 1);
    assert reqs[..|reqs|] == reqs && reqs[i + 1..|reqs|] == rest && reqs[i + 1..i + 1] == [];
    NumbersCountUp(s, reqs[..i + 1]);
    NumbersCountUp(mid, rest);
    NoRequests(mid);
    ReissuedIffNumber(mid, rest, n);
    Among(Numbers(mid, rest), c, n);
  }

  /** When a number is among those that follow the first `c`. */
  lemma Among(numbers: seq<u32>, c: nat, n: u32)
    requires forall k :: 0 <= k < |numbers| ==> numbers[k] == (c % TWO_32 + k) % TWO_32
    requires n < c <= TWO_32 + n
    ensures n in numbers <==> c + |numbers| > TWO_32 + n
  {
    if c + |numbers| > TWO_32 + n {
      var k := TWO_32 + n - c;
      ModOfMod(c, k);
      assert numbers[k] == n;
    } else {
      forall k | 0 <= k < |numbers| ensures numbers[k] != n {
        ModOfMod(c, k);
        NotYet(c + k, n);
      }
    }
  }

  lemma NoRequests(s: State)
    ensures StateAfter(s, []) == s && Handles(s, []) == 0
  {
  }

  lemma ModOfMod(c: nat, k: nat)
    ensures (c % TWO_32 + k) % TWO_32 == (c + k) % TWO_32
  {
  }

  lemma NotYet(x: nat, n: u32)
    requires n < x < TWO_32 + n
    ensures x % TWO_32 != n
  {
  }

  // ---------------------------------------------------------------- one listing per directory

  predicate Lists(p: SftpPacket, handle: bytes) {
    p.packetType == FXP_READDIR && TakeString(p.data).Ok? && TakeString(p.data).value.value == handle
  }

  lemma ListingSpends(s: State, r: Request, handle: bytes)
    requires Lists(r.packet, handle) && Handled(s, r.packet, r.io).reply.packetType == FXP_NAME
    ensures !Spent(s.handler, handle) && Spent(Handled(s, r.packet, r.io).state.handler, handle)
  {
    hide TakeString, BE32, EncString, EncEntries;
  }

  /** If two READDIRs on one handle are both answered with names, the handle was issued again between them. */
  lemma OneListingPerHandle(s: State, reqs: seq<Request>, i: nat, j: nat, handle: bytes)
    requires i < j < |reqs| && Lists(reqs[i].packet, handle) && Lists(reqs[j].packet, handle)
    requires ReplyTo(s, reqs, i).packetType == FXP_NAME && ReplyTo(s, reqs, j).packetType == FXP_NAME
    ensures Reissued(Left(s, reqs, i), reqs[i + 1..j], handle)
  {
    hide Handled, Allocates, Lists, StateAfter, Reissued, Spent;
    ListingSpends(StateAfter(s, reqs[..i]), reqs[i], handle);
    ListingSpends(StateAfter(s, reqs[..j]), reqs[j], handle);
    LeftReaches(s, reqs, i, j);
    if !Reissued(Left(s, reqs, i), reqs[i + 1..j], handle) {
      RunKeepsOld(Left(s, reqs, i), reqs[i + 1..j], handle);
    }
  }

  // ---------------------------------------------------------------- files outside the root

  predicate Untouched(before: Disk, after: Disk, q: bytes) {
    (q in after <==> q in before) && (q in before ==> after[q] == before[q])
  }

  /** The one file a request may change. */
  function Touched(s: State, r: Request): Option<bytes> {
    var p, h := r.packet, s.handler;
    if p.packetType == FXP_WRITE && TakeWrite(p.data).Ok? && TakeWrite(p.data).value.handle in h.files then
      Some(h.files[TakeWrite(p.data).value.handle].path)
    else if p.packetType == FXP_REMOVE && TakeUtf8(p.data).Ok?
            && Resolve(h.root, TakeUtf8(p.data).value.value, r.io.canon).Ok? then
      Some(Resolve(h.root, TakeUtf8(p.data).value.value, r.io.canon).value)
    else None
  }

  lemma OnlyTouchedChanges(s: State, r: Request, q: bytes)
    requires Touched(s, r) != Some(q)
    ensures Untouched(s.disk, Handled(s, r.packet, r.io).state.disk, q)
  {
    hide TakeUtf8, TakeString, TakeU32, Resolve, TakeRead, TakeWrite, BE32, Overwrite, Chunk, EncString, Ascii, Bit,
      StatusReply, NameReply;
  }

  lemma TouchedIsInside(s: State, r: Request)
    requires Confined(s.handler) && GoodRoot(s.handler.root) && RootStable(s.handler, r.io)
    ensures Touched(s, r).Some? ==> Components(s.handler.root) <= Components(Touched(s, r).value)
  {
    hide TakeUtf8, TakeWrite, Resolve, Components, GoodRoot;
    if r.packet.packetType == FXP_REMOVE && Touched(s, r).Some? {
      AcceptedIsUnderRoot(s.handler.root, TakeUtf8(r.packet.data).value.value, r.io.canon);
    }
  }

  /** One request leaves files outside the root alone, and the stored paths under it. */
  lemma StaysInside(s: State, r: Request, q: bytes)
    requires Confined(s.handler) && GoodRoot(s.handler.root) && RootStable(s.handler, r.io)
    requires !(Components(s.handler.root) <= Components(q))
    ensures var s' := Handled(s, r.packet, r.io).state;
            Untouched(s.disk, s'.disk, q) && Confined(s'.handler) && s'.handler.root == s.handler.root
  {
    hide Handled, Confined, Changed, ChangeOf, GoodRoot, Touched, Components, Untouched;
    TouchedIsInside(s, r);
    OnlyTouchedChanges(s, r, q);
    HandlerChanges(s, r);
    ChangeKeepsConfined(s, r);
  }

  /** No run of requests changes, creates or removes a file outside the root. */
  lemma {:induction false} NothingOutsideChanges(s: State, reqs: seq<Request>, q: bytes)
    requires Confined(s.handler) && GoodRoot(s.handler.root)
    requires forall i :: 0 <= i < |reqs| ==> RootStable(s.handler, reqs[i].io)
    requires !(Components(s.handler.root) <= Components(q))
    ensures Untouched(s.disk, StateAfter(s, reqs).disk, q)
    decreases |reqs|
  {
    hide Handled, Confined, GoodRoot, Components;
    if reqs != [] {
      StaysInside(s, reqs[0], q);
      NothingOutsideChanges(Handled(s, reqs[0].packet, reqs[0].io).state, reqs[1..], q);
    }
  }
}
