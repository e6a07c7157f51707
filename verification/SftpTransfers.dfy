/**
 What a client gets by writing and reading through one handle.
 */
module SftpTransfers {
  import opened Bytes
  import opened Wire
  import opened SftpCodec
  import opened SftpFiles
  import opened SftpHandler
  import opened SftpRuns

  // ---------------------------------------------------------------- writing

  /** The status code of a STATUS reply, if it is one. */
  function StatusCode(reply: SftpPacket): Option<u32> {
    if reply.packetType == FXP_STATUS && |reply.data| >= 4 then Some(FromBE32(reply.data[..4])) else None
  }

  lemma StatusCodeOf(id: u32, code: u32, message: str)
    ensures StatusCode(StatusReply(id, code, message)) == Some(code)
  {
    hide BE32, FromBE32, EncString;
    BE32Inverse(code);
    assert StatusReply(id, code, message).data[..4] == BE32(code);
  }

  predicate IsWrite(r: Request, handle: bytes, w: Write) {
    && r.packet.packetType == FXP_WRITE
    && TakeWrite(r.packet.data).Ok?
    && TakeWrite(r.packet.data).value.handle == handle
    && TakeWrite(r.packet.data).value.offset == w.offset
    && TakeWrite(r.packet.data).value.data == w.data
  }

  function Content(d: Disk, path: bytes): bytes { if path in d then d[path] else [] }

  /** A write answered OK did exactly one positional overwrite, of a truncated file if the handle says so. */
  lemma WriteSucceeds(s: State, r: Request, handle: bytes, w: Write)
    requires handle in s.handler.files && IsWrite(r, handle, w)
    requires StatusCode(Handled(s, r.packet, r.io).reply) == Some(FX_OK)
    ensures var f := s.handler.files[handle];
            var before := if f.Truncates() then [] else Content(s.disk, f.path);
            Handled(s, r.packet, r.io).state == s.(disk := s.disk[f.path := Overwrite(before, w.offset, w.data)])
  {
    WriteIsDispatched(s, r);
    hide Handled, TakeWrite, Overwrite, StatusReply, StatusCode, Bit, Ascii;
    var f, id := s.handler.files[handle], r.packet.requestId;
    if !f.Writable() {
      StatusCodeOf(id, FX_PERMISSION_DENIED, Ascii("Not opened for writing"));
    } else if !r.io.opens || (f.path !in s.disk && !f.Creates()) {
      StatusCodeOf(id, FX_PERMISSION_DENIED, Ascii("Cannot open"));
    } else if !r.io.seeks {
      StatusCodeOf(id, FX_FAILURE, Ascii("Seek failed"));
    } else if !r.io.transfers {
      StatusCodeOf(id, FX_FAILURE, Ascii("Write error"));
    }
  }

  lemma WriteIsDispatched(s: State, r: Request)
    requires r.packet.packetType == FXP_WRITE
    ensures Handled(s, r.packet, r.io) == OnWrite(s, r.packet, r.io)
  {
    hide OnWrite;
  }

  /** Every request is a write through the handle, and every answer is OK. */
  predicate Writes(s: State, reqs: seq<Request>, handle: bytes, ws: seq<Write>)
    decreases |reqs|
  {
    && |reqs| == |ws|
    && (reqs == [] ||
        (&& IsWrite(reqs[0], handle, ws[0])
         && StatusCode(Handled(s, reqs[0].packet, reqs[0].io).reply) == Some(FX_OK)
         && Writes(Handled(s, reqs[0].packet, reqs[0].io).state, reqs[1..], handle, ws[1..])))
  }

  /** Without truncation successful writes are the fold of their positional overwrites, and touch nothing else. */
  lemma {:induction false} WritesFold(s: State, reqs: seq<Request>, handle: bytes, ws: seq<Write>)
    requires handle in s.handler.files && !s.handler.files[handle].Truncates() && Writes(s, reqs, handle, ws)
    ensures var e, path := StateAfter(s, reqs), s.handler.files[handle].path;
            && e.handler == s.handler
            && Content(e.disk, path) == Written(Content(s.disk, path), ws)
            && (forall q :: q != path ==> Content(e.disk, q) == Content(s.disk, q))
    decreases |reqs|
  {
    hide Handled, IsWrite, Overwrite, Bit;
    if reqs != [] {
      WriteSucceeds(s, reqs[0], handle, ws[0]);
      WritesFold(Handled(s, reqs[0].packet, reqs[0].io).state, reqs[1..], handle, ws[1..]);
    }
  }

  /** With truncation only the last write of the run survives, after zeros. */
  lemma {:induction false} TruncatingWrites(s: State, reqs: seq<Request>, handle: bytes, ws: seq<Write>)
    requires handle in s.handler.files && s.handler.files[handle].Truncates() && Writes(s, reqs, handle, ws)
    requires reqs != []
    ensures var e, path, last := StateAfter(s, reqs), s.handler.files[handle].path, ws[|ws| - 1];
            && e.handler == s.handler
            && Content(e.disk, path) == (if last.data == [] then [] else Zeros(last.offset) + last.data)
    decreases |reqs|
  {
    hide Handled, IsWrite, Bit;
    WriteSucceeds(s, reqs[0], handle, ws[0]);
    var s' := Handled(s, reqs[0].packet, reqs[0].io).state;
    TruncatedWrite(ws[0].offset, ws[0].data);
    if |reqs| > 1 {
      hide Overwrite;
      TruncatingWrites(s', reqs[1..], handle, ws[1..]);
    } else {
      assert StateAfter(s', reqs[1..]) == s';
    }
  }

  // ---------------------------------------------------------------- reading

  /** The bytes a client finds in a reply. */
  function Got(reply: SftpPacket): bytes {
    if reply.packetType == FXP_DATA && TakeString(reply.data).Ok? then TakeString(reply.data).value.value else []
  }

  lemma GotData(id: u32, data: bytes)
    requires |data| <= MAX_PACKET_SIZE
    ensures Got(DataReply(id, data)) == data
  {
    hide EncString, TakeString;
    assert EncString(data) + [] == EncString(data);
    TakeStringInverts(EncString(data), data, []);
  }

  predicate IsRead(r: Request, handle: bytes, offset: nat) {
    && r.packet.packetType == FXP_READ
    && TakeRead(r.packet.data).Ok?
    && TakeRead(r.packet.data).value.handle == handle
    && TakeRead(r.packet.data).value.offset == offset
    && TakeRead(r.packet.data).value.length > 0
    && r.io.opens && r.io.seeks && r.io.transfers
  }

  /** Reads of positive lengths, each from where the previous answers ended; the system may return short. */
  predicate ReadsOn(s: State, reqs: seq<Request>, handle: bytes, offset: nat)
    decreases |reqs|
  {
    reqs == [] ||
    (&& IsRead(reqs[0], handle, offset)
     && ReadsOn(s, reqs[1..], handle, offset + |Got(Handled(s, reqs[0].packet, reqs[0].io).reply)|))
  }

  function Collected(s: State, reqs: seq<Request>): bytes
    decreases |reqs|
  {
    if reqs == [] then [] else Got(Handled(s, reqs[0].packet, reqs[0].io).reply) + Collected(s, reqs[1..])
  }

  predicate SawEof(s: State, reqs: seq<Request>)
    decreases |reqs|
  {
    reqs != [] && (StatusCode(Handled(s, reqs[0].packet, reqs[0].io).reply) == Some(FX_EOF) || SawEof(s, reqs[1..]))
  }

  /** One read changes nothing, and answers with a piece of the file or, exactly at its end, with EOF. */
  lemma ReadAnswers(s: State, r: Request, handle: bytes, offset: nat, file: bytes)
    requires handle in s.handler.files && s.handler.files[handle].path in s.disk
    requires s.disk[s.handler.files[handle].path] == file && IsRead(r, handle, offset) && offset <= |file|
    ensures var o := Handled(s, r.packet, r.io);
            && o.state == s
            && offset + |Got(o.reply)| <= |file| && Got(o.reply) == file[offset..offset + |Got(o.reply)|]
            && (offset == |file| <==> Got(o.reply) == [])
            && (offset == |file| <==> StatusCode(o.reply) == Some(FX_EOF))
  {
    hide TakeRead, Chunk, StatusReply, EncString, TakeString, StatusCode;
    var a := TakeRead(r.packet.data).value;
    var data := Chunk(file, a.offset, a.length, r.io.chunk);
    assert Handled(s, r.packet, r.io) == OnRead(s, r.packet, r.io);
    if data == [] {
      StatusCodeOf(r.packet.requestId, FX_EOF, Ascii("EOF"));
      StatusIsNoData(r.packet.requestId, FX_EOF, Ascii("EOF"));
    } else {
      GotData(r.packet.requestId, data);
      DataIsNoStatus(r.packet.requestId, data);
    }
  }

  lemma StatusIsNoData(id: u32, code: u32, m: str)
    ensures Got(StatusReply(id, code, m)) == []
  {
  }

  lemma DataIsNoStatus(id: u32, data: bytes)
    ensures StatusCode(DataReply(id, data)) == None
  {
  }

  /**
   Such reads collect the file from the starting offset on; the first EOF means all of it, and it comes
   within |file| + 1 reads.
   */
  lemma {:induction false} ReadsReconstruct(s: State, reqs: seq<Request>, handle: bytes, offset: nat, file: bytes)
    requires handle in s.handler.files && s.handler.files[handle].path in s.disk
    requires s.disk[s.handler.files[handle].path] == file && offset <= |file|
    requires ReadsOn(s, reqs, handle, offset)
    ensures StateAfter(s, reqs) == s
    ensures offset + |Collected(s, reqs)| <= |file|
    ensures Collected(s, reqs) == file[offset..offset + |Collected(s, reqs)|]
    ensures SawEof(s, reqs) ==> Collected(s, reqs) == file[offset..]
    ensures |reqs| > |file| - offset ==> SawEof(s, reqs)
    decreases |reqs|
  {
    hide Handled, IsRead, Got, StatusCode;
    if reqs != [] {
      ReadAnswers(s, reqs[0], handle, offset, file);
      var got := Got(Handled(s, reqs[0].packet, reqs[0].io).reply);
      ReadsReconstruct(s, reqs[1..], handle, offset + |got|, file);
    }
  }
}
