/**
 What the server's channel loop does for each message, as a client builds it, and what the client reads in
 the answer.
 */
module Answers {
  import opened Bytes
  import opened Wire
  import opened Packets
  import opened Channels
  import opened Messages
  import opened SftpCodec
  import opened SftpHandler
  import opened Session
  import opened Server

  /** Nothing is done, nothing is said, and the loop goes on. */
  const NOTHING := Plan([], Continue)

  // ---------------------------------------------------------------- opening

  /** CHANNEL_OPEN: the next id, under which the client's window and limit are kept, and the server's own announced. */
  lemma OpenAnswered(m: Manager, st: State, o: ChannelOpenMsg, trailing: bytes, w: Outside)
    requires Readable(o.channelType)
    ensures var plan := PlanFor(m, st, Packet(90, OpenPayload(o) + trailing), w);
            && plan.next == Continue && |plan.events| == 2 && plan.events[0] == Effect(OpensChannel(m.nextId, o))
            && plan.events[1].Sent? && plan.events[1].packet.msgType == 91
            && ReadsAs(plan.events[1].packet.payload, [o.senderChannel, m.nextId, 2_097_152, 32768])
  {
    hide OpenPayload, ParseOpen, BE32, ReadsAs;
    OpenRoundTrip(o, trailing);
    FourNumbers(o.senderChannel, m.nextId, 2_097_152, 32768);
  }

  /** The bytes read as these numbers. */
  predicate ReadsAs(b: bytes, ns: seq<u32>)
    decreases |ns|
  {
    if ns == [] then b == []
    else TakeU32(b).Ok? && TakeU32(b).value.value == ns[0] && ReadsAs(TakeU32(b).value.rest, ns[1..])
  }

  lemma {:induction false} NumberReads(ns: seq<u32>, b: bytes, n: u32)
    requires ReadsAs(b, ns)
    ensures ReadsAs(BE32(n) + b, [n] + ns)
  {
    hide BE32, TakeU32;
    TakeU32Iff(BE32(n) + b, n, b);
    assert ([n] + ns)[1..] == ns;
  }

  lemma FourNumbers(a: u32, b: u32, c: u32, d: u32)
    ensures ReadsAs(BE32(a) + BE32(b) + BE32(c) + BE32(d), [a, b, c, d])
  {
    hide BE32, ReadsAs;
    assert [d] + [] == [d] && [c] + [d] == [c, d] && [b] + [c, d] == [b, c, d] && [a] + [b, c, d] == [a, b, c, d];
    NoNumbers();
    NumberReads([], [], d);
    NumberReads([d], BE32(d) + [], c);
    NumberReads([c, d], BE32(c) + (BE32(d) + []), b);
    NumberReads([b, c, d], BE32(b) + (BE32(c) + (BE32(d) + [])), a);
    assert BE32(a) + (BE32(b) + (BE32(c) + (BE32(d) + []))) == BE32(a) + BE32(b) + BE32(c) + BE32(d);
  }

  lemma NoNumbers()
    ensures ReadsAs([], [])
  {
  }

  /** What is known of the channel afterwards; the others are left alone. */
  lemma OpenedChannel(m: Manager, o: ChannelOpenMsg, trailing: bytes, m': Manager)
    requires Readable(o.channelType) && ChannelsAfter(m, Packet(90, OpenPayload(o) + trailing), m')
    ensures m'.nextId == (m.nextId + 1) % TWO_32 && m'.channels.Keys == m.channels.Keys + {m.nextId}
    ensures forall id :: id in m.channels && id != m.nextId ==> m'.channels[id] == m.channels[id]
    ensures var c := m'.channels[m.nextId];
            && c.localId == m.nextId && c.remoteId == o.senderChannel && c.channelType == o.channelType
            && c.localWindow == 2_097_152 && c.localMaxPacket == 32768
            && c.remoteWindow == o.initialWindow && c.remoteMaxPacket == o.maxPacket
            && !c.eofSent && !c.eofReceived && !c.closed && c.recvBuffer == []
  {
    hide OpenPayload, ParseOpen;
    OpenRoundTrip(o, trailing);
  }

  // ---------------------------------------------------------------- requests

  /** SUCCESS or FAILURE, if an answer is wanted and the channel is known. */
  ghost predicate Replies(m: Manager, recipient: u32, wantReply: bool, success: bool, plan: Plan) {
    if !wantReply then plan == NOTHING
    else if !Known(m, recipient) then plan == Plan([], Fail(Channel("Unknown channel")))
    else
      && plan.next == Continue && |plan.events| == 1 && plan.events[0].Sent?
      && plan.events[0].packet.msgType == (if success then 99 else 100)
      && ReadsAs(plan.events[0].packet.payload, [recipient])
  }

  lemma OneNumber(n: u32)
    ensures ReadsAs(BE32(n), [n])
  {
    hide BE32, ReadsAs;
    NoNumbers();
    NumberReads([], [], n);
    assert [n] + [] == [n] && BE32(n) + [] == BE32(n);
  }

  /** Which requests the server says yes to: a shell, a terminal, and the one subsystem it has. */
  lemma RequestAnswered(m: Manager, st: State, q: ChannelRequestMsg, w: Outside)
    requires Readable(q.requestType) && q.requestType != Ascii("exec")
    requires q.requestType == Ascii("subsystem") ==> TakeUtf8(q.data).Ok?
    ensures var p := Packet(98, RequestPayload(q));
            var yes := || q.requestType == Ascii("shell") || q.requestType == Ascii("pty-req")
                       || (q.requestType == Ascii("subsystem") && TakeUtf8(q.data).value.value == Ascii("sftp"));
            && Replies(m, q.recipientChannel, q.wantReply, yes, PlanFor(m, st, p, w))
            && SftpAfter(st, p, w) == st && forall m' :: ChannelsAfter(m, p, m') <==> m' == m
  {
    hide RequestPayload, ParseRequest, TakeUtf8, BE32, Ascii, ReadsAs, Known;
    RequestRoundTrip(q);
    OneNumber(q.recipientChannel);
    KindsDiffer();
  }

  lemma KindsDiffer()
    ensures Ascii("shell") != Ascii("subsystem") && Ascii("shell") != Ascii("pty-req")
    ensures Ascii("subsystem") != Ascii("pty-req")
  {
    assert |Ascii("shell")| == 5 && |Ascii("subsystem")| == 9 && |Ascii("pty-req")| == 7;
  }

  /** So a client's built requests are answered, whatever terminal it asks for. */
  lemma BuiltRequestsSucceed(m: Manager, st: State, recipient: u32, term: str, cols: u32, rows: u32, x: u32, y: u32,
                             w: Outside)
    requires Known(m, recipient)
    ensures Replies(m, recipient, true, true, PlanFor(m, st, Packet(98, RequestPayload(ShellMsg(recipient, true))), w))
    ensures Replies(m, recipient, true, true,
                    PlanFor(m, st, Packet(98, RequestPayload(PtyMsg(recipient, term, cols, rows, x, y, true))), w))
  {
    hide PlanFor, RequestPayload, Replies, Ascii, EncString, SftpAfter, ChannelsAfter;
    KindsDiffer();
    RequestAnswered(m, st, ShellMsg(recipient, true), w);
    RequestAnswered(m, st, PtyMsg(recipient, term, cols, rows, x, y, true), w);
    NotExec();
  }

  lemma NotExec()
    ensures Ascii("shell") != Ascii("exec") && Ascii("pty-req") != Ascii("exec")
  {
    assert |Ascii("shell")| == 5 && |Ascii("exec")| == 4 && |Ascii("pty-req")| == 7;
  }

  /** A subsystem whose name cannot be read ends the session. */
  lemma BadSubsystemFails(m: Manager, st: State, q: ChannelRequestMsg, w: Outside)
    requires q.requestType == Ascii("subsystem") && TakeUtf8(q.data).Err?
    ensures PlanFor(m, st, Packet(98, RequestPayload(q)), w) == Plan([], Fail(TakeUtf8(q.data).error))
  {
    hide RequestPayload, ParseRequest, TakeUtf8, Ascii;
    RequestRoundTrip(q);
    KindsDiffer();
    SubsystemIsNotExec();
  }

  lemma SubsystemIsNotExec()
    ensures Ascii("subsystem") != Ascii("exec")
  {
    assert |Ascii("subsystem")| == 9 && |Ascii("exec")| == 4;
  }

  /** A command is run even for an unknown channel; its output, EOF and CLOSE go to a known one. */
  lemma ExecAnswered(m: Manager, st: State, recipient: u32, command: str, wantReply: bool, rest: bytes, w: Outside)
    requires Readable(command)
    ensures var q := ChannelRequestMsg(recipient, Ascii("exec"), wantReply, EncString(command) + rest);
            var p := Packet(98, RequestPayload(q));
            var run := Effect(RunsCommand(command, w.aftermath(st.disk)));
            && SftpAfter(st, p, w) == st.(disk := w.aftermath(st.disk))
            && PlanFor(m, st, p, w) == if !Known(m, recipient) then Plan([run], Fail(Channel("Unknown channel")))
                 else Plan([run] + (if wantReply then [Sent(Packet(99, BE32(recipient)), true)] else [])
                           + [Sent(Packet(94, DataPayload(ChannelDataMsg(recipient, w.output))), true),
                              Sent(Packet(96, BE32(recipient)), true), Sent(Packet(97, BE32(recipient)), true)],
                           Continue)
  {
    hide RequestPayload, ParseRequest, TakeUtf8, BE32, Ascii, Known, EncString, DataPayload;
    var q := ChannelRequestMsg(recipient, Ascii("exec"), wantReply, EncString(command) + rest);
    RequestRoundTrip(q);
    TakeUtf8Iff(EncString(command) + rest, command, rest);
  }

  // ---------------------------------------------------------------- windows, EOF, CLOSE and the rest

  /** WINDOW_ADJUST: exactly the window of a channel with that remote id grows, to 2^32 - 1 at most. */
  lemma AdjustAnswered(m: Manager, st: State, recipient: u32, amount: u32, trailing: bytes, w: Outside, m': Manager)
    requires ChannelsAfter(m, Packet(93, BE32(recipient) + (BE32(amount) + trailing)), m')
    ensures var p := Packet(93, BE32(recipient) + (BE32(amount) + trailing));
            && SftpAfter(st, p, w) == st
            && if !Known(m, recipient) then m' == m && PlanFor(m, st, p, w) == NOTHING
               else
                 && PlanFor(m, st, p, w) == Plan([Effect(AdjustsWindow(recipient, amount))], Continue)
                 && exists id :: m.Matches(recipient, id) && m' == m.(channels := m.channels[id := m.channels[id].(
                      remoteWindow := if m.channels[id].remoteWindow + amount > 0xFFFF_FFFF then 0xFFFF_FFFF
                                      else m.channels[id].remoteWindow + amount)])
  {
    hide BE32, TakeU32, Known;
    AdjustTaken(recipient, amount, trailing);
    hide TakeAdjust;
    if Known(m, recipient) {
      var id :| m.Matches(recipient, id) && m' == m.RemoteAdjusted(id, amount);
    }
  }

  lemma AdjustTaken(recipient: u32, amount: u32, trailing: bytes)
    ensures TakeAdjust(BE32(recipient) + (BE32(amount) + trailing)) == Ok((recipient, amount))
  {
    hide BE32, TakeU32;
    TakeU32Iff(BE32(recipient) + (BE32(amount) + trailing), recipient, BE32(amount) + trailing);
    TakeU32Iff(BE32(amount) + trailing, amount, trailing);
  }

  /** EOF is noted and not answered. */
  lemma EofAnswered(m: Manager, st: State, recipient: u32, trailing: bytes, w: Outside, m': Manager)
    requires ChannelsAfter(m, Packet(96, BE32(recipient) + trailing), m')
    ensures var p := Packet(96, BE32(recipient) + trailing);
            && SftpAfter(st, p, w) == st
            && if !Known(m, recipient) then m' == m && PlanFor(m, st, p, w) == NOTHING
               else
                 && PlanFor(m, st, p, w) == Plan([Effect(MarksEof(recipient))], Continue)
                 && exists id :: m.Matches(recipient, id)
                      && m' == m.(channels := m.channels[id := m.channels[id].(eofReceived := true)])
  {
    hide BE32, TakeU32;
    TakeU32Iff(BE32(recipient) + trailing, recipient, trailing);
    if Known(m, recipient) {
      var id :| m.Matches(recipient, id) && m' == m.EofReceived(id);
    }
  }

  /** CLOSE is answered with CLOSE and changes nothing. */
  lemma CloseAnswered(m: Manager, st: State, recipient: u32, trailing: bytes, w: Outside)
    ensures var p := Packet(97, BE32(recipient) + trailing);
            && SftpAfter(st, p, w) == st && (forall m' :: ChannelsAfter(m, p, m') <==> m' == m)
            && PlanFor(m, st, p, w)
                 == if Known(m, recipient) then Plan([Sent(Packet(97, BE32(recipient)), true)], Continue) else NOTHING
  {
    hide BE32, TakeU32, Known;
    TakeU32Iff(BE32(recipient) + trailing, recipient, trailing);
  }

  /** DISCONNECT ends the session well; a message of any other type is passed over. */
  lemma OthersArePassedOver(m: Manager, st: State, p: Packet, w: Outside)
    requires p.msgType !in {90, 93, 94, 96, 97, 98}
    ensures PlanFor(m, st, p, w) == Plan([], if p.msgType == 1 then Stop else Continue)
    ensures SftpAfter(st, p, w) == st && forall m' :: ChannelsAfter(m, p, m') <==> m' == m
  {
  }

  /** A message that cannot be read ends the session with the reader's error, and changes nothing. */
  lemma UnreadableFails(m: Manager, st: State, p: Packet, w: Outside, e: SshError)
    requires || (p.msgType == 90 && ParseOpen(p.payload) == Err(e))
             || (p.msgType == 98 && ParseRequest(p.payload) == Err(e))
             || (p.msgType == 94 && ParseData(p.payload) == Err(e))
             || (p.msgType == 93 && TakeAdjust(p.payload) == Err(e))
             || ((p.msgType == 96 || p.msgType == 97) && TakeU32(p.payload) == Err(e))
    ensures PlanFor(m, st, p, w) == Plan([], Fail(e)) && SftpAfter(st, p, w) == st
    ensures forall m' :: ChannelsAfter(m, p, m') <==> m' == m
  {
    hide ParseOpen, ParseRequest, ParseData, TakeAdjust, TakeU32;
  }

  // ---------------------------------------------------------------- SFTP

  /** The SFTP packet a CHANNEL_DATA message carries, if it carries one. */
  function SftpIn(p: Packet): Option<SftpPacket> {
    if p.msgType == 94 && ParseData(p.payload).Ok? then Unwrap(ParseData(p.payload).value.data) else None
  }

  lemma DataWithoutSftpIsPassedOver(m: Manager, st: State, p: Packet, w: Outside)
    requires p.msgType == 94 && ParseData(p.payload).Ok? && SftpIn(p) == None
    ensures PlanFor(m, st, p, w) == NOTHING && SftpAfter(st, p, w) == st
  {
    hide ParseData, Unwrap;
  }

  /**
   An SFTP request is handled, and answered on its channel with one CHANNEL_DATA, in which the client reads the
   handler's reply; on an unknown channel it is handled and the session fails.
   */
  lemma SftpAnswered(m: Manager, st: State, p: Packet, w: Outside)
    requires SftpIn(p).Some?
    ensures var q, recipient := SftpIn(p).value, ParseData(p.payload).value.recipientChannel;
            var plan, x := PlanFor(m, st, p, w), Handled(st, q, w.io);
            && SftpAfter(st, p, w) == x.state && plan.events != [] && plan.events[0] == Effect(ServesSftp(q, w.io))
            && if !Known(m, recipient) then |plan.events| == 1 && plan.next == Fail(Channel("Unknown channel"))
               else
                 && |plan.events| == 2 && plan.next == Continue && plan.events[1].Sent? && plan.events[1].secure
                 && (FitsPacket(plan.events[1].packet) ==>
                       && SftpIn(plan.events[1].packet) == Some(x.reply)
                       && ParseData(plan.events[1].packet.payload).value.recipientChannel == recipient)
  {
    hide ParseData, Unwrap, EncSftp, Handled, Known, DataPayload;
    var q, recipient := SftpIn(p).value, ParseData(p.payload).value.recipientChannel;
    DataCarries(recipient, Handled(st, q, w.io).reply);
  }

  lemma DataCarries(recipient: u32, reply: SftpPacket)
    ensures var p := Packet(94, DataPayload(ChannelDataMsg(recipient, EncSftp(reply))));
            FitsPacket(p) ==>
              && SftpIn(p) == Some(reply) && ParseData(p.payload).Ok?
              && ParseData(p.payload).value.recipientChannel == recipient
  {
    hide BE32, ParseData, Unwrap;
    var d := ChannelDataMsg(recipient, EncSftp(reply));
    if FitsPacket(Packet(94, DataPayload(d))) {
      DataRoundTrip(d, []);
      assert DataPayload(d) + [] == DataPayload(d);
      SftpSurvivesFraming(reply, []);
      assert EncSftp(reply) + [] == EncSftp(reply);
    }
  }
}
