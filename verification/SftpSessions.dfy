/**
 SFTP over a whole session: the packets a client reads out of what the server sends are the handler's replies
 to its requests, in order.
 */
module SftpSessions {
  import opened Bytes
  import opened Wire
  import opened Packets
  import opened Crypto
  import opened Transport
  import opened Version
  import opened Kex
  import opened Channels
  import opened Messages
  import opened SftpCodec
  import opened SftpHandler
  import opened Session
  import opened Server
  import opened Traffic
  import opened Conduct
  import opened Answers
  import opened Accounting
  import opened ClientCommand
  import CR = CommandRuns
  import SR = ServerRuns
  import Programs

  // ---------------------------------------------------------------- what is asked, owed and read

  /** A packet in a list of its own, if there is one. */
  function Listed(p: Option<SftpPacket>): seq<SftpPacket> { if p.Some? then [p.value] else [] }

  /** The SFTP requests among the packets received. */
  function Requests(events: seq<Event>): seq<SftpPacket>
    decreases |events|
  {
    if events == [] then []
    else (if events[0].Recvd? then Listed(SftpIn(events[0].packet)) else []) + Requests(events[1..])
  }

  /** The requests the handler was given. */
  function Served(events: seq<Event>): seq<SftpPacket>
    decreases |events|
  {
    if events == [] then [] else ServedBy(events[0]) + Served(events[1..])
  }

  function ServedBy(e: Event): seq<SftpPacket> {
    match e
    case Effect(ServesSftp(q, _)) => [q]
    case _ => []
  }

  /** The SFTP packets in what is sent. */
  function ReadOut(events: seq<Event>): seq<SftpPacket>
    decreases |events|
  {
    if events == [] then [] else ReadIn(events[0]) + ReadOut(events[1..])
  }

  function ReadIn(e: Event): seq<SftpPacket> { if e.Sent? then Listed(SftpIn(e.packet)) else [] }

  /** What an event owes the client: the handler's reply, or a command's output if it happens to be SFTP. */
  function OwedFor(st: State, w: Outside, e: Event): seq<SftpPacket> {
    match e
    case Effect(ServesSftp(q, io)) => [Handled(st, q, io).reply]
    case Effect(RunsCommand(_, _)) => Listed(Unwrap(w.output))
    case _ => []
  }

  /** The same for a whole session, the state being what the events before have made of it. */
  function Owed(env: Env, turn: nat, st: State, events: seq<Event>): seq<SftpPacket>
    decreases |events|
  {
    if events == [] then []
    else
      OwedFor(st, env.outside(turn), events[0])
      + Owed(env, if events[0].Recvd? then turn + 1 else turn, SftpBy(st, events[0]), events[1..])
  }

  /** All that is owed has been read, or all but the last, and then not if the session ended well. */
  predicate Settled(read: seq<SftpPacket>, owed: seq<SftpPacket>, well: bool) {
    read <= owed && |owed| <= |read| + 1 && (well ==> read == owed)
  }

  // ---------------------------------------------------------------- one message

  predicate AllSent(events: seq<Event>) { forall i :: 0 <= i < |events| ==> events[i].Sent? }

  lemma {:induction false} SentOwesNothing(env: Env, turn: nat, st: State, events: seq<Event>, rest: seq<Event>)
    requires AllSent(events)
    ensures Owed(env, turn, st, events + rest) == Owed(env, turn, st, rest) && Served(events + rest) == Served(rest)
    ensures Requests(events + rest) == Requests(rest)
    decreases |events|
  {
    hide Handled, SftpIn;
    if events == [] {
      assert events + rest == rest;
    } else {
      assert (events + rest)[0] == events[0] && (events + rest)[1..] == events[1..] + rest;
      SentOwesNothing(env, turn, st, events[1..], rest);
    }
  }

  lemma {:induction false} ReadOutConcat(a: seq<Event>, b: seq<Event>)
    ensures ReadOut(a + b) == ReadOut(a) + ReadOut(b)
    decreases |a|
  {
    hide ReadIn;
    if a == [] {
      assert a + b == b;
    } else {
      assert (a + b)[1..] == a[1..] + b;
      ReadOutConcat(a[1..], b);
    }
  }

  /** How a plan begins, and what of it is carried out. */
  lemma UntilHead(e: Event, sends: seq<Event>)
    requires !e.Sent?
    ensures Until([e] + sends) == [e] + Until(sends)
    ensures Until([e] + sends) == [e] + sends <==> Until(sends) == sends
  {
    hide FitsPacket;
    assert ([e] + sends)[1..] == sends;
    if [e] + Until(sends) == [e] + sends {
      assert ([e] + Until(sends))[1..] == Until(sends);
    }
  }

  lemma {:induction false} UntilSent(sends: seq<Event>)
    requires AllSent(sends)
    ensures AllSent(Until(sends)) && Until(sends) <= sends
    decreases |sends|
  {
    hide FitsPacket;
    if sends != [] {
      UntilSent(sends[1..]);
    }
  }

  /** What the one effect of a message owes, and the sends that follow it. */
  datatype Part = Part(effect: Option<Event>, sends: seq<Event>)

  function Events(part: Part): seq<Event> { (if part.effect.Some? then [part.effect.value] else []) + part.sends }

  /** The sends of a message hold what its effect owes: all of it if they fit, and nothing more. */
  predicate Pays(st: State, w: Outside, part: Part, next: Next) {
    && AllSent(part.sends) && (part.effect.Some? ==> part.effect.value.Effect?)
    && var owed := if part.effect.Some? then OwedFor(st, w, part.effect.value) else [];
       Settled(ReadOut(Until(part.sends)), owed, Until(part.sends) == part.sends && !next.Fail?)
  }

  lemma SftpPays(m: Manager, st: State, p: Packet, w: Outside) returns (part: Part)
    requires SftpIn(p).Some?
    ensures var plan := PlanFor(m, st, p, w); plan.events == Events(part) && Pays(st, w, part, plan.next)
    ensures part.effect == Some(Effect(ServesSftp(SftpIn(p).value, w.io)))
  {
    hide PlanFor, SftpIn, Handled, FitsPacket, SftpAfter, ParseData;
    SftpAnswered(m, st, p, w);
    var plan := PlanFor(m, st, p, w);
    part := Part(Some(plan.events[0]), plan.events[1..]);
    assert plan.events == [plan.events[0]] + plan.events[1..];
    if |plan.events| == 2 {
      assert part.sends == [plan.events[1]] && part.sends[1..] == [];
      assert Until(part.sends) == if FitsPacket(plan.events[1].packet) then part.sends else [];
      assert ReadOut(part.sends) == ReadIn(plan.events[1]);
    } else {
      assert part.sends == [];
    }
  }

  /** A message that is neither SFTP nor a command owes nothing, and sends no CHANNEL_DATA. */
  predicate Plain(part: Part) {
    && AllSent(part.sends) && (forall i :: 0 <= i < |part.sends| ==> part.sends[i].packet.msgType != 94)
    && (part.effect.Some? ==>
          part.effect.value.Effect? && !part.effect.value.kind.ServesSftp? && !part.effect.value.kind.RunsCommand?)
  }

  lemma {:induction false} NothingReadOut(events: seq<Event>)
    requires forall i :: 0 <= i < |events| ==> events[i].Sent? ==> events[i].packet.msgType != 94
    ensures ReadOut(events) == []
    decreases |events|
  {
    hide ParseData, Unwrap;
    if events != [] {
      NothingReadOut(events[1..]);
    }
  }

  lemma PlainPays(st: State, w: Outside, part: Part, next: Next)
    requires Plain(part)
    ensures Pays(st, w, part, next)
  {
    hide Until, ReadOut, Handled;
    UntilSent(part.sends);
    NothingReadOut(Until(part.sends));
  }

  lemma OpenIsPlain(m: Manager, payload: bytes) returns (part: Part)
    ensures PlanOpen(m, payload).events == Events(part) && Plain(part)
  {
    hide ParseOpen, BE32;
    var events := PlanOpen(m, payload).events;
    part := if events == [] then Part(None, []) else Part(Some(events[0]), events[1..]);
    assert events != [] ==> events == [events[0]] + events[1..];
  }

  lemma NoticesArePlain(m: Manager, p: Packet) returns (part: Part)
    requires p.msgType == 93 || p.msgType == 96 || p.msgType == 97
    ensures var plan := if p.msgType == 93 then PlanAdjust(m, p.payload)
                        else if p.msgType == 96 then PlanEof(m, p.payload) else PlanClose(m, p.payload);
            plan.events == Events(part) && Plain(part)
  {
    hide TakeAdjust, BE32, Known;
    var plan := if p.msgType == 93 then PlanAdjust(m, p.payload)
                else if p.msgType == 96 then PlanEof(m, p.payload) else PlanClose(m, p.payload);
    if p.msgType == 97 || plan.events == [] {
      part := Part(None, plan.events);
    } else {
      part := Part(Some(plan.events[0]), plan.events[1..]);
      assert plan.events == [plan.events[0]] + plan.events[1..];
    }
  }

  lemma ReplyIsPlain(m: Manager, q: ChannelRequestMsg, msgType: byte) returns (part: Part)
    requires msgType == CHANNEL_SUCCESS || msgType == CHANNEL_FAILURE
    ensures PlanReply(m, q, msgType).events == Events(part) && Plain(part)
  {
    hide BE32, Known;
    part := Part(None, PlanReply(m, q, msgType).events);
  }

  /** A command's sends: perhaps SUCCESS, then the output, EOF and CLOSE. */
  lemma ExecPays(m: Manager, st: State, q: ChannelRequestMsg, w: Outside) returns (part: Part)
    ensures var plan := PlanExec(m, q, w.output, w.aftermath(st.disk));
            plan.events == Events(part) && Pays(st, w, part, plan.next)
    ensures part.effect.Some? ==> ServedBy(part.effect.value) == []
  {
    hide BE32, Known, DataPayload, SftpIn, Handled, FitsPacket;
    var plan := PlanExec(m, q, w.output, w.aftermath(st.disk));
    if plan.events == [] {
      part := Part(None, []);
    } else if |plan.events| == 1 {
      part := Part(Some(plan.events[0]), []);
      assert plan.events == [plan.events[0]];
    } else {
      var r := q.recipientChannel;
      part := Part(Some(plan.events[0]), ReplyEvents(q) + ClosingEvents(r, w.output));
      assert plan.events == [plan.events[0]] + (ReplyEvents(q) + ClosingEvents(r, w.output));
      ClosingPays(q, r, w.output);
    }
  }

  lemma ClosingPays(q: ChannelRequestMsg, r: u32, output: str)
    ensures var sends := ReplyEvents(q) + ClosingEvents(r, output);
            AllSent(sends) && Settled(ReadOut(Until(sends)), Listed(Unwrap(output)), Until(sends) == sends)
  {
    var sends, closing := ReplyEvents(q) + ClosingEvents(r, output), ClosingEvents(r, output);
    NoticesFit(q.recipientChannel);
    NoticesFit(r);
    ClosingRead(r, output);
    hide ClosingEvents, BE32, FitsPacket, Unwrap, ParseData;
    if q.wantReply {
      assert sends[1..] == closing;
      var first := sends[0];
      assert Until(sends) == [first] + Until(closing);
      assert Until(sends)[1..] == Until(closing);
      assert ReadIn(first) == [];
    } else {
      assert sends == closing;
    }
  }

  lemma NoticesFit(r: u32)
    ensures FitsPacket(Notice(CHANNEL_SUCCESS, r)) && FitsPacket(Notice(CHANNEL_EOF, r))
    ensures FitsPacket(Notice(CHANNEL_CLOSE, r))
  {
  }

  lemma ClosingRead(r: u32, output: str)
    ensures AllSent(ClosingEvents(r, output))
    ensures var closing := ClosingEvents(r, output);
            Settled(ReadOut(Until(closing)), Listed(Unwrap(output)), Until(closing) == closing)
  {
    var data := Packet(CHANNEL_DATA, DataPayload(ChannelDataMsg(r, output)));
    OutputIsIn(r, output);
    NoticesFit(r);
    hide BE32, DataPayload, SftpIn, FitsPacket, Unwrap;
    var closing := ClosingEvents(r, output);
    var eof, close := closing[1], closing[2];
    assert closing[1..] == [eof, close] && [eof, close][1..] == [close] && [close][1..] == [];
    assert Until([close][1..]) == [] && Until([close]) == [close];
    assert Until([eof, close]) == [eof] + Until([eof, close][1..]);
    if FitsPacket(data) {
      assert Until(closing) == [closing[0]] + Until(closing[1..]);
      NothingReadOut([eof, close]);
      assert ReadOut(closing) == ReadIn(closing[0]) + [];
    } else {
      assert Until(closing) == [];
    }
  }

  lemma OutputIsIn(r: u32, output: str)
    ensures var p := Packet(CHANNEL_DATA, DataPayload(ChannelDataMsg(r, output)));
            FitsPacket(p) ==> SftpIn(p) == Unwrap(output)
  {
    hide BE32, ParseData, Unwrap;
    var d := ChannelDataMsg(r, output);
    if FitsPacket(Packet(CHANNEL_DATA, DataPayload(d))) {
      DataRoundTrip(d, []);
      assert DataPayload(d) + [] == DataPayload(d);
    }
  }

  lemma RequestPays(m: Manager, st: State, payload: bytes, w: Outside) returns (part: Part)
    ensures var plan := PlanRequestMsg(m, payload, w.output, w.aftermath(st.disk));
            plan.events == Events(part) && Pays(st, w, part, plan.next)
    ensures part.effect.Some? ==> ServedBy(part.effect.value) == []
  {
    hide ParseRequest, TakeUtf8, Pays, PlanExec, PlanReply, Ascii;
    var plan := PlanRequestMsg(m, payload, w.output, w.aftermath(st.disk));
    part := Part(None, []);
    if ParseRequest(payload).Ok? {
      var q := ParseRequest(payload).value;
      if q.requestType == Ascii("exec") {
        part := ExecPays(m, st, q, w);
      } else if plan.events != [] {
        part := ReplyIsPlain(m, q, CHANNEL_SUCCESS);
        if plan != PlanReply(m, q, CHANNEL_SUCCESS) {
          part := ReplyIsPlain(m, q, CHANNEL_FAILURE);
        }
        PlainPays(st, w, part, plan.next);
        PlainServes(part);
      }
    }
    if part == Part(None, []) {
      PlainPays(st, w, part, plan.next);
    }
  }

  lemma PlainServes(part: Part)
    requires Plain(part)
    ensures part.effect.Some? ==> ServedBy(part.effect.value) == []
  {
  }

  /** Every message: its effect and its sends, what is served for it, and that what is owed is paid. */
  lemma MessagePays(m: Manager, st: State, p: Packet, w: Outside) returns (part: Part)
    ensures var plan := PlanFor(m, st, p, w); plan.events == Events(part) && Pays(st, w, part, plan.next)
    ensures (if part.effect.Some? then ServedBy(part.effect.value) else []) == Listed(SftpIn(p))
  {
    hide SftpIn, Pays, PlanOpen, PlanAdjust, PlanEof, PlanClose, PlanRequestMsg, PlanServe, ParseData, Unwrap;
    var plan := PlanFor(m, st, p, w);
    NoSftpIn(p);
    if SftpIn(p).Some? {
      part := SftpPays(m, st, p, w);
    } else if p.msgType == 98 {
      part := RequestPays(m, st, p.payload, w);
    } else {
      if p.msgType == 90 {
        part := OpenIsPlain(m, p.payload);
      } else if p.msgType == 93 || p.msgType == 96 || p.msgType == 97 {
        part := NoticesArePlain(m, p);
      } else {
        part := Part(None, []);
        NotSftpSaysNothing(m, st, p, w);
      }
      PlainPays(st, w, part, plan.next);
      PlainServes(part);
    }
  }

  lemma NoSftpIn(p: Packet)
    ensures p.msgType != 94 ==> SftpIn(p) == None
  {
    hide ParseData, Unwrap;
  }

  lemma NotSftpSaysNothing(m: Manager, st: State, p: Packet, w: Outside)
    requires SftpIn(p).None? && p.msgType !in {90, 93, 96, 97, 98}
    ensures PlanFor(m, st, p, w).events == []
  {
    hide ParseData, Unwrap;
  }

  // ---------------------------------------------------------------- the loop

  function Head(part: Part): seq<Event> { if part.effect.Some? then [part.effect.value] else [] }

  /** The state and the debt once the effect of a message has happened. */
  function StateBy(st: State, part: Part): State { if part.effect.Some? then SftpBy(st, part.effect.value) else st }

  function DebtOf(st: State, w: Outside, part: Part): seq<SftpPacket> {
    if part.effect.Some? then OwedFor(st, w, part.effect.value) else []
  }

  /** One turn of the loop, counted up. */
  lemma TurnCounts(env: Env, turn: nat, st: State, p: Packet, secure: bool, part: Part, sends: seq<Event>,
                   rest: seq<Event>)
    requires AllSent(sends) && (part.effect.Some? ==> part.effect.value.Effect?)
    ensures var events := [Recvd(p, secure)] + (Head(part) + sends) + rest;
            && Requests(events) == Listed(SftpIn(p)) + Requests(rest)
            && Served(events) == (if part.effect.Some? then ServedBy(part.effect.value) else []) + Served(rest)
            && ReadOut(events) == ReadOut(sends) + ReadOut(rest)
            && Owed(env, turn, st, events)
                 == DebtOf(st, env.outside(turn + 1), part) + Owed(env, turn + 1, StateBy(st, part), rest)
  {
    hide Handled, SftpIn, Unwrap, Listed;
    var events := [Recvd(p, secure)] + (Head(part) + sends) + rest;
    var tail := Head(part) + (sends + rest);
    assert events == [Recvd(p, secure)] + tail && events[1..] == tail;
    SentOwesNothing(env, turn + 1, StateBy(st, part), sends, rest);
    ReadOutConcat(sends, rest);
    if part.effect.Some? {
      assert tail[0] == part.effect.value && tail[1..] == sends + rest;
      assert ReadIn(tail[0]) == [];
    } else {
      assert tail == sends + rest;
    }
    assert ReadIn(events[0]) == [] && ServedBy(events[0]) == [];
  }

  lemma TurnState(env: Env, a: Point, p: Packet, b: Point, part: Part)
    requires Moves(env, a, p, b) && Answered(env, a, p).events == Events(part) && AllSent(part.sends)
    requires part.effect.Some? ==> part.effect.value.Effect?
    ensures Until(Answered(env, a, p).events) == Head(part) + Until(part.sends) && AllSent(Until(part.sends))
    ensures b.state == StateBy(a.state, part) && b.turn == a.turn + 1
  {
    hide Answered, SftpBy, ChannelsFold, FitsPacket;
    TurnAccounts(env, a, p, b);
    assert b.turn == a.turn + 1;
    hide Moves;
    var done := Until(part.sends);
    UntilSent(part.sends);
    IdleFolds(StateBy(a.state, part), a.channels, done);
    if part.effect.Some? {
      UntilHead(part.effect.value, part.sends);
      assert ([part.effect.value] + done)[1..] == done;
    } else {
      assert [] + part.sends == part.sends && [] + done == done;
    }
  }

  lemma PaidUp(read: seq<SftpPacket>, owed: seq<SftpPacket>, read': seq<SftpPacket>, owed': seq<SftpPacket>, well: bool)
    requires read == owed && Settled(read', owed', well)
    ensures Settled(read + read', owed + owed', well)
  {
  }

  /**
   Over every run of the channel loop: the handler is given the requests that were received, in order, and what
   the sends hold is what is owed for them, in order, up to a reply that did not go out and ended the session.
   */
  lemma {:induction false} RepliesInOrder(env: Env, a: Point, events: seq<Event>, r: Result<()>, z: Point)
    requires Serves(env, a, events, r, z)
    ensures Requests(events) == Served(events)
    ensures Settled(ReadOut(events), Owed(env, a.turn, a.state, events), r.Ok?)
    decreases |events|
  {
    hide Answered, Moves, Until, Ending, Settled, Requests, Served, ReadOut, Owed, Pays;
    if events[0].Lost? {
      LostOwesNothing(env, a.turn, a.state, events, r.Ok?);
    } else {
      var p, plan := events[0].packet, Answered(env, a, events[0].packet);
      var done := Until(plan.events);
      var rest := events[1 + |done|..];
      assert events == [events[0]] + done + rest;
      AnswerIs(env, a, p);
      var part := MessagePays(a.channels, a.state, p, env.outside(a.turn + 1));
      if Ending(plan).Continue? {
        var b :| Moves(env, a, p, b) && Serves(env, b, rest, r, z);
        RepliesInOrder(env, b, rest, r, z);
        TurnSettles(env, a, events[0], b, part, rest, r.Ok?);
      } else {
        EmptySettles(env, a.turn + 1, z.state);
        LastTurnSettles(env, a, events[0], z, part, r.Ok?);
      }
    }
  }

  lemma LostOwesNothing(env: Env, turn: nat, st: State, events: seq<Event>, well: bool)
    requires |events| == 1 && events[0].Lost?
    ensures Requests(events) == Served(events) && Settled(ReadOut(events), Owed(env, turn, st, events), well)
  {
    hide Handled;
    assert events[1..] == [];
  }

  lemma EmptySettles(env: Env, turn: nat, st: State)
    ensures Requests([]) == [] && Served([]) == [] && ReadOut([]) == [] && Owed(env, turn, st, []) == []
  {
  }

  lemma AnswerIs(env: Env, a: Point, p: Packet)
    ensures Answered(env, a, p) == PlanFor(a.channels, a.state, p, env.outside(a.turn + 1))
  {
    hide PlanFor;
  }

  lemma WholePays(st: State, w: Outside, part: Part, plan: Plan)
    requires Pays(st, w, part, plan.next) && plan.events == Events(part)
    ensures AllSent(part.sends) && (part.effect.Some? ==> part.effect.value.Effect?)
    ensures Settled(ReadOut(Until(part.sends)), DebtOf(st, w, part),
                    Until(part.sends) == part.sends && !plan.next.Fail?)
    ensures Until(plan.events) == plan.events <==> Until(part.sends) == part.sends
    ensures Ending(plan).Continue? ==> Until(part.sends) == part.sends && !plan.next.Fail?
    ensures Ending(plan).Stop? ==> Until(part.sends) == part.sends && !plan.next.Fail?
  {
    hide FitsPacket, Handled, ReadOut;
    if part.effect.Some? {
      UntilHead(part.effect.value, part.sends);
    } else {
      assert [] + part.sends == part.sends;
    }
  }

  lemma TurnSettles(env: Env, a: Point, e: Event, b: Point, part: Part, rest: seq<Event>, well: bool)
    requires e.Recvd? && Moves(env, a, e.packet, b) && Ending(Answered(env, a, e.packet)).Continue?
    requires Answered(env, a, e.packet).events == Events(part)
    requires Pays(a.state, env.outside(a.turn + 1), part, Answered(env, a, e.packet).next)
    requires (if part.effect.Some? then ServedBy(part.effect.value) else []) == Listed(SftpIn(e.packet))
    requires Requests(rest) == Served(rest) && Settled(ReadOut(rest), Owed(env, b.turn, b.state, rest), well)
    ensures var events := [e] + Until(Answered(env, a, e.packet).events) + rest;
            Requests(events) == Served(events) && Settled(ReadOut(events), Owed(env, a.turn, a.state, events), well)
  {
    hide *;
    var w := env.outside(a.turn + 1);
    WholePays(a.state, w, part, Answered(env, a, e.packet));
    TurnState(env, a, e.packet, b, part);
    TurnCounts(env, a.turn, a.state, e.packet, e.secure, part, Until(part.sends), rest);
    AllPaid(ReadOut(Until(part.sends)), DebtOf(a.state, w, part));
    PaidUp(ReadOut(Until(part.sends)), DebtOf(a.state, w, part), ReadOut(rest), Owed(env, b.turn, b.state, rest), well);
  }

  lemma AllPaid(read: seq<SftpPacket>, owed: seq<SftpPacket>)
    requires Settled(read, owed, true)
    ensures read == owed
  {
  }

  lemma LastTurnSettles(env: Env, a: Point, e: Event, z: Point, part: Part, well: bool)
    requires e.Recvd? && Moves(env, a, e.packet, z) && !Ending(Answered(env, a, e.packet)).Continue?
    requires Answered(env, a, e.packet).events == Events(part)
    requires Pays(a.state, env.outside(a.turn + 1), part, Answered(env, a, e.packet).next)
    requires (if part.effect.Some? then ServedBy(part.effect.value) else []) == Listed(SftpIn(e.packet))
    requires well ==> Ending(Answered(env, a, e.packet)).Stop?
    ensures var events := [e] + Until(Answered(env, a, e.packet).events) + [];
            Requests(events) == Served(events) && Settled(ReadOut(events), Owed(env, a.turn, a.state, events), well)
  {
    hide *;
    var w := env.outside(a.turn + 1);
    WholePays(a.state, w, part, Answered(env, a, e.packet));
    TurnState(env, a, e.packet, z, part);
    TurnCounts(env, a.turn, a.state, e.packet, e.secure, part, Until(part.sends), []);
    EmptySettles(env, a.turn + 1, z.state);
    EmptySettles(env, a.turn + 1, StateBy(a.state, part));
    LessWell(ReadOut(Until(part.sends)), DebtOf(a.state, w, part),
             Until(part.sends) == part.sends && !Answered(env, a, e.packet).next.Fail?, well);
  }

  lemma LessWell(read: seq<SftpPacket>, owed: seq<SftpPacket>, paid: bool, well: bool)
    requires Settled(read, owed, paid) && (well ==> paid)
    ensures Settled(read + [], owed + [], well)
  {
    assert read + [] == read && owed + [] == owed;
  }

  // ---------------------------------------------------------------- from the client's end

  /** The packets that the bytes open to, one after the other, until the stream ends or one is refused. */
  function PacketsIn(s: Suite, h: Half, input: bytes): seq<Packet>
    decreases |input|
  {
    var o := Open(s, h, input);
    match Returned(o.outcome)
    case Err(_) => []
    case Ok(p) =>
      AcceptedUses(s, h, input);
      [p] + PacketsIn(s, o.half, input[o.used..])
  }

  function SentIn(events: seq<Event>): seq<Packet>
    decreases |events|
  {
    if events == [] then [] else (if events[0].Sent? then [events[0].packet] else []) + SentIn(events[1..])
  }

  function RecvdIn(events: seq<Event>): seq<Packet>
    decreases |events|
  {
    if events == [] then [] else (if events[0].Recvd? then [events[0].packet] else []) + RecvdIn(events[1..])
  }

  function SftpOf(ps: seq<Packet>): seq<SftpPacket>
    decreases |ps|
  {
    if ps == [] then [] else Listed(SftpIn(ps[0])) + SftpOf(ps[1..])
  }

  lemma {:induction false} SftpOfEvents(events: seq<Event>)
    ensures ReadOut(events) == SftpOf(SentIn(events)) && Requests(events) == SftpOf(RecvdIn(events))
    decreases |events|
  {
    hide SftpIn;
    if events != [] {
      SftpOfEvents(events[1..]);
      var sent, recvd := SentIn(events[1..]), RecvdIn(events[1..]);
      assert [] + sent == sent && [] + recvd == recvd;
      assert [] + SftpOf(sent) == SftpOf(sent) && [] + SftpOf(recvd) == SftpOf(recvd);
      if events[0].Sent? {
        assert SentIn(events) == [events[0].packet] + sent && SentIn(events)[1..] == sent;
      } else if events[0].Recvd? {
        assert RecvdIn(events) == [events[0].packet] + recvd && RecvdIn(events)[1..] == recvd;
      }
    }
  }

  /** Nothing but packets and effects. */
  predicate Traffics(events: seq<Event>) {
    forall i :: 0 <= i < |events| ==> !events[i].Installed? && !events[i].Greeted?
  }

  lemma SealedOpens(s: Suite, h: Half, p: Packet, rnd: bytes, rest: bytes)
    requires Seal(s, h, p, rnd).Ok?
    ensures var x := Seal(s, h, p, rnd).value; PacketsIn(s, h, x.wire + rest) == [p] + PacketsIn(s, x.half, rest)
  {
    hide Seal, Open;
    OpenInvertsSeal(s, h, p, rnd, rest);
    var x := Seal(s, h, p, rnd).value;
    assert (x.wire + rest)[|x.wire|..] == rest;
  }

  lemma NothingIn(s: Suite, h: Half)
    ensures PacketsIn(s, h, []) == []
  {
  }

  /** A client with the server's sending half opens exactly the packets that were sent. */
  lemma {:induction false} ClientOpensAll(s: Suite, env: Env, k: Link, events: seq<Event>)
    requires CR.Played(s, env, k, events).Some? && Traffics(events)
    ensures var end := CR.Played(s, env, k, events).value;
            && k.output <= end.output
            && PacketsIn(s, k.keys.SendHalf(), end.output[|k.output|..]) == SentIn(events)
    decreases |events|
  {
    hide Transfer, PacketsIn, Seal;
    var end := CR.Played(s, env, k, events).value;
    if events == [] {
      NothingIn(s, k.keys.SendHalf());
      assert end.output[|k.output|..] == [];
    } else {
      var k' := Transfer(s, env, k, events[0]).value;
      ClientOpensAll(s, env, k', events[1..]);
      TransferSends(s, env, k, events[0]);
      if events[0].Sent? {
        var rnd := env.padding(k.sends);
        var x, rest := Seal(s, k.keys.SendHalf(), events[0].packet, rnd).value, end.output[|k'.output|..];
        SealedOpens(s, k.keys.SendHalf(), events[0].packet, rnd, rest);
        assert end.output[|k.output|..] == x.wire + rest;
      }
    }
  }

  lemma TransferSends(s: Suite, env: Env, k: Link, e: Event)
    requires Transfer(s, env, k, e).Some? && !e.Installed? && !e.Greeted?
    ensures var k' := Transfer(s, env, k, e).value;
            if e.Sent? then
              && Seal(s, k.keys.SendHalf(), e.packet, env.padding(k.sends)).Ok?
              && var x := Seal(s, k.keys.SendHalf(), e.packet, env.padding(k.sends)).value;
                 k'.output == k.output + x.wire && k'.keys.SendHalf() == x.half
            else k'.output == k.output && k'.keys.SendHalf() == k.keys.SendHalf()
  {
    hide Seal, Open;
    if e.Sent? {
      SendMovesOn(s, k.keys, e.packet, env.padding(k.sends));
    } else {
      HalfMovesOn(s, k.keys, k.input);
    }
  }

  /** And what the server has received is the beginning of what its input opens to. */
  lemma {:induction false} ServerOpensFirst(s: Suite, env: Env, k: Link, events: seq<Event>)
    requires CR.Played(s, env, k, events).Some? && Traffics(events)
    requires forall i :: 0 <= i < |events| ==> events[i].Lost? ==> i == |events| - 1
    ensures RecvdIn(events) <= PacketsIn(s, k.keys.RecvHalf(), k.input)
    decreases |events|
  {
    hide Transfer, Open;
    if events != [] && !events[0].Lost? {
      var k' := Transfer(s, env, k, events[0]).value;
      ServerOpensFirst(s, env, k', events[1..]);
      TransferReceives(s, env, k, events[0]);
    } else if events != [] {
      assert events[1..] == [];
    }
  }

  lemma TransferReceives(s: Suite, env: Env, k: Link, e: Event)
    requires Transfer(s, env, k, e).Some? && !e.Installed? && !e.Greeted? && !e.Lost?
    ensures var k', o := Transfer(s, env, k, e).value, Open(s, k.keys.RecvHalf(), k.input);
            if e.Recvd? then
              Returned(o.outcome) == Ok(e.packet) && k'.keys.RecvHalf() == o.half && k'.input == k.input[o.used..]
            else k'.input == k.input && k'.keys.RecvHalf() == k.keys.RecvHalf()
  {
    hide Seal, Open;
    if e.Sent? {
      SendMovesOn(s, k.keys, e.packet, env.padding(k.sends));
    } else {
      HalfMovesOn(s, k.keys, k.input);
    }
  }

  lemma {:induction false} LoopTraffics(env: Env, a: Point, events: seq<Event>, r: Result<()>, z: Point)
    requires Serves(env, a, events, r, z)
    ensures Traffics(events) && forall i :: 0 <= i < |events| ==> events[i].Lost? ==> i == |events| - 1
    decreases |events|
  {
    hide Answered, Moves, Until, Ending;
    if events[0].Recvd? {
      var p, plan := events[0].packet, Answered(env, a, events[0].packet);
      var done := Until(plan.events);
      var rest := events[1 + |done|..];
      assert events == [events[0]] + done + rest;
      AnswerIs(env, a, p);
      var part := MessagePays(a.channels, a.state, p, env.outside(a.turn + 1));
      DoneTraffics(a.state, env.outside(a.turn + 1), part, plan);
      if Ending(plan).Continue? {
        var b :| Moves(env, a, p, b) && Serves(env, b, rest, r, z);
        LoopTraffics(env, b, rest, r, z);
      }
      forall i | 0 <= i < |events|
        ensures !events[i].Installed? && !events[i].Greeted? && (events[i].Lost? ==> i == |events| - 1)
      {
        if 1 <= i < 1 + |done| {
          assert events[i] == done[i - 1];
        } else if i >= 1 + |done| {
          assert events[i] == rest[i - 1 - |done|];
        }
      }
    }
  }

  lemma DoneTraffics(st: State, w: Outside, part: Part, plan: Plan)
    requires Pays(st, w, part, plan.next) && plan.events == Events(part)
    ensures forall i :: 0 <= i < |Until(plan.events)| ==> Until(plan.events)[i].Sent? || Until(plan.events)[i].Effect?
  {
    hide FitsPacket, Handled, ReadOut;
    UntilSent(part.sends);
    if part.effect.Some? {
      UntilHead(part.effect.value, part.sends);
    } else {
      assert [] + part.sends == part.sends;
    }
  }

  /**
   SFTP over any connection that reaches a session. Take the requests in the first of the packets that the
   client's bytes open to: the handler is given exactly these. And the SFTP packets that a client finds in what
   it opens the server's bytes to are what the handler replied to them, one after the other, up to a reply
   that could not be sent and ended the session.
   */
  lemma SftpOverConnection(u: SR.Setup, start: State, log: seq<Event>, r: Result<()>, z: Point) returns (m: nat)
    requires Conforms(u.s, u.cfg, u.env, start, log, r, z) && Replay(u.s, u.env, u.input, log).Some?
    ensures m <= |log| && Replay(u.s, u.env, u.input, log[..m]).Some?
    ensures var k, end := Replay(u.s, u.env, u.input, log[..m]).value, Replay(u.s, u.env, u.input, log).value;
            var events := log[m..];
            || z == Point(0, EMPTY_MANAGER, start)
            || (&& RecvdIn(events) <= PacketsIn(u.s, k.keys.RecvHalf(), k.input)
                && Served(events) == SftpOf(RecvdIn(events))
                && k.output <= end.output
                && Settled(SftpOf(PacketsIn(u.s, k.keys.SendHalf(), end.output[|k.output|..])),
                           Owed(u.env, 0, start, events), r.Ok?))
  {
    hide *;
    var n;
    m, n := Programs.ServerEndsAt(u, start, log, r, z);
    if z != Point(0, EMPTY_MANAGER, start) {
      var k, events := Replay(u.s, u.env, u.input, log[..m]).value, log[m..];
      LoopTraffics(u.env, Point(0, EMPTY_MANAGER, start), events, r, z);
      ClientOpensAll(u.s, u.env, k, events);
      ServerOpensFirst(u.s, u.env, k, events);
      RepliesInOrder(u.env, Point(0, EMPTY_MANAGER, start), events, r, z);
      SftpOfEvents(events);
    }
  }
}
