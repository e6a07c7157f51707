/**
 The client after authentication, in src/bin/client.rs: opening a session channel, asking for a
 command, and collecting what comes back until the channel is closed.
 */
module ClientCommand {
  import opened Bytes
  import opened Wire
  import opened Packets
  import opened Crypto
  import opened Transport
  import opened Channels
  import opened Messages
  import opened Handshake
  import CC = ClientConnection

  const CHANNEL_EXTENDED_DATA: byte := 95

  function SessionMsg(id: u32): ChannelOpenMsg {
    ChannelOpenMsg(Ascii("session"), id, DEFAULT_WINDOW_SIZE, DEFAULT_MAX_PACKET)
  }

  datatype Confirmation = Confirmation(remoteId: u32, window: u32, maxPacket: u32)

  function TakeConfirmation(payload: bytes): Result<Confirmation> {
    var recipient :- TakeU32(payload);
    var remoteId :- TakeU32(recipient.rest);
    var window :- TakeU32(remoteId.rest);
    var maxPacket :- TakeU32(window.rest);
    Ok(Confirmation(remoteId.value, window.value, maxPacket.value))
  }

  /** What the client makes of the answer to its CHANNEL_OPEN. */
  function Answer(s: Suite, h: Half, input: bytes): Result<Confirmation> {
    var q :- Returned(Open(s, h, input).outcome);
    if q.msgType != CHANNEL_OPEN_CONFIRMATION then Err(Channel("Channel open failed")) else TakeConfirmation(q.payload)
  }

  // ---------------------------------------------------------------- listening

  datatype Reaction = Prints(data: bytes) | Ignores | Closes | Breaks(error: SshError)

  function TakeExtended(payload: bytes): Result<bytes> {
    var channel :- TakeU32(payload);
    var dataType :- TakeU32(channel.rest);
    var data :- TakeString(dataType.rest);
    Ok(data.value)
  }

  /** Standard output is printed; what goes to standard error is only checked. */
  function React(p: Packet): Reaction {
    if p.msgType == CHANNEL_DATA then
      match ParseData(p.payload)
      case Ok(d) => Prints(d.data)
      case Err(e) => Breaks(e)
    else if p.msgType == CHANNEL_EXTENDED_DATA then
      match TakeExtended(p.payload)
      case Ok(_) => Ignores
      case Err(e) => Breaks(e)
    else if p.msgType == CHANNEL_CLOSE then Closes
    else Ignores
  }

  /** A confirmation read back: the server's id for the channel, its window and its limit. */
  lemma ConfirmationReadsBack(recipient: u32, sender: u32, window: u32, maxPacket: u32, trailing: bytes)
    ensures TakeConfirmation(BE32(recipient) + (BE32(sender) + (BE32(window) + (BE32(maxPacket) + trailing))))
         == Ok(Confirmation(sender, window, maxPacket))
  {
    hide BE32, TakeU32;
    var b3 := BE32(maxPacket) + trailing;
    var b2 := BE32(window) + b3;
    var b1 := BE32(sender) + b2;
    TakeU32Iff(BE32(recipient) + b1, recipient, b1);
    TakeU32Iff(b1, sender, b2);
    TakeU32Iff(b2, window, b3);
    TakeU32Iff(b3, maxPacket, trailing);
  }

  /** Data is printed, standard error read and dropped, CLOSE ends it; everything else is passed over. */
  lemma ReactsTo(recipient: u32, code: u32, data: bytes, trailing: bytes, p: Packet)
    requires Readable(data)
    ensures React(Packet(94, BE32(recipient) + (EncString(data) + trailing))) == Prints(data)
    ensures React(Packet(95, BE32(recipient) + (BE32(code) + (EncString(data) + trailing)))) == Ignores
    ensures p.msgType == 97 ==> React(p) == Closes
    ensures p.msgType !in {94, 95, 97} ==> React(p) == Ignores
    ensures p.msgType == 94 && ParseData(p.payload).Err? ==> React(p) == Breaks(ParseData(p.payload).error)
    ensures p.msgType == 95 && TakeExtended(p.payload).Err? ==> React(p) == Breaks(TakeExtended(p.payload).error)
  {
    hide BE32, TakeU32, EncString, TakeString;
    var b := EncString(data) + trailing;
    TakeU32Iff(BE32(recipient) + b, recipient, b);
    TakeU32Iff(BE32(recipient) + (BE32(code) + b), recipient, BE32(code) + b);
    TakeU32Iff(BE32(code) + b, code, b);
    TakeStringIff(b, data, trailing);
  }

  /** What has been printed, and whether listening ended with CLOSE, with the stream, or in an error. */
  datatype Hearing = Hearing(printed: bytes, end: Result<bool>)

  function Broken(e: SshError): Hearing { Hearing([], if e == ConnectionClosed then Ok(false) else Err(e)) }

  function Listened(s: Suite, h: Half, input: bytes): Hearing
    decreases |input|
  {
    var o := Open(s, h, input);
    match Returned(o.outcome)
    case Err(e) => Broken(e)
    case Ok(p) =>
      AcceptedUses(s, h, input);
      match React(p)
      case Closes => Hearing([], Ok(true))
      case Breaks(e) => Hearing([], Err(e))
      case Ignores => Listened(s, o.half, input[o.used..])
      case Prints(data) =>
        var later := Listened(s, o.half, input[o.used..]);
        later.(printed := data + later.printed)
  }

  /** Listening to nothing, or to a stream that breaks: only its end is no error. */
  lemma BreaksAreReported(s: Suite, h: Half, input: bytes, e: SshError)
    requires Returned(Open(s, h, input).outcome) == Err(e)
    ensures Listened(s, h, input) == Hearing([], if e == ConnectionClosed then Ok(false) else Err(e))
    ensures Answer(s, h, input) == Err(e)
  {
    hide Open;
  }

  /** An answer to CHANNEL_OPEN of any other type is a refusal. */
  lemma RefusalIsReported(s: Suite, h: Half, p: Packet, rnd: bytes, rest: bytes)
    requires Seal(s, h, p, rnd).Ok? && p.msgType != 91
    ensures Answer(s, h, Seal(s, h, p, rnd).value.wire + rest) == Err(Channel("Channel open failed"))
  {
    hide Seal, Open;
    OpenInvertsSeal(s, h, p, rnd, rest);
  }

  // ---------------------------------------------------------------- the program

  method ReadConfirmation(payload: bytes) returns (r: Result<Confirmation>)
    ensures r == TakeConfirmation(payload)
  {
    hide TakeU32;
    var cursor := new Cursor(payload);
    var recipient :- cursor.ReadU32();
    var remoteId :- cursor.ReadU32();
    var window :- cursor.ReadU32();
    var maxPacket :- cursor.ReadU32();
    r := Ok(Confirmation(remoteId, window, maxPacket));
  }

  method ReadReaction(p: Packet) returns (r: Reaction)
    ensures r == React(p)
  {
    hide ParseData, TakeExtended;
    if p.msgType == CHANNEL_DATA {
      var d := ParseChannelData(p.payload);
      r := if d.Ok? then Prints(d.value.data) else Breaks(d.error);
    } else if p.msgType == CHANNEL_EXTENDED_DATA {
      var data := ReadExtended(p.payload);
      r := if data.Ok? then Ignores else Breaks(data.error);
    } else {
      r := if p.msgType == CHANNEL_CLOSE then Closes else Ignores;
    }
  }

  method ReadExtended(payload: bytes) returns (r: Result<bytes>)
    ensures r == TakeExtended(payload)
  {
    hide TakeU32, TakeString;
    var cursor := new Cursor(payload);
    var channel :- cursor.ReadU32();
    var dataType :- cursor.ReadU32();
    var data :- cursor.ReadString();
    r := Ok(data);
  }

  /** A send, by its effect on the two halves of the keys. */
  method Tell(s: Suite, writer: ByteStream, p: Packet, keys: SessionKeys, rnd: bytes) returns (r: Result<()>)
    requires keys.Valid()
    modifies writer, keys, keys.Repr()
    ensures keys.Valid() && keys.Repr() == old(keys.Repr()) && keys.Value().RecvHalf() == old(keys.Value()).RecvHalf()
    ensures match Seal(s, old(keys.Value()).SendHalf(), p, rnd)
            case Err(e) => r == Err(e) && writer.data == old(writer.data)
            case Ok(x) => r.Ok? && writer.data == old(writer.data) + x.wire && keys.Value().SendHalf() == x.half
  {
    hide Seal;
    ghost var k := keys.Value();
    r := SendPacket(s, writer, p, keys, rnd);
    if r.Ok? {
      SendMovesOn(s, k, p, rnd);
    }
  }

  method NewSession(channels: ChannelManager) returns (id: u32, open: Packet)
    modifies channels
    ensures var m := old(channels.Value());
            && id == m.nextId && open == Packet(CHANNEL_OPEN, OpenPayload(SessionMsg(id)))
            && channels.Value() == m.Opened(Ascii("session")) && id in channels.channels
  {
    hide Ascii, OpenPayload;
    id := channels.OpenChannel(Ascii("session"));
    var ch := channels.channels[id];
    open := BuildChannelOpen(Ascii("session"), ch.localId, ch.localWindow, ch.localMaxPacket);
  }

  /** The channel is opened, announced, and confirmed with what the server answers. */
  method OpenSession(s: Suite, reader: ByteStream, writer: ByteStream, keys: SessionKeys, channels: ChannelManager,
                     rnd: bytes)
    returns (r: Result<u32>)
    requires keys.Valid() && reader != writer
    modifies reader, writer, channels, keys, keys.Repr()
    ensures keys.Valid() && keys.Repr() == old(keys.Repr())
    ensures var k, m := old(keys.Value()), old(channels.Value());
            var p := Packet(CHANNEL_OPEN, OpenPayload(SessionMsg(m.nextId)));
            var o := Open(s, k.RecvHalf(), old(reader.data));
            match Seal(s, k.SendHalf(), p, rnd)
            case Err(e) => r == Err(e) && writer.data == old(writer.data)
            case Ok(x) =>
              && writer.data == old(writer.data) + x.wire && reader.data == old(reader.data)[o.used..]
              && keys.Value().SendHalf() == x.half && keys.Value().RecvHalf() == o.half
              && match Answer(s, k.RecvHalf(), old(reader.data))
                 case Err(e) => r == Err(e)
                 case Ok(c) =>
                   && r == Ok(c.remoteId)
                   && var m' := m.Opened(Ascii("session")).Confirmed(m.nextId, c.remoteId, c.window, c.maxPacket);
                      m' == Ok(channels.Value())
  {
    hide Seal, Open, Answer, Ascii, OpenPayload, SessionMsg, Manager.Opened, Keys.SendHalf, Keys.RecvHalf;
    var id, open := NewSession(channels);
    var sent := Tell(s, writer, open, keys, rnd);
    if sent.Err? {
      return Err(sent.error);
    }
    var c :- HearConfirmation(s, reader, keys);
    var confirmed := channels.ConfirmChannel(id, c.remoteId, c.window, c.maxPacket);
    r := Ok(c.remoteId);
  }

  method HearConfirmation(s: Suite, reader: ByteStream, keys: SessionKeys) returns (r: Result<Confirmation>)
    requires keys.Valid()
    modifies reader, keys, keys.Repr()
    ensures keys.Valid() && keys.Repr() == old(keys.Repr()) && keys.Value().SendHalf() == old(keys.Value()).SendHalf()
    ensures var o := Open(s, old(keys.Value()).RecvHalf(), old(reader.data));
            && reader.data == old(reader.data)[o.used..] && keys.Value().RecvHalf() == o.half
            && r == Answer(s, old(keys.Value()).RecvHalf(), old(reader.data))
  {
    hide Open, TakeConfirmation;
    HalfMovesOn(s, keys.Value(), reader.data);
    var confirm :- RecvPacket(s, reader, keys);
    if confirm.msgType != CHANNEL_OPEN_CONFIRMATION {
      return Err(Channel("Channel open failed"));
    }
    r := ReadConfirmation(confirm.payload);
  }

  /** The receive loop: every pass takes a packet off the stream. */
  method Listen(s: Suite, reader: ByteStream, keys: SessionKeys) returns (heard: Hearing)
    requires keys.Valid()
    modifies reader, keys, keys.Repr()
    ensures keys.Valid() && keys.Repr() == old(keys.Repr())
    ensures keys.Value().SendHalf() == old(keys.Value()).SendHalf()
    ensures heard == Listened(s, old(keys.Value()).RecvHalf(), old(reader.data))
  {
    hide Open, React;
    var printed: bytes := [];
    while true
      invariant keys.Valid() && keys.Repr() == old(keys.Repr())
      invariant keys.Value().SendHalf() == old(keys.Value()).SendHalf()
      invariant Prepended(printed, Listened(s, keys.Value().RecvHalf(), reader.data))
             == Listened(s, old(keys.Value()).RecvHalf(), old(reader.data))
      decreases |reader.data|
    {
      ghost var h, input := keys.Value().RecvHalf(), reader.data;
      ghost var o := Open(s, h, input);
      HalfMovesOn(s, keys.Value(), input);
      var pkt := RecvPacket(s, reader, keys);
      if pkt.Err? {
        return Hearing(printed, if pkt.error == ConnectionClosed then Ok(false) else Err(pkt.error));
      }
      AcceptedUses(s, h, input);
      var reaction := ReadReaction(pkt.value);
      match reaction {
        case Closes => return Hearing(printed, Ok(true));
        case Breaks(e) => return Hearing(printed, Err(e));
        case Ignores =>
        case Prints(data) =>
          Regroups(printed, data, Listened(s, o.half, input[o.used..]));
          printed := printed + data;
      }
    }
  }

  /** A receive leaves the receiving half it moved on, and the sending half alone. */
  lemma HalfMovesOn(s: Suite, k: Keys, input: bytes)
    ensures var h := Open(s, k.RecvHalf(), input).half;
            k.WithRecv(h).RecvHalf() == h && k.WithRecv(h).SendHalf() == k.SendHalf()
  {
    hide Unframe, FromBE32, Masked;
  }

  function Prepended(printed: bytes, later: Hearing): Hearing { later.(printed := printed + later.printed) }

  lemma Regroups(a: bytes, b: bytes, later: Hearing)
    ensures Prepended(a + b, later) == Prepended(a, Prepended(b, later))
  {
    assert a + b + later.printed == a + (b + later.printed);
  }

  function CloseWire(s: Suite, h: Half, remoteId: u32, rnd: bytes): bytes {
    var sealed := Seal(s, h, Notice(CHANNEL_CLOSE, remoteId), rnd);
    if sealed.Ok? then sealed.value.wire else []
  }

  lemma CloseFits(s: Suite, h: Half, remoteId: u32, rnd: bytes)
    ensures Seal(s, h, Notice(CHANNEL_CLOSE, remoteId), rnd).Ok?
  {
    hide Seal, BE32;
    SealGoes(s, h, Notice(CHANNEL_CLOSE, remoteId), rnd);
  }

  /** A send leaves the sending half it moved on, and the receiving half alone. */
  lemma SendMovesOn(s: Suite, k: Keys, p: Packet, rnd: bytes)
    requires Seal(s, k.SendHalf(), p, rnd).Ok?
    ensures var h := Seal(s, k.SendHalf(), p, rnd).value.half;
            k.WithSend(h).SendHalf() == h && k.WithSend(h).RecvHalf() == k.RecvHalf()
  {
    hide Frame, Masked;
  }

  // ---------------------------------------------------------------- the whole program

  function OpenPacket(): Packet { Packet(CHANNEL_OPEN, OpenPayload(SessionMsg(0))) }

  function ExecPacket(id: u32, command: str): Packet {
    Packet(CHANNEL_REQUEST, RequestPayload(ExecMsg(id, command, true)))
  }

  /** How the client ends: the error if there is one, all that it has written, and what it has printed. */
  datatype Finish = Finish(failure: Option<SshError>, written: bytes, printed: bytes)

  /** What an authenticated client does, `a` being where authentication has left it. */
  function Commanded(s: Suite, padding: nat -> bytes, a: Spot<Client>, command: str): Finish {
    match Seal(s, a.party.keys.SendHalf(), OpenPacket(), padding(a.sends))
    case Err(e) => Finish(Some(e), a.output, [])
    case Ok(x) =>
      match Answer(s, a.party.keys.RecvHalf(), a.input)
      case Err(e) => Finish(Some(e), a.output + x.wire, [])
      case Ok(c) =>
        var o := Open(s, a.party.keys.RecvHalf(), a.input);
        Asked(s, padding, a.sends + 1, x.half, a.output + x.wire, Listened(s, o.half, a.input[o.used..]), c.remoteId,
              command)
  }

  /** From the request for the command on, `heard` being what is to be heard. */
  function Asked(s: Suite, padding: nat -> bytes, sends: nat, h: Half, written: bytes, heard: Hearing, id: u32,
                 command: str): Finish {
    match Seal(s, h, ExecPacket(id, command), padding(sends))
    case Err(e) => Finish(Some(e), written, [])
    case Ok(y) =>
      match heard.end
      case Err(e) => Finish(Some(e), written + y.wire, heard.printed)
      case Ok(closed) =>
        Finish(None, written + y.wire + (if closed then CloseWire(s, y.half, id, padding(sends + 1)) else []),
               heard.printed)
  }

  /** What the client writes once its command is on the way: CLOSE in answer to CLOSE, and nothing otherwise. */
  lemma AskedWrites(s: Suite, padding: nat -> bytes, sends: nat, h: Half, written: bytes, heard: Hearing, id: u32,
                    command: str)
    requires Seal(s, h, ExecPacket(id, command), padding(sends)).Ok?
    ensures var f := Asked(s, padding, sends, h, written, heard, id, command);
            var y := Seal(s, h, ExecPacket(id, command), padding(sends)).value;
            var close := Seal(s, y.half, Packet(97, BE32(id)), padding(sends + 1));
            && close.Ok? && f.printed == heard.printed
            && f.written == written + y.wire + (if heard.end == Ok(true) then close.value.wire else [])
            && f.failure == if heard.end.Err? then Some(heard.end.error) else None
  {
    var y := Seal(s, h, ExecPacket(id, command), padding(sends)).value;
    CloseFits(s, y.half, id, padding(sends + 1));
    hide Seal, BE32, ExecPacket;
    assert written + y.wire + [] == written + y.wire;
  }

  /** An error in the answer to CHANNEL_OPEN is the client's, with nothing printed and no command asked for. */
  lemma AnswerErrorsEnd(s: Suite, padding: nat -> bytes, a: Spot<Client>, command: str, e: SshError)
    requires Seal(s, a.party.keys.SendHalf(), OpenPacket(), padding(a.sends)).Ok?
    requires Answer(s, a.party.keys.RecvHalf(), a.input) == Err(e)
    ensures var x := Seal(s, a.party.keys.SendHalf(), OpenPacket(), padding(a.sends)).value;
            Commanded(s, padding, a, command) == Finish(Some(e), a.output + x.wire, [])
  {
    hide Seal, Answer, OpenPacket, Open, Listened, Asked;
  }

  predicate FinishesWith(f: Finish, r: Result<()>, output: bytes, printed: bytes) {
    && f.written == output && f.printed == printed
    && match f.failure
       case None => r.Ok?
       case Some(e) => r == Err(e)
  }

  /** The command is asked for, its output collected, and CLOSE answered. */
  method RunCommand(s: Suite, reader: ByteStream, writer: ByteStream, keys: SessionKeys, padding: nat -> bytes,
                    sends: nat, remoteId: u32, command: str) returns (r: Result<()>, printed: bytes)
    requires keys.Valid() && reader != writer
    modifies reader, writer, keys, keys.Repr()
    ensures var k := old(keys.Value());
            FinishesWith(Asked(s, padding, sends, k.SendHalf(), old(writer.data),
                               Listened(s, k.RecvHalf(), old(reader.data)), remoteId, command), r, writer.data, printed)
  {
    hide Seal, Open, Listened, RequestPayload, BE32;
    var exec := BuildExecRequest(remoteId, command, true);
    var sent := Tell(s, writer, exec, keys, padding(sends));
    if sent.Err? {
      return Err(sent.error), [];
    }
    var heard := Listen(s, reader, keys);
    printed := heard.printed;
    if heard.end.Err? {
      return Err(heard.end.error), printed;
    }
    if heard.end.value {
      CloseFits(s, keys.Value().SendHalf(), remoteId, padding(sends + 1));
      var closed := Tell(s, writer, Notice(CHANNEL_CLOSE, remoteId), keys, padding(sends + 1));
    } else {
      assert writer.data + [] == writer.data;
    }
    r := Ok(());
  }

  /** The client authenticates in `n` steps and goes on to its command, or gives up there. */
  predicate CommandEnds(u: CC.Setup, n: nat, command: str, r: Result<()>, output: bytes, printed: bytes) {
    if CC.After(u, n).party.pc.CAuthenticated? then
      FinishesWith(Commanded(u.s, u.padding, CC.After(u, n), command), r, output, printed)
    else
      r.Err? && CC.EndsWith(u, n, r, output) && printed == []
  }

  /** `run_client` with a command, on any input. */
  method RunClientCommand(u: CC.Setup, command: str) returns (r: Result<()>, output: bytes, printed: bytes)
    ensures exists n :: CommandEnds(u, n, command, r, output, printed)
  {
    hide CC.After;
    var connection := new CC.Connection(u);
    r := connection.Run();
    if r.Err? {
      output, printed := connection.writer.data, [];
      NotAuthenticated(u, CC.After(u, connection.steps), r.error);
      assert CommandEnds(u, connection.steps, command, r, output, printed);
    } else {
      ghost var a := CC.After(u, connection.steps);
      assert connection.writer.data == a.output && connection.reader.data == a.input;
      r, printed := Command(u.s, connection.reader, connection.writer, connection.keys, u.padding, connection.sends,
                            command, a);
      output := connection.writer.data;
      assert CommandEnds(u, connection.steps, command, r, output, printed);
    }
  }

  lemma NotAuthenticated(u: CC.Setup, a: Spot<Client>, e: SshError)
    requires CC.GivesUp(u, a, e)
    ensures !a.party.pc.CAuthenticated?
  {
    hide CutOff;
  }

  method Command(s: Suite, reader: ByteStream, writer: ByteStream, keys: SessionKeys, padding: nat -> bytes, sends: nat,
                 command: str, ghost a: Spot<Client>) returns (r: Result<()>, printed: bytes)
    requires keys.Valid() && reader != writer
    requires a.party.keys == keys.Value() && a.input == reader.data && a.output == writer.data && a.sends == sends
    modifies reader, writer, keys, keys.Repr()
    ensures FinishesWith(Commanded(s, padding, a, command), r, writer.data, printed)
  {
    hide Seal, Open, Answer, Listened, OpenPayload, Asked, SessionMsg, Manager.Opened, Keys.SendHalf, Keys.RecvHalf;
    var channels := new ChannelManager();
    var id := OpenSession(s, reader, writer, keys, channels, padding(sends));
    if id.Err? {
      return Err(id.error), [];
    }
    r, printed := RunCommand(s, reader, writer, keys, padding, sends + 1, id.value, command);
  }
}
