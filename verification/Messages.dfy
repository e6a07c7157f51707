/**
 The channel messages of src/connection/mod.rs: what the builders write and what the three
 parsers make of it.
 */
module Messages {
  import opened Bytes
  import opened Wire
  import opened Packets

  const CHANNEL_OPEN: byte := 90
  const CHANNEL_OPEN_CONFIRMATION: byte := 91
  const CHANNEL_WINDOW_ADJUST: byte := 93
  const CHANNEL_DATA: byte := 94
  const CHANNEL_EOF: byte := 96
  const CHANNEL_CLOSE: byte := 97
  const CHANNEL_REQUEST: byte := 98
  const CHANNEL_SUCCESS: byte := 99
  const CHANNEL_FAILURE: byte := 100

  datatype ChannelOpenMsg = ChannelOpenMsg(channelType: str, senderChannel: u32, initialWindow: u32, maxPacket: u32)
  datatype ChannelDataMsg = ChannelDataMsg(recipientChannel: u32, data: bytes)
  datatype ChannelRequestMsg = ChannelRequestMsg(recipientChannel: u32, requestType: str, wantReply: bool, data: bytes)

  // ---------------------------------------------------------------- building

  function OpenPayload(m: ChannelOpenMsg): bytes {
    EncString(m.channelType) + BE32(m.senderChannel) + BE32(m.initialWindow) + BE32(m.maxPacket)
  }

  function OpenConfirmation(recipient: u32, sender: u32, window: u32, maxPacket: u32): Packet {
    Packet(CHANNEL_OPEN_CONFIRMATION, BE32(recipient) + BE32(sender) + BE32(window) + BE32(maxPacket))
  }

  function DataPayload(m: ChannelDataMsg): bytes { BE32(m.recipientChannel) + EncString(m.data) }

  /** A request with its type-specific data. */
  function RequestPayload(m: ChannelRequestMsg): bytes {
    BE32(m.recipientChannel) + EncString(m.requestType) + EncBool(m.wantReply) + m.data
  }

  /** EOF, CLOSE, SUCCESS and FAILURE carry just the recipient. */
  function Notice(msgType: byte, recipient: u32): Packet { Packet(msgType, BE32(recipient)) }

  function ExecMsg(recipient: u32, command: str, wantReply: bool): ChannelRequestMsg {
    ChannelRequestMsg(recipient, Ascii("exec"), wantReply, EncString(command))
  }

  function ShellMsg(recipient: u32, wantReply: bool): ChannelRequestMsg {
    ChannelRequestMsg(recipient, Ascii("shell"), wantReply, [])
  }

  function PtyMsg(recipient: u32, term: str, cols: u32, rows: u32, widthPx: u32, heightPx: u32,
                  wantReply: bool): ChannelRequestMsg {
    ChannelRequestMsg(recipient, Ascii("pty-req"), wantReply,
      EncString(term) + BE32(cols) + BE32(rows) + BE32(widthPx) + BE32(heightPx) + EncString([0]))
  }

  method BuildChannelOpen(channelType: str, sender: u32, window: u32, maxPacket: u32) returns (p: Packet)
    ensures p == Packet(CHANNEL_OPEN, OpenPayload(ChannelOpenMsg(channelType, sender, window, maxPacket)))
  {
    hide BE32, EncString;
    var buf := new Buffer();
    buf.WriteString(channelType);
    assert buf.data == EncString(channelType);
    buf.WriteU32(sender);
    buf.WriteU32(window);
    buf.WriteU32(maxPacket);
    p := Packet(CHANNEL_OPEN, buf.data);
  }

  method BuildChannelData(recipient: u32, data: bytes) returns (p: Packet)
    ensures p == Packet(CHANNEL_DATA, DataPayload(ChannelDataMsg(recipient, data)))
  {
    hide BE32, EncString;
    var buf := new Buffer();
    buf.WriteU32(recipient);
    assert buf.data == BE32(recipient);
    buf.WriteString(data);
    p := Packet(CHANNEL_DATA, buf.data);
  }

  method BuildExecRequest(recipient: u32, command: str, wantReply: bool) returns (p: Packet)
    ensures p == Packet(CHANNEL_REQUEST, RequestPayload(ExecMsg(recipient, command, wantReply)))
  {
    hide BE32, EncString, Ascii;
    var buf := new Buffer();
    buf.WriteU32(recipient);
    assert buf.data == BE32(recipient);
    buf.WriteString(Ascii("exec"));
    buf.WriteBool(wantReply);
    buf.WriteString(command);
    p := Packet(CHANNEL_REQUEST, buf.data);
  }

  method BuildShellRequest(recipient: u32, wantReply: bool) returns (p: Packet)
    ensures p == Packet(CHANNEL_REQUEST, RequestPayload(ShellMsg(recipient, wantReply)))
  {
    hide BE32, EncString, Ascii;
    var buf := new Buffer();
    buf.WriteU32(recipient);
    assert buf.data == BE32(recipient);
    buf.WriteString(Ascii("shell"));
    buf.WriteBool(wantReply);
    assert buf.data + [] == buf.data;
    p := Packet(CHANNEL_REQUEST, buf.data);
  }

  method BuildPtyRequest(recipient: u32, term: str, cols: u32, rows: u32, widthPx: u32, heightPx: u32, wantReply: bool)
    returns (p: Packet)
    ensures p
         == Packet(CHANNEL_REQUEST, RequestPayload(PtyMsg(recipient, term, cols, rows, widthPx, heightPx, wantReply)))
  {
    hide BE32, EncString, Ascii;
    var buf := new Buffer();
    buf.WriteU32(recipient);
    assert buf.data == BE32(recipient);
    buf.WriteString(Ascii("pty-req"));
    buf.WriteBool(wantReply);
    ghost var head := buf.data;
    buf.WriteString(term);
    buf.WriteU32(cols);
    buf.WriteU32(rows);
    buf.WriteU32(widthPx);
    buf.WriteU32(heightPx);
    buf.WriteString([0]);
    AppendSix(head, EncString(term), BE32(cols), BE32(rows), BE32(widthPx), BE32(heightPx), EncString([0]));
    p := Packet(CHANNEL_REQUEST, buf.data);
  }

  lemma AppendSix(h: bytes, a: bytes, b: bytes, c: bytes, d: bytes, e: bytes, f: bytes)
    ensures h + a + b + c + d + e + f == h + (a + b + c + d + e + f)
  {
    assert h + a + b + c == h + (a + b + c);
    assert h + (a + b + c) + d + e + f == h + (a + b + c + d + e + f);
  }

  // ---------------------------------------------------------------- parsing

  function ParseOpen(payload: bytes): Result<ChannelOpenMsg> {
    var t :- TakeUtf8(payload);
    var sender :- TakeU32(t.rest);
    var window :- TakeU32(sender.rest);
    var maxPacket :- TakeU32(window.rest);
    Ok(ChannelOpenMsg(t.value, sender.value, window.value, maxPacket.value))
  }

  function ParseData(payload: bytes): Result<ChannelDataMsg> {
    var recipient :- TakeU32(payload);
    var data :- TakeString(recipient.rest);
    Ok(ChannelDataMsg(recipient.value, data.value))
  }

  function ParseRequest(payload: bytes): Result<ChannelRequestMsg> {
    var recipient :- TakeU32(payload);
    var requestType :- TakeUtf8(recipient.rest);
    var wantReply :- TakeBool(requestType.rest);
    Ok(ChannelRequestMsg(recipient.value, requestType.value, wantReply.value, wantReply.rest))
  }

  method ParseChannelOpen(payload: bytes) returns (r: Result<ChannelOpenMsg>)
    ensures r == ParseOpen(payload)
  {
    hide TakeUtf8, TakeU32;
    var cursor := new Cursor(payload);
    var channelType :- cursor.ReadUtf8();
    var sender :- cursor.ReadU32();
    var window :- cursor.ReadU32();
    var maxPacket :- cursor.ReadU32();
    r := Ok(ChannelOpenMsg(channelType, sender, window, maxPacket));
  }

  method ParseChannelData(payload: bytes) returns (r: Result<ChannelDataMsg>)
    ensures r == ParseData(payload)
  {
    hide TakeString, TakeU32;
    var cursor := new Cursor(payload);
    var recipient :- cursor.ReadU32();
    var data :- cursor.ReadString();
    r := Ok(ChannelDataMsg(recipient, data));
  }

  /** The rest of the payload, whatever it is, becomes the request's data. */
  method ParseChannelRequest(payload: bytes) returns (r: Result<ChannelRequestMsg>)
    ensures r == ParseRequest(payload)
  {
    hide TakeUtf8, TakeU32;
    var cursor := new Cursor(payload);
    var recipient :- cursor.ReadU32();
    var requestType :- cursor.ReadUtf8();
    var wantReply :- cursor.ReadBool();
    r := Ok(ChannelRequestMsg(recipient, requestType, wantReply, payload[cursor.pos..]));
  }

  // ---------------------------------------------------------------- round trips

  lemma OpenRoundTrip(m: ChannelOpenMsg, trailing: bytes)
    requires Readable(m.channelType)
    ensures ParseOpen(OpenPayload(m) + trailing) == Ok(m)
  {
    hide BE32, EncString, TakeUtf8, TakeU32;
    var b3 := BE32(m.maxPacket) + trailing;
    var b2 := BE32(m.initialWindow) + b3;
    var b1 := BE32(m.senderChannel) + b2;
    var b := OpenPayload(m) + trailing;
    assert b == EncString(m.channelType) + BE32(m.senderChannel) + b2;
    assert b == EncString(m.channelType) + b1;
    TakeUtf8Inverts(b, m.channelType, b1);
    TakeU32Inverts(b1, m.senderChannel, b2);
    TakeU32Inverts(b2, m.initialWindow, b3);
    TakeU32Inverts(b3, m.maxPacket, trailing);
  }

  lemma DataRoundTrip(m: ChannelDataMsg, trailing: bytes)
    requires Readable(m.data)
    ensures ParseData(DataPayload(m) + trailing) == Ok(m)
  {
    hide BE32, EncString, TakeString, TakeU32;
    var b := DataPayload(m) + trailing;
    assert b == BE32(m.recipientChannel) + (EncString(m.data) + trailing);
    TakeU32Inverts(b, m.recipientChannel, EncString(m.data) + trailing);
    TakeStringInverts(EncString(m.data) + trailing, m.data, trailing);
  }

  /** Every request, with any type and any data, parses back to itself; exec, shell and pty-req are instances. */
  lemma RequestRoundTrip(m: ChannelRequestMsg)
    requires Readable(m.requestType)
    ensures ParseRequest(RequestPayload(m)) == Ok(m)
  {
    hide BE32, EncString, TakeUtf8, TakeU32;
    var b2 := EncBool(m.wantReply) + m.data;
    var b1 := EncString(m.requestType) + b2;
    var b := RequestPayload(m);
    assert b == BE32(m.recipientChannel) + EncString(m.requestType) + b2;
    assert b == BE32(m.recipientChannel) + b1;
    TakeU32Inverts(b, m.recipientChannel, b1);
    TakeUtf8Inverts(b1, m.requestType, b2);
    TakeBoolInverts(b2, m.wantReply, m.data);
  }

  /** The server reads the command of a built exec request back. */
  lemma ExecRoundTrip(recipient: u32, command: str, wantReply: bool)
    requires Readable(command)
    ensures var r := ParseRequest(RequestPayload(ExecMsg(recipient, command, wantReply)));
            && r.Ok? && r.value.recipientChannel == recipient && r.value.requestType == Ascii("exec")
            && r.value.wantReply == wantReply && TakeUtf8(r.value.data) == Ok(Parsed(command, []))
  {
    hide EncString, TakeUtf8, RequestPayload, ParseRequest;
    RequestRoundTrip(ExecMsg(recipient, command, wantReply));
    assert EncString(command) + [] == EncString(command);
    TakeUtf8Inverts(EncString(command), command, []);
  }

  // ---------------------------------------------------------------- nothing else is read

  /** Each parser reads exactly what its builder writes, with anything behind it. */
  lemma OpenParsesIff(b: bytes, m: ChannelOpenMsg)
    ensures ParseOpen(b) == Ok(m) <==> Readable(m.channelType) && OpenPayload(m) <= b
  {
    hide BE32, EncString, TakeUtf8, TakeU32;
    if ParseOpen(b) == Ok(m) {
      var t := TakeUtf8(b).value;
      var sender := TakeU32(t.rest).value;
      var window := TakeU32(sender.rest).value;
      var maxPacket := TakeU32(window.rest).value;
      TakeUtf8Iff(b, t.value, t.rest);
      TakeU32Iff(t.rest, sender.value, sender.rest);
      TakeU32Iff(sender.rest, window.value, window.rest);
      TakeU32Iff(window.rest, maxPacket.value, maxPacket.rest);
      Grouped(EncString(t.value), BE32(sender.value), BE32(window.value), BE32(maxPacket.value), maxPacket.rest);
    }
    if Readable(m.channelType) && OpenPayload(m) <= b {
      OpenRoundTrip(m, b[|OpenPayload(m)|..]);
      assert b == OpenPayload(m) + b[|OpenPayload(m)|..];
    }
  }

  lemma Grouped(a: bytes, b: bytes, c: bytes, d: bytes, e: bytes)
    ensures a + (b + (c + (d + e))) == a + b + c + d + e
  {
  }

  lemma DataParsesIff(b: bytes, m: ChannelDataMsg)
    ensures ParseData(b) == Ok(m) <==> Readable(m.data) && DataPayload(m) <= b
  {
    hide BE32, EncString, TakeString, TakeU32;
    if ParseData(b) == Ok(m) {
      var recipient := TakeU32(b).value;
      var data := TakeString(recipient.rest).value;
      TakeU32Iff(b, recipient.value, recipient.rest);
      TakeStringIff(recipient.rest, data.value, data.rest);
      assert b == DataPayload(m) + data.rest;
    }
    if Readable(m.data) && DataPayload(m) <= b {
      DataRoundTrip(m, b[|DataPayload(m)|..]);
      assert b == DataPayload(m) + b[|DataPayload(m)|..];
    }
  }

  /** A request's flag may be any byte other than zero for yes. */
  lemma RequestParsesIff(b: bytes, m: ChannelRequestMsg)
    ensures ParseRequest(b) == Ok(m)
            <==> && Readable(m.requestType)
                 && exists flag: byte :: (flag != 0 <==> m.wantReply)
                      && b == BE32(m.recipientChannel) + (EncString(m.requestType) + ([flag] + m.data))
  {
    hide BE32, EncString, TakeUtf8, TakeU32, TakeBool;
    if ParseRequest(b) == Ok(m) {
      var recipient := TakeU32(b).value;
      var kind := TakeUtf8(recipient.rest).value;
      var wants := TakeBool(kind.rest).value;
      TakeU32Iff(b, recipient.value, recipient.rest);
      TakeUtf8Iff(recipient.rest, kind.value, kind.rest);
      TakeBoolIff(kind.rest, wants.value, wants.rest);
      var flag := kind.rest[0];
      assert b == BE32(m.recipientChannel) + (EncString(m.requestType) + ([flag] + m.data));
    }
    if flag: byte :| Readable(m.requestType) && (flag != 0 <==> m.wantReply)
                       && b == BE32(m.recipientChannel) + (EncString(m.requestType) + ([flag] + m.data)) {
      var b1 := EncString(m.requestType) + ([flag] + m.data);
      TakeU32Iff(b, m.recipientChannel, b1);
      TakeUtf8Iff(b1, m.requestType, [flag] + m.data);
      TakeBoolIff([flag] + m.data, m.wantReply, m.data);
    }
  }
}
