/**
 The channel loop of `handle_connection` in src/bin/server.rs, one message at a time: `PlanFor`
 says what a message makes the server do, `ChannelsAfter` and `SftpAfter` what it leaves behind.
 */
module Server {
  import opened Bytes
  import opened Wire
  import opened Packets
  import opened Crypto
  import opened Transport
  import opened Version
  import opened Kex
  import opened Auth
  import opened Channels
  import opened Messages
  import opened SftpCodec
  import opened SftpHandler
  import opened Handshake
  import opened Session

  const DISCONNECT: byte := 1
  const UNKNOWN_CHANNEL := Channel("Unknown channel")

  /** What the outside world answers while one message is handled. */
  datatype Outside = Outside(
    output: str,               // of the command
    aftermath: Disk -> Disk,   // the files once the command has run
    io: Io)                    // the file system's answers to an SFTP request

  /** Everything the outside world decides. */
  datatype Env = Env(cookie: bytes, secret: bytes, padding: nat -> bytes, outside: nat -> Outside)

  datatype Next = Continue | Stop | Fail(error: SshError)

  // ---------------------------------------------------------------- what a message asks for

  datatype Plan = Plan(events: seq<Event>, next: Next)

  function Secured(p: Packet): Event { Sent(p, true) }

  /** Some channel has this remote id. */
  ghost predicate Known(m: Manager, remoteId: u32) { exists id :: m.Matches(remoteId, id) }

  /** The answer to a request that only wants SUCCESS or FAILURE. */
  ghost function PlanReply(m: Manager, q: ChannelRequestMsg, msgType: byte): Plan {
    if !q.wantReply then Plan([], Continue)
    else if Known(m, q.recipientChannel) then Plan([Secured(Notice(msgType, q.recipientChannel))], Continue)
    else Plan([], Fail(UNKNOWN_CHANNEL))
  }

  /** The command is run before the channel is looked up. */
  ghost function PlanExec(m: Manager, q: ChannelRequestMsg, output: str, files: Disk): Plan {
    match TakeUtf8(q.data)
    case Err(e) => Plan([], Fail(e))
    case Ok(command) =>
      var r, run := q.recipientChannel, Effect(RunsCommand(command.value, files));
      if !Known(m, r) then Plan([run], Fail(UNKNOWN_CHANNEL))
      else
        Plan([run] + ReplyEvents(q) + ClosingEvents(r, output), Continue)
  }

  function ReplyEvents(q: ChannelRequestMsg): seq<Event> {
    if q.wantReply then [Secured(Notice(CHANNEL_SUCCESS, q.recipientChannel))] else []
  }

  function ClosingEvents(r: u32, output: str): seq<Event> {
    [Secured(Packet(CHANNEL_DATA, DataPayload(ChannelDataMsg(r, output)))),
     Secured(Notice(CHANNEL_EOF, r)), Secured(Notice(CHANNEL_CLOSE, r))]
  }

  ghost function PlanSubsystem(m: Manager, q: ChannelRequestMsg): Plan {
    match TakeUtf8(q.data)
    case Err(e) => Plan([], Fail(e))
    case Ok(name) => PlanReply(m, q, if name.value == Ascii("sftp") then CHANNEL_SUCCESS else CHANNEL_FAILURE)
  }

  ghost function PlanRequest(m: Manager, q: ChannelRequestMsg, output: str, files: Disk): Plan {
    if q.requestType == Ascii("exec") then PlanExec(m, q, output, files)
    else if q.requestType == Ascii("shell") then PlanReply(m, q, CHANNEL_SUCCESS)
    else if q.requestType == Ascii("subsystem") then PlanSubsystem(m, q)
    else if q.requestType == Ascii("pty-req") then PlanReply(m, q, CHANNEL_SUCCESS)
    else PlanReply(m, q, CHANNEL_FAILURE)
  }

  ghost function PlanRequestMsg(m: Manager, payload: bytes, output: str, files: Disk): Plan {
    match ParseRequest(payload)
    case Err(e) => Plan([], Fail(e))
    case Ok(q) => PlanRequest(m, q, output, files)
  }

  /** The SFTP request is handled before the channel is looked up. */
  ghost function PlanServe(m: Manager, st: State, remoteId: u32, p: SftpPacket, io: Io): Plan {
    if !Known(m, remoteId) then Plan([Effect(ServesSftp(p, io))], Fail(UNKNOWN_CHANNEL))
    else
      var reply := ChannelDataMsg(remoteId, EncSftp(Handled(st, p, io).reply));
      Plan([Effect(ServesSftp(p, io)), Secured(Packet(CHANNEL_DATA, DataPayload(reply)))], Continue)
  }

  ghost function PlanData(m: Manager, st: State, payload: bytes, io: Io): Plan {
    match ParseData(payload)
    case Err(e) => Plan([], Fail(e))
    case Ok(d) =>
      match Unwrap(d.data)
      case None => Plan([], Continue)
      case Some(p) => PlanServe(m, st, d.recipientChannel, p, io)
  }

  function PlanOpen(m: Manager, payload: bytes): Plan {
    match ParseOpen(payload)
    case Err(e) => Plan([], Fail(e))
    case Ok(o) =>
      Plan([Effect(OpensChannel(m.nextId, o)),
            Secured(OpenConfirmation(o.senderChannel, m.nextId, DEFAULT_WINDOW_SIZE, DEFAULT_MAX_PACKET))], Continue)
  }

  ghost function PlanAdjust(m: Manager, payload: bytes): Plan {
    match TakeAdjust(payload)
    case Err(e) => Plan([], Fail(e))
    case Ok(a) => Plan(if Known(m, a.0) then [Effect(AdjustsWindow(a.0, a.1))] else [], Continue)
  }

  ghost function PlanEof(m: Manager, payload: bytes): Plan {
    match TakeU32(payload)
    case Err(e) => Plan([], Fail(e))
    case Ok(r) => Plan(if Known(m, r.value) then [Effect(MarksEof(r.value))] else [], Continue)
  }

  /** CLOSE is answered as often as it comes: no channel is ever marked closed. */
  ghost function PlanClose(m: Manager, payload: bytes): Plan {
    match TakeU32(payload)
    case Err(e) => Plan([], Fail(e))
    case Ok(r) => Plan(if Known(m, r.value) then [Secured(Notice(CHANNEL_CLOSE, r.value))] else [], Continue)
  }

  ghost function PlanFor(m: Manager, st: State, p: Packet, w: Outside): Plan {
    if p.msgType == CHANNEL_OPEN then PlanOpen(m, p.payload)
    else if p.msgType == CHANNEL_REQUEST then PlanRequestMsg(m, p.payload, w.output, w.aftermath(st.disk))
    else if p.msgType == CHANNEL_DATA then PlanData(m, st, p.payload, w.io)
    else if p.msgType == CHANNEL_WINDOW_ADJUST then PlanAdjust(m, p.payload)
    else if p.msgType == CHANNEL_EOF then PlanEof(m, p.payload)
    else if p.msgType == CHANNEL_CLOSE then PlanClose(m, p.payload)
    else if p.msgType == DISCONNECT then Plan([], Stop)
    else Plan([], Continue)
  }

  function TakeAdjust(payload: bytes): Result<(u32, u32)> {
    var recipient :- TakeU32(payload);
    var amount :- TakeU32(recipient.rest);
    Ok((recipient.value, amount.value))
  }

  // ---------------------------------------------------------------- what becomes of the state

  predicate AfterOpen(m: Manager, payload: bytes, m': Manager) {
    match ParseOpen(payload)
    case Err(_) => m' == m
    case Ok(o) => m' == m.Accepted(o.senderChannel, o.channelType, o.initialWindow, o.maxPacket)
  }

  /** Several channels may share the remote id a message names; any one of them is updated. */
  ghost predicate AfterAdjust(m: Manager, payload: bytes, m': Manager) {
    match TakeAdjust(payload)
    case Err(_) => m' == m
    case Ok(a) => if Known(m, a.0) then exists id :: m.Matches(a.0, id) && m' == m.RemoteAdjusted(id, a.1) else m' == m
  }

  ghost predicate AfterEof(m: Manager, payload: bytes, m': Manager) {
    match TakeU32(payload)
    case Err(_) => m' == m
    case Ok(r) => if Known(m, r.value) then exists id :: m.Matches(r.value, id) && m' == m.EofReceived(id) else m' == m
  }

  ghost predicate ChannelsAfter(m: Manager, p: Packet, m': Manager) {
    if p.msgType == CHANNEL_OPEN then AfterOpen(m, p.payload, m')
    else if p.msgType == CHANNEL_WINDOW_ADJUST then AfterAdjust(m, p.payload, m')
    else if p.msgType == CHANNEL_EOF then AfterEof(m, p.payload, m')
    else m' == m
  }

  function AfterData(st: State, payload: bytes, io: Io): State {
    match ParseData(payload)
    case Err(_) => st
    case Ok(d) =>
      match Unwrap(d.data)
      case None => st
      case Some(p) => Handled(st, p, io).state
  }

  function AfterExec(st: State, q: ChannelRequestMsg, files: Disk): State {
    if TakeUtf8(q.data).Ok? then st.(disk := files) else st
  }

  function AfterRequest(st: State, payload: bytes, files: Disk): State {
    match ParseRequest(payload)
    case Err(_) => st
    case Ok(q) => if q.requestType == Ascii("exec") then AfterExec(st, q, files) else st
  }

  /** The SFTP handler and the disk afterwards. */
  function SftpAfter(st: State, p: Packet, w: Outside): State {
    if p.msgType == CHANNEL_DATA then AfterData(st, p.payload, w.io)
    else if p.msgType == CHANNEL_REQUEST then AfterRequest(st, p.payload, w.aftermath(st.disk))
    else st
  }

  predicate FitsPacket(p: Packet) { |p.payload| <= 34986 }

  /** A plan is carried out up to the first packet that is too large to be sent. */
  function Until(events: seq<Event>): seq<Event>
    decreases |events|
  {
    if events == [] || (events[0].Sent? && !FitsPacket(events[0].packet)) then []
    else [events[0]] + Until(events[1..])
  }

  /** How the loop goes on once a plan has been carried out. */
  function Ending(plan: Plan): Next {
    if Until(plan.events) == plan.events then plan.next else Fail(PACKET_TOO_LARGE)
  }

  ghost predicate CarriedOut(plan: Plan, before: seq<Event>, after: seq<Event>, next: Next) {
    after == before + Until(plan.events) && next == Ending(plan)
  }

  /** The server never marks a channel closed. */
  predicate AllOpen(m: Manager) { forall id :: id in m.channels ==> !m.channels[id].closed }
}
