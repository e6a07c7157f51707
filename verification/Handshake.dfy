/**
 `run_client` (src/bin/client.rs) and `handle_connection` (src/bin/server.rs) up to the
 answer to the first authentication request: two programs over two byte streams. A step
 of a program is one send or one receive; a receive waits until its bytes are there.
 */
module Handshake {
  import opened Bytes
  import opened Wire
  import opened Packets
  import opened Crypto
  import opened Transport
  import opened Version
  import opened Kex
  import opened Auth

  const KEXINIT: byte := 20
  const NEWKEYS: byte := 21
  const KEX_ECDH_INIT: byte := 30
  const KEX_ECDH_REPLY: byte := 31

  function HostKey(): str { Ascii("swiftssh-server-host-key") }

  datatype ClientConfig = ClientConfig(cookie: bytes, secret: bytes, user: str, password: str)
  datatype ServerConfig = ServerConfig(cookie: bytes, secret: bytes, db: Db)

  datatype ClientPc =
    | CVersionOut | CVersionIn | CKexinitIn | CKexinitOut | CEcdhOut | CReplyIn | CNewkeysIn | CNewkeysOut
    | CServiceOut | CAcceptIn | CAuthOut | CAuthIn | CAuthenticated | CFailed(error: SshError)

  datatype ServerPc =
    | SVersionOut | SVersionIn | SKexinitOut | SKexinitIn | SEcdhIn | SReplyOut | SNewkeysOut | SNewkeysIn
    | SServiceIn | SAcceptOut | SAuthIn(refusals: nat) | SAuthOut(refusals: nat) | SSession | SFailed(error: SshError)

  datatype Client = Client(
    pc: ClientPc, keys: Keys, serverVersion: str, serverKexinit: bytes, result: KexResult)

  datatype Server = Server(
    pc: ServerPc, keys: Keys, clientVersion: str, clientKexinit: bytes, result: KexResult,
    service: str, granted: bool)

  const CLIENT_START := Client(CVersionOut, FRESH_KEYS, [], [], KexResult([], []))
  const SERVER_START := Server(SVersionOut, FRESH_KEYS, [], [], KexResult([], []), [], false)

  /** What one send writes. */
  datatype Item = Line(text: str) | Framed(half: Half, packet: Packet, rnd: bytes)

  function ItemBytes(s: Suite, item: Item): bytes {
    match item
    case Line(text) => text + CRLF
    case Framed(h, p, rnd) => if Seal(s, h, p, rnd).Ok? then Seal(s, h, p, rnd).value.wire else []
  }

  /** One step: the new state, the bytes taken off the incoming stream and what was written. */
  datatype Turn<T> = Turn(state: T, used: nat, wrote: Option<Item>)

  datatype Incoming = Waiting | Broken(error: SshError) | Message(packet: Packet, keys: Keys, used: nat)

  function Receive(s: Suite, keys: Keys, input: bytes): (r: Incoming)
    ensures r.Message? ==> r.used <= |input|
  {
    var o := Open(s, keys.RecvHalf(), input);
    match o.outcome
    case Accepted(p) => Message(p, keys.WithRecv(o.half), o.used)
    case Starved(_) => Waiting
    case Rejected(e) => Broken(e)
  }

  // ---------------------------------------------------------------- the client

  function ClientFails(c: Client, e: SshError): Option<Turn<Client>> { Some(Turn(c.(pc := CFailed(e)), 0, None)) }

  /** The packet a sending step writes. */
  function ClientPacket(s: Suite, cfg: ClientConfig, pc: ClientPc): Packet
    requires ClientSending(pc)
  {
    match pc
    case CKexinitOut => Packet(KEXINIT, KexinitPayload(cfg.cookie))
    case CEcdhOut => Packet(KEX_ECDH_INIT, EncString(s.publicKey(cfg.secret)))
    case CNewkeysOut => Packet(NEWKEYS, [])
    case CServiceOut => ServiceRequest(Ascii("ssh-userauth"))
    case CAuthOut => Packet(USERAUTH_REQUEST, PasswordPayload(cfg.user, Ascii("ssh-connection"), cfg.password))
  }

  function ClientSends(s: Suite, c: Client, p: Packet, rnd: bytes): Option<Turn<Client>> {
    var h := c.keys.SendHalf();
    match Seal(s, h, p, rnd)
    case Err(e) => ClientFails(c, e)
    case Ok(x) =>
      var keys := c.keys.WithSend(x.half);
      var keys' := if c.pc.CNewkeysOut? then ClientInstall(s, keys, c.result) else keys;
      Some(Turn(c.(pc := ClientNext(c.pc), keys := keys'), 0, Some(Framed(h, p, rnd))))
  }

  predicate ClientSending(pc: ClientPc) {
    pc.CKexinitOut? || pc.CEcdhOut? || pc.CNewkeysOut? || pc.CServiceOut? || pc.CAuthOut?
  }

  function ClientNext(pc: ClientPc): ClientPc {
    match pc
    case CKexinitOut => CEcdhOut
    case CEcdhOut => CReplyIn
    case CNewkeysOut => CServiceOut
    case CServiceOut => CAcceptIn
    case _ => CAuthIn
  }

  function ParseReply(payload: bytes): Result<(bytes, bytes)> {
    var hostKey :- TakeString(payload);
    var pub :- TakeString(hostKey.rest);
    var signature :- TakeString(pub.rest);
    if |pub.value| != 32 then Err(KeyExchange("Invalid server public key length"))
    else Ok((hostKey.value, pub.value))
  }

  function ClientCompletes(s: Suite, cfg: ClientConfig, c: Client, hostKey: bytes, serverPub: bytes): KexResult {
    ClientResult(s, cfg.secret, Inputs(
      OwnVersion(), c.serverVersion, [KEXINIT] + KexinitPayload(cfg.cookie), [KEXINIT] + c.serverKexinit,
      hostKey, s.publicKey(cfg.secret), serverPub))
  }

  /** What the client does with a packet it was waiting for. */
  function ClientHandles(s: Suite, cfg: ClientConfig, c: Client, p: Packet): Client {
    match c.pc
    case CKexinitIn =>
      if p.msgType != KEXINIT then c.(pc := CFailed(Protocol("Expected KEXINIT from server")))
      else c.(pc := CKexinitOut, serverKexinit := p.payload)
    case CReplyIn =>
      if p.msgType != KEX_ECDH_REPLY then c.(pc := CFailed(Protocol("Expected KEX_ECDH_REPLY")))
      else (match ParseReply(p.payload)
            case Err(e) => c.(pc := CFailed(e))
            case Ok(r) => c.(pc := CNewkeysIn, result := ClientCompletes(s, cfg, c, r.0, r.1)))
    case CNewkeysIn =>
      if p.msgType != NEWKEYS then c.(pc := CFailed(Protocol("Expected NEWKEYS"))) else c.(pc := CNewkeysOut)
    case CAcceptIn =>
      if p.msgType != SERVICE_ACCEPT then c.(pc := CFailed(Protocol("Expected SERVICE_ACCEPT")))
      else c.(pc := CAuthOut)
    case CAuthIn =>
      if p.msgType == USERAUTH_SUCCESS then c.(pc := CAuthenticated)
      else if p.msgType == USERAUTH_FAILURE then c.(pc := CFailed(AuthFailed("Authentication rejected by server")))
      else c.(pc := CFailed(Protocol("Unexpected auth response")))
    case _ => c
  }

  function ClientStep(s: Suite, cfg: ClientConfig, c: Client, input: bytes, rnd: bytes): (r: Option<Turn<Client>>)
    ensures r.Some? ==> r.value.used <= |input|
  {
    if ClientSending(c.pc) then ClientSends(s, c, ClientPacket(s, cfg, c.pc), rnd) else
    match c.pc
    case CAuthenticated => None
    case CFailed(_) => None
    case CVersionOut => Some(Turn(c.(pc := CVersionIn), 0, Some(Line(OwnVersion()))))
    case CVersionIn =>
      if ScanFrom(input, 0).Eof? then None
      else (match Received(input)
            case Ok(v) => Some(Turn(c.(pc := CKexinitIn, serverVersion := v), Consumed(input), None))
            case Err(e) => ClientFails(c, e))
    case _ =>
      match Receive(s, c.keys, input)
      case Waiting => None
      case Broken(e) => ClientFails(c, e)
      case Message(p, keys, used) => Some(Turn(ClientHandles(s, cfg, c, p).(keys := keys), used, None))
  }

  // ---------------------------------------------------------------- the server

  function ServerFails(v: Server, e: SshError): Option<Turn<Server>> { Some(Turn(v.(pc := SFailed(e)), 0, None)) }

  predicate ServerSending(pc: ServerPc) {
    pc.SKexinitOut? || pc.SReplyOut? || pc.SNewkeysOut? || pc.SAcceptOut? || pc.SAuthOut?
  }

  function ServerPacket(s: Suite, cfg: ServerConfig, v: Server): Packet
    requires ServerSending(v.pc)
  {
    match v.pc
    case SKexinitOut => Packet(KEXINIT, KexinitPayload(cfg.cookie))
    case SReplyOut => Packet(KEX_ECDH_REPLY, ReplyPayload(s, cfg, v.result.hash))
    case SNewkeysOut => Packet(NEWKEYS, [])
    case SAcceptOut => ServiceAccept(v.service)
    case SAuthOut(_) => if v.granted then AUTH_SUCCESS else AuthFailure()
  }

  function ServerNext(v: Server): ServerPc {
    match v.pc
    case SKexinitOut => SKexinitIn
    case SReplyOut => SNewkeysOut
    case SNewkeysOut => SNewkeysIn
    case SAcceptOut => SAuthIn(0)
    case SAuthOut(k) => if v.granted then SSession else SAuthIn(k + 1)
    case _ => v.pc
  }

  function ServerSends(s: Suite, v: Server, p: Packet, rnd: bytes): Option<Turn<Server>> {
    var h := v.keys.SendHalf();
    match Seal(s, h, p, rnd)
    case Err(e) => ServerFails(v, e)
    case Ok(x) =>
      Some(Turn(v.(pc := ServerNext(v), keys := v.keys.WithSend(x.half)), 0, Some(Framed(h, p, rnd))))
  }

  function ServerCompletes(s: Suite, cfg: ServerConfig, v: Server, clientPub: bytes): KexResult {
    ServerResult(s, cfg.secret, Inputs(
      v.clientVersion, OwnVersion(), [KEXINIT] + v.clientKexinit, [KEXINIT] + KexinitPayload(cfg.cookie),
      HostKey(), clientPub, s.publicKey(cfg.secret)))
  }

  function ReplyPayload(s: Suite, cfg: ServerConfig, hash: bytes): bytes {
    EncString(HostKey()) + EncString(s.publicKey(cfg.secret)) + EncString(s.hmac(Ascii("host-key-secret"), hash))
  }

  /** The reply read back: the host key, the server's public key, and the stand-in for a signature over the hash. */
  lemma ReplyReadsBack(s: Suite, cfg: ServerConfig, hash: bytes)
    ensures TakeStrings(ReplyPayload(s, cfg, hash), 3)
         == Ok(Parsed([Ascii("swiftssh-server-host-key"), s.publicKey(cfg.secret),
                       s.hmac(Ascii("host-key-secret"), hash)], []))
  {
    hide EncString, TakeStrings, Ascii, EncStrings, ValidUtf8;
    var f: seq<bytes> := [HostKey(), s.publicKey(cfg.secret), s.hmac(Ascii("host-key-secret"), hash)];
    EncThree(f);
    assert EncStrings(f) + [] == ReplyPayload(s, cfg, hash);
    TakeStringsInverts(f, []);
  }

  lemma EncThree(f: seq<bytes>)
    requires |f| == 3
    ensures EncStrings(f) == EncString(f[0]) + EncString(f[1]) + EncString(f[2])
  {
    hide EncString;
    var g: seq<bytes> := f[1..];
    var last: seq<bytes> := g[1..];
    assert last == [f[2]] && last[1..] == [];
    assert EncStrings(g[1..]) == EncString(f[2]);
    assert EncStrings(g) == EncString(f[1]) + EncString(f[2]);
  }

  function ServerHandles(s: Suite, cfg: ServerConfig, v: Server, p: Packet): Server {
    match v.pc
    case SKexinitIn =>
      if p.msgType != KEXINIT then v.(pc := SFailed(Protocol("Expected KEXINIT")))
      else v.(pc := SEcdhIn, clientKexinit := p.payload)
    case SEcdhIn =>
      if p.msgType != KEX_ECDH_INIT then v.(pc := SFailed(Protocol("Expected KEX_ECDH_INIT")))
      else (match TakeString(p.payload)
            case Err(e) => v.(pc := SFailed(e))
            case Ok(pub) =>
              if |pub.value| != 32 then v.(pc := SFailed(KeyExchange("Invalid client public key length")))
              else v.(pc := SReplyOut, result := ServerCompletes(s, cfg, v, pub.value)))
    case SNewkeysIn =>
      if p.msgType != NEWKEYS then v.(pc := SFailed(Protocol("Expected NEWKEYS"))) else v.(pc := SServiceIn)
    case SServiceIn =>
      if p.msgType != SERVICE_REQUEST then v.(pc := SFailed(Protocol("Expected SERVICE_REQUEST")))
      else (match TakeUtf8(p.payload)
            case Err(e) => v.(pc := SFailed(e))
            case Ok(name) => v.(pc := SAcceptOut, service := name.value))
    case SAuthIn(k) =>
      if p.msgType != USERAUTH_REQUEST then v.(pc := SFailed(Protocol("Expected USERAUTH_REQUEST")))
      else (match ParseAuthRequest(p.payload)
            case Err(e) => v.(pc := SFailed(e))
            case Ok(req) => v.(pc := SAuthOut(k), granted := cfg.db.Accepts(req)))
    case _ => v
  }

  function ServerStep(s: Suite, cfg: ServerConfig, v: Server, input: bytes, rnd: bytes): (r: Option<Turn<Server>>)
    ensures r.Some? ==> r.value.used <= |input|
  {
    if ServerSending(v.pc) then ServerSends(s, v, ServerPacket(s, cfg, v), rnd) else
    match v.pc
    case SSession => None
    case SFailed(_) => None
    case SVersionOut => Some(Turn(v.(pc := SVersionIn), 0, Some(Line(OwnVersion()))))
    case SVersionIn =>
      if ScanFrom(input, 0).Eof? then None
      else (match Received(input)
            case Ok(line) => Some(Turn(v.(pc := SKexinitOut, clientVersion := line), Consumed(input), None))
            case Err(e) => ServerFails(v, e))
    case _ =>
      match Receive(s, v.keys, input)
      case Waiting => None
      case Broken(e) => ServerFails(v, e)
      case Message(p, keys, used) =>
        var v' := ServerHandles(s, cfg, v, p);
        Some(Turn(v'.(keys := KeysAfter(s, v, v'.pc, keys)), used, None))
  }

  /** The keys after a receive: replaced when NEWKEYS has been accepted. */
  function KeysAfter(s: Suite, v: Server, next: ServerPc, keys: Keys): Keys {
    if v.pc.SNewkeysIn? && next.SServiceIn? then ServerInstall(s, keys, v.result) else keys
  }

  // ---------------------------------------------------------------- the two programs, point by point

  /** What the server says up to the installation of the keys, and where it is then. */
  lemma SaysInExchange(s: Suite, cfg: ServerConfig, v: Server)
    ensures v.pc.SKexinitOut? ==>
      ServerPacket(s, cfg, v) == Packet(KEXINIT, KexinitPayload(cfg.cookie)) && ServerNext(v) == SKexinitIn
    ensures v.pc.SReplyOut? ==>
      && ServerPacket(s, cfg, v) == Packet(KEX_ECDH_REPLY, ReplyPayload(s, cfg, v.result.hash))
      && ServerNext(v) == SNewkeysOut
    ensures v.pc.SNewkeysOut? ==> ServerPacket(s, cfg, v) == Packet(NEWKEYS, []) && ServerNext(v) == SNewkeysIn
  {
    hide KexinitPayload, ReplyPayload, AuthFailure, ServiceAccept;
  }

  lemma SaysAfterwards(s: Suite, cfg: ServerConfig, v: Server)
    ensures v.pc.SAcceptOut? ==> ServerPacket(s, cfg, v) == ServiceAccept(v.service)
    ensures v.pc.SAuthOut? ==> ServerPacket(s, cfg, v) == if v.granted then AUTH_SUCCESS else AuthFailure()
  {
    hide KexinitPayload, ReplyPayload, AuthFailure, ServiceAccept;
  }

  lemma HandlesKexinit(s: Suite, cfg: ServerConfig, v: Server, p: Packet)
    requires v.pc.SKexinitIn?
    ensures ServerHandles(s, cfg, v, p)
         == if p.msgType != KEXINIT then v.(pc := SFailed(Protocol("Expected KEXINIT")))
            else v.(pc := SEcdhIn, clientKexinit := p.payload)
  {
    hide ServerCompletes, TakeString, TakeUtf8, ParseAuthRequest;
  }

  lemma HandlesEcdh(s: Suite, cfg: ServerConfig, v: Server, p: Packet)
    requires v.pc.SEcdhIn?
    ensures var v' := ServerHandles(s, cfg, v, p);
            if p.msgType != KEX_ECDH_INIT then v' == v.(pc := SFailed(Protocol("Expected KEX_ECDH_INIT"))) else
            match TakeString(p.payload)
            case Err(e) => v' == v.(pc := SFailed(e))
            case Ok(pub) =>
              if |pub.value| != 32 then v' == v.(pc := SFailed(KeyExchange("Invalid client public key length")))
              else v' == v.(pc := SReplyOut, result := ServerCompletes(s, cfg, v, pub.value))
  {
    hide ServerCompletes, TakeString, TakeUtf8, ParseAuthRequest;
  }

  lemma HandlesNewkeys(s: Suite, cfg: ServerConfig, v: Server, p: Packet)
    requires v.pc.SNewkeysIn?
    ensures ServerHandles(s, cfg, v, p)
         == v.(pc := if p.msgType != NEWKEYS then SFailed(Protocol("Expected NEWKEYS")) else SServiceIn)
  {
    hide ServerCompletes, TakeString, TakeUtf8, ParseAuthRequest;
  }

  lemma HandlesService(s: Suite, cfg: ServerConfig, v: Server, p: Packet)
    requires v.pc.SServiceIn?
    ensures var v' := ServerHandles(s, cfg, v, p);
            if p.msgType != SERVICE_REQUEST then v' == v.(pc := SFailed(Protocol("Expected SERVICE_REQUEST"))) else
            match TakeUtf8(p.payload)
            case Err(e) => v' == v.(pc := SFailed(e))
            case Ok(name) =>
              && v' == v.(pc := SAcceptOut, service := name.value)
              && ServerPacket(s, cfg, v') == ServiceAccept(name.value) && ServerNext(v') == SAuthIn(0)
  {
    hide ServerCompletes, TakeString, TakeUtf8, ParseAuthRequest, KexinitPayload, ReplyPayload, AuthFailure,
      ServiceAccept;
  }

  lemma HandlesNothing(s: Suite, cfg: ServerConfig, v: Server, p: Packet)
    requires !ServerReceiving(v.pc)
    ensures ServerHandles(s, cfg, v, p) == v
  {
    hide ServerCompletes, TakeString, TakeUtf8, ParseAuthRequest;
  }

  lemma HandlesAuthRequest(s: Suite, cfg: ServerConfig, v: Server, p: Packet)
    requires v.pc.SAuthIn?
    ensures var v', k := ServerHandles(s, cfg, v, p), v.pc.refusals;
            if p.msgType != USERAUTH_REQUEST then v' == v.(pc := SFailed(Protocol("Expected USERAUTH_REQUEST"))) else
            match ParseAuthRequest(p.payload)
            case Err(e) => v' == v.(pc := SFailed(e))
            case Ok(req) =>
              && v' == v.(pc := SAuthOut(k), granted := cfg.db.Accepts(req))
              && ServerPacket(s, cfg, v') == (if v'.granted then AUTH_SUCCESS else AuthFailure())
  {
    hide ParseAuthRequest, AuthFailure, Db.Accepts, KexinitPayload, ReplyPayload, ServerCompletes, ServiceAccept,
      TakeString, TakeUtf8;
  }

  lemma ClientSays(s: Suite, cfg: ClientConfig, pc: ClientPc)
    ensures pc.CKexinitOut? ==>
      ClientPacket(s, cfg, pc) == Packet(KEXINIT, KexinitPayload(cfg.cookie)) && ClientNext(pc) == CEcdhOut
    ensures pc.CEcdhOut? ==>
      && ClientPacket(s, cfg, pc) == Packet(KEX_ECDH_INIT, EncString(s.publicKey(cfg.secret)))
      && ClientNext(pc) == CReplyIn
    ensures pc.CNewkeysOut? ==> ClientPacket(s, cfg, pc) == Packet(NEWKEYS, []) && ClientNext(pc) == CServiceOut
    ensures pc.CServiceOut? ==>
      ClientPacket(s, cfg, pc) == ServiceRequest(Ascii("ssh-userauth")) && ClientNext(pc) == CAcceptIn
    ensures pc.CAuthOut? ==>
      && ClientPacket(s, cfg, pc) == Packet(USERAUTH_REQUEST,
                                            PasswordPayload(cfg.user, Ascii("ssh-connection"), cfg.password))
      && ClientNext(pc) == CAuthIn
  {
    hide KexinitPayload, EncString, ServiceRequest, PasswordPayload, Ascii, ValidUtf8;
    match pc
    case CKexinitOut =>
    case CEcdhOut =>
    case CNewkeysOut =>
    case CServiceOut =>
    case CAuthOut =>
    case _ =>
  }

  lemma ClientRefuses(s: Suite, cfg: ClientConfig, c: Client, p: Packet)
    ensures var c' := ClientHandles(s, cfg, c, p);
            && (c.pc.CKexinitIn? && p.msgType != KEXINIT ==> c'.pc == CFailed(Protocol("Expected KEXINIT from server")))
            && (c.pc.CReplyIn? && p.msgType != KEX_ECDH_REPLY ==> c'.pc == CFailed(Protocol("Expected KEX_ECDH_REPLY")))
            && (c.pc.CReplyIn? && p.msgType == KEX_ECDH_REPLY && ParseReply(p.payload).Err? ==>
                  c'.pc == CFailed(ParseReply(p.payload).error))
            && (c.pc.CNewkeysIn? && p.msgType != NEWKEYS ==> c'.pc == CFailed(Protocol("Expected NEWKEYS")))
            && (c.pc.CAcceptIn? && p.msgType != SERVICE_ACCEPT ==>
                  c'.pc == CFailed(Protocol("Expected SERVICE_ACCEPT")))
            && (c.pc.CAuthIn? && p.msgType != USERAUTH_SUCCESS && p.msgType != USERAUTH_FAILURE ==>
                  c'.pc == CFailed(Protocol("Unexpected auth response")))
  {
    hide ParseReply, ClientCompletes;
  }

  lemma ClientHandlesPlain(s: Suite, cfg: ClientConfig, c: Client, p: Packet)
    ensures var c' := ClientHandles(s, cfg, c, p);
            && (c.pc.CKexinitIn? && p.msgType == KEXINIT ==> c' == c.(pc := CKexinitOut, serverKexinit := p.payload))
            && (c.pc.CNewkeysIn? && p.msgType == NEWKEYS ==> c' == c.(pc := CNewkeysOut))
            && (c.pc.CAcceptIn? && p.msgType == SERVICE_ACCEPT ==> c' == c.(pc := CAuthOut))
            && (c.pc.CAuthIn? && p.msgType == USERAUTH_SUCCESS ==> c' == c.(pc := CAuthenticated))
            && (c.pc.CAuthIn? && p.msgType == USERAUTH_FAILURE ==>
                  c' == c.(pc := CFailed(AuthFailed("Authentication rejected by server"))))
  {
    hide ParseReply, ClientCompletes;
  }

  lemma ClientHandlesReply(s: Suite, cfg: ClientConfig, c: Client, p: Packet)
    requires c.pc.CReplyIn? && p.msgType == KEX_ECDH_REPLY && ParseReply(p.payload).Ok?
    ensures var r := ParseReply(p.payload).value;
            ClientHandles(s, cfg, c, p) == c.(pc := CNewkeysIn, result := ClientCompletes(s, cfg, c, r.0, r.1))
  {
    hide ParseReply, ClientCompletes;
  }

  predicate ClientReceiving(pc: ClientPc) {
    pc.CKexinitIn? || pc.CReplyIn? || pc.CNewkeysIn? || pc.CAcceptIn? || pc.CAuthIn?
  }

  predicate ServerReceiving(pc: ServerPc) {
    pc.SKexinitIn? || pc.SEcdhIn? || pc.SNewkeysIn? || pc.SServiceIn? || pc.SAuthIn?
  }

  /** The client once it has sent a packet. */
  function ClientSent(s: Suite, c: Client, x: Sealed): Client {
    var keys := c.keys.WithSend(x.half);
    c.(pc := ClientNext(c.pc), keys := if c.pc.CNewkeysOut? then ClientInstall(s, keys, c.result) else keys)
  }

  lemma ClientSendTurn(s: Suite, cfg: ClientConfig, c: Client, p: Packet, input: bytes, rnd: bytes)
    requires ClientSending(c.pc) && p == ClientPacket(s, cfg, c.pc)
    ensures ClientStep(s, cfg, c, input, rnd) == match Seal(s, c.keys.SendHalf(), p, rnd)
              case Err(e) => Some(Turn(c.(pc := CFailed(e)), 0, None))
              case Ok(x) => Some(Turn(ClientSent(s, c, x), 0, Some(Framed(c.keys.SendHalf(), p, rnd))))
  {
    hide Seal, ClientPacket, ClientInstall, OwnVersion, Received, ClientHandles, Receive;
  }

  lemma ClientReceiveTurn(s: Suite, cfg: ClientConfig, c: Client, input: bytes, rnd: bytes)
    requires ClientReceiving(c.pc)
    ensures ClientStep(s, cfg, c, input, rnd) == match Receive(s, c.keys, input)
              case Waiting => None
              case Broken(e) => Some(Turn(c.(pc := CFailed(e)), 0, None))
              case Message(p, keys, used) => Some(Turn(ClientHandles(s, cfg, c, p).(keys := keys), used, None))
  {
    hide Receive, ClientHandles, OwnVersion, Received, ClientSends, ClientPacket, ScanFrom, Consumed;
    assert !ClientSending(c.pc);
  }

  lemma ClientGreetTurn(s: Suite, cfg: ClientConfig, c: Client, input: bytes, rnd: bytes)
    ensures c.pc.CVersionOut? ==>
      ClientStep(s, cfg, c, input, rnd) == Some(Turn(c.(pc := CVersionIn), 0, Some(Line(OwnVersion()))))
    ensures c.pc.CVersionIn? ==>
      ClientStep(s, cfg, c, input, rnd) ==
        if ScanFrom(input, 0).Eof? then None
        else match Received(input)
             case Ok(v) => Some(Turn(c.(pc := CKexinitIn, serverVersion := v), Consumed(input), None))
             case Err(e) => Some(Turn(c.(pc := CFailed(e)), 0, None))
  {
    hide ClientHandles, OwnVersion, ClientSends, ClientPacket, ScanFrom, Received, Consumed, Receive;
  }

  lemma ServerSendTurn(s: Suite, cfg: ServerConfig, v: Server, p: Packet, input: bytes, rnd: bytes)
    requires ServerSending(v.pc) && p == ServerPacket(s, cfg, v)
    ensures ServerStep(s, cfg, v, input, rnd) == match Seal(s, v.keys.SendHalf(), p, rnd)
              case Err(e) => Some(Turn(v.(pc := SFailed(e)), 0, None))
              case Ok(x) =>
                Some(Turn(v.(pc := ServerNext(v), keys := v.keys.WithSend(x.half)), 0,
                          Some(Framed(v.keys.SendHalf(), p, rnd))))
  {
    hide Seal, ServerPacket, ServerNext, OwnVersion, Received, ServerHandles, Receive;
  }

  lemma ServerReceiveTurn(s: Suite, cfg: ServerConfig, v: Server, input: bytes, rnd: bytes)
    requires ServerReceiving(v.pc)
    ensures ServerStep(s, cfg, v, input, rnd) == match Receive(s, v.keys, input)
              case Waiting => None
              case Broken(e) => Some(Turn(v.(pc := SFailed(e)), 0, None))
              case Message(p, keys, used) =>
                var v' := ServerHandles(s, cfg, v, p);
                Some(Turn(v'.(keys := KeysAfter(s, v, v'.pc, keys)), used, None))
  {
    hide Receive, ServerHandles, OwnVersion, Received, KeysAfter, ServerPacket, ServerSends, ScanFrom, Consumed;
    assert !ServerSending(v.pc);
  }

  lemma ServerGreetTurn(s: Suite, cfg: ServerConfig, v: Server, input: bytes, rnd: bytes)
    ensures v.pc.SVersionOut? ==>
      ServerStep(s, cfg, v, input, rnd) == Some(Turn(v.(pc := SVersionIn), 0, Some(Line(OwnVersion()))))
    ensures v.pc.SVersionIn? ==>
      ServerStep(s, cfg, v, input, rnd) ==
        if ScanFrom(input, 0).Eof? then None
        else match Received(input)
             case Ok(line) => Some(Turn(v.(pc := SKexinitOut, clientVersion := line), Consumed(input), None))
             case Err(e) => Some(Turn(v.(pc := SFailed(e)), 0, None))
  {
    hide ServerHandles, OwnVersion, ServerSends, ServerPacket, ScanFrom, Received, Consumed, Receive, KeysAfter;
  }

  // ---------------------------------------------------------------- one party on its own

  /** A party, what it has not read yet, what it has written, and how many packets that were. */
  datatype Spot<T> = Spot(party: T, input: bytes, output: bytes, sends: nat)

  /** The spot after a step, or the same one if the party has to wait. */
  function Advanced<T>(s: Suite, a: Spot<T>, step: Option<Turn<T>>): Spot<T>
    requires step.Some? ==> step.value.used <= |a.input|
  {
    match step
    case None => a
    case Some(t) =>
      Spot(t.state, a.input[t.used..], a.output + Flat(s, Items(t.wrote)),
           if t.wrote.Some? && t.wrote.value.Framed? then a.sends + 1 else a.sends)
  }

  /** The error of a receive on a stream that ends too early; at its very start it counts as closed. */
  predicate CutOff(s: Suite, keys: Keys, input: bytes, greeting: bool, e: SshError) {
    if greeting then ScanFrom(input, 0).Eof? && e == ConnectionClosed
    else
      var o := Open(s, keys.RecvHalf(), input).outcome;
      o.Starved? && Err(e) == Returned(o)
  }

  lemma FlatItems(s: Suite, item: Item)
    ensures Flat(s, []) == [] && Flat(s, [item]) == ItemBytes(s, item)
  {
    hide Seal;
    assert [item][1..] == [] && ItemBytes(s, item) + [] == ItemBytes(s, item);
  }

  // ---------------------------------------------------------------- the composition

  datatype World = World(
    client: Client, server: Server, c2s: bytes, s2c: bytes,
    cSent: seq<Item>, sSent: seq<Item>,   // history: everything each end has written
    cGot: nat, sGot: nat)                 // history: how many items each end has taken off its stream

  datatype Parties = Parties(s: Suite, client: ClientConfig, server: ServerConfig)

  const WORLD_START := World(CLIENT_START, SERVER_START, [], [], [], [], 0, 0)

  datatype Move = ClientMoves(rnd: bytes) | ServerMoves(rnd: bytes)

  function Items(o: Option<Item>): seq<Item> { if o.Some? then [o.value] else [] }

  function Flat(s: Suite, items: seq<Item>): bytes
    decreases |items|
  {
    if items == [] then [] else ItemBytes(s, items[0]) + Flat(s, items[1..])
  }

  function ClientMove(p: Parties, w: World, rnd: bytes): World {
    match ClientStep(p.s, p.client, w.client, w.s2c, rnd)
    case None => w
    case Some(t) =>
      w.(client := t.state, s2c := w.s2c[t.used..], c2s := w.c2s + Flat(p.s, Items(t.wrote)),
         cSent := w.cSent + Items(t.wrote), cGot := if t.used > 0 then w.cGot + 1 else w.cGot)
  }

  function ServerMove(p: Parties, w: World, rnd: bytes): World {
    match ServerStep(p.s, p.server, w.server, w.c2s, rnd)
    case None => w
    case Some(t) =>
      w.(server := t.state, c2s := w.c2s[t.used..], s2c := w.s2c + Flat(p.s, Items(t.wrote)),
         sSent := w.sSent + Items(t.wrote), sGot := if t.used > 0 then w.sGot + 1 else w.sGot)
  }

  function Moved(p: Parties, w: World, m: Move): World {
    match m
    case ClientMoves(rnd) => ClientMove(p, w, rnd)
    case ServerMoves(rnd) => ServerMove(p, w, rnd)
  }

  function RunMoves(p: Parties, w: World, moves: seq<Move>): World
    decreases |moves|
  {
    if moves == [] then w else RunMoves(p, Moved(p, w, moves[0]), moves[1..])
  }
}
