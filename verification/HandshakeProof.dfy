/**
 What holds in every reachable state of the composed client and server. Both programs are
 deterministic up to padding, so their states are described by how many items each end has
 written and taken: the k-th item of either end is a known packet under a known half.
 */
module HandshakeProof {
  import opened Bytes
  import opened Wire
  import opened Packets
  import opened Crypto
  import opened Transport
  import opened Version
  import opened Kex
  import opened Auth
  import opened Handshake

  // ---------------------------------------------------------------- the script

  function TheInputs(p: Parties): Inputs {
    Inputs(OwnVersion(), OwnVersion(), [KEXINIT] + KexinitPayload(p.client.cookie),
           [KEXINIT] + KexinitPayload(p.server.cookie), HostKey(),
           p.s.publicKey(p.client.secret), p.s.publicKey(p.server.secret))
  }

  function TheResult(p: Parties): KexResult { ServerResult(p.s, p.server.secret, TheInputs(p)) }

  predicate Granted(p: Parties) { p.server.db.VerifyPassword(p.client.user, p.client.password) }

  function AuthPayload(p: Parties): bytes {
    PasswordPayload(p.client.user, Ascii("ssh-connection"), p.client.password)
  }

  /** The request fits into one encrypted packet. */
  predicate Fits(p: Parties) { |AuthPayload(p)| <= 34986 }

  /** The client's packets, numbered from 1; number 0 is its version line. */
  function CMsg(p: Parties, i: nat): Packet {
    if i == 1 then Packet(KEXINIT, KexinitPayload(p.client.cookie))
    else if i == 2 then Packet(KEX_ECDH_INIT, EncString(p.s.publicKey(p.client.secret)))
    else if i == 3 then Packet(NEWKEYS, [])
    else if i == 4 then ServiceRequest(Ascii("ssh-userauth"))
    else Packet(USERAUTH_REQUEST, AuthPayload(p))
  }

  function SMsg(p: Parties, i: nat): Packet {
    if i == 1 then Packet(KEXINIT, KexinitPayload(p.server.cookie))
    else if i == 2 then Packet(KEX_ECDH_REPLY, ReplyPayload(p.s, p.server, TheResult(p).hash))
    else if i == 3 then Packet(NEWKEYS, [])
    else if i == 4 then ServiceAccept(Ascii("ssh-userauth"))
    else if Granted(p) then AUTH_SUCCESS else AuthFailure()
  }

  function PlainHalf(i: nat): Half
    requires i <= 4
  {
    Half(if i == 0 then 0 else i - 1, None, None)
  }

  /** The half the client's packet number `i` is sent with: plain for the first three, keyed from the fourth. */
  function CHalf(p: Parties, i: nat): Half {
    if i <= 3 then PlainHalf(i)
    else if i == 4 then
      Half(3, Some(ClientToServer(p.s, TheResult(p))), Some(SessionKey(p.s, TheResult(p), 'E', 32)))
    else CHalf(p, i - 1).Next(4 + PacketLength(|CMsg(p, i - 1).payload|, AES_BLOCK_SIZE))
  }

  function SHalf(p: Parties, i: nat): Half {
    if i <= 3 then PlainHalf(i)
    else if i == 4 then
      Half(3, Some(ServerToClient(p.s, TheResult(p))), Some(SessionKey(p.s, TheResult(p), 'F', 32)))
    else SHalf(p, i - 1).Next(4 + PacketLength(|SMsg(p, i - 1).payload|, AES_BLOCK_SIZE))
  }

  predicate IsCItem(p: Parties, i: nat, item: Item) {
    if i == 0 then item == Line(OwnVersion())
    else item.Framed? && item.half == CHalf(p, i) && item.packet == CMsg(p, i)
         && Seal(p.s, item.half, item.packet, item.rnd).Ok?
  }

  predicate IsSItem(p: Parties, i: nat, item: Item) {
    if i == 0 then item == Line(OwnVersion())
    else item.Framed? && item.half == SHalf(p, i) && item.packet == SMsg(p, i)
         && Seal(p.s, item.half, item.packet, item.rnd).Ok?
  }

  function KeysOf(send: Half, recv: Half, session: Option<bytes>): Keys {
    Keys(send.seqNo, recv.seqNo, session,
         if send.cipher.Some? && recv.cipher.Some?
         then Some(CipherPair(send.cipher.value, recv.cipher.value)) else None,
         send.mac, recv.mac)
  }

  /** The client's keys after writing `n` items and taking `g`; installed once NEWKEYS is written. */
  function ClientKeys(p: Parties, n: nat, g: nat): Keys {
    if n < 4 && g <= 4 then KeysOf(PlainHalf(n), PlainHalf(g), None)
    else KeysOf(CHalf(p, n), SHalf(p, g), Some(TheResult(p).hash))
  }

  /** The server's keys; installed once NEWKEYS is taken. */
  function ServerKeys(p: Parties, n: nat, g: nat): Keys {
    if g < 4 && n <= 4 then KeysOf(PlainHalf(n), PlainHalf(g), None)
    else KeysOf(SHalf(p, n), CHalf(p, g), Some(TheResult(p).hash))
  }

  const TOO_LARGE := PACKET_TOO_LARGE
  const REFUSED := AuthFailed("Authentication rejected by server")

  /** Items written and taken at each point of the client's program. */
  predicate ClientAt(p: Parties, pc: ClientPc, n: nat, g: nat) {
    match pc
    case CVersionOut => n == 0 && g == 0
    case CVersionIn => n == 1 && g == 0
    case CKexinitIn => n == 1 && g == 1
    case CKexinitOut => n == 1 && g == 2
    case CEcdhOut => n == 2 && g == 2
    case CReplyIn => n == 3 && g == 2
    case CNewkeysIn => n == 3 && g == 3
    case CNewkeysOut => n == 3 && g == 4
    case CServiceOut => n == 4 && g == 4
    case CAcceptIn => n == 5 && g == 4
    case CAuthOut => n == 5 && g == 5
    case CAuthIn => n == 6 && g == 5
    case CAuthenticated => n == 6 && g == 6 && Granted(p)
    case CFailed(e) =>
      || (n == 6 && g == 6 && e == REFUSED && !Granted(p))
      || (n == 5 && g == 5 && e == TOO_LARGE && !Fits(p))
  }

  predicate ServerAt(p: Parties, pc: ServerPc, n: nat, g: nat) {
    match pc
    case SVersionOut => n == 0 && g == 0
    case SVersionIn => n == 1 && g == 0
    case SKexinitOut => n == 1 && g == 1
    case SKexinitIn => n == 2 && g == 1
    case SEcdhIn => n == 2 && g == 2
    case SReplyOut => n == 2 && g == 3
    case SNewkeysOut => n == 3 && g == 3
    case SNewkeysIn => n == 4 && g == 3
    case SServiceIn => n == 4 && g == 4
    case SAcceptOut => n == 4 && g == 5
    case SAuthIn(k) => (k == 0 && n == 5 && g == 5) || (k == 1 && n == 6 && g == 6 && !Granted(p))
    case SAuthOut(k) => k == 0 && n == 5 && g == 6
    case SSession => n == 6 && g == 6 && Granted(p)
    case SFailed(_) => false
  }

  predicate ClientOk(p: Parties, c: Client, sent: seq<Item>, g: nat) {
    && ClientAt(p, c.pc, |sent|, g)
    && (forall i :: 0 <= i < |sent| ==> IsCItem(p, i, sent[i]))
    && c.keys == ClientKeys(p, |sent|, g)
    && (g >= 1 ==> c.serverVersion == OwnVersion())
    && (g >= 2 ==> c.serverKexinit == KexinitPayload(p.server.cookie))
    && (g >= 3 ==> c.result == TheResult(p))
  }

  predicate ServerOk(p: Parties, v: Server, sent: seq<Item>, g: nat) {
    && ServerAt(p, v.pc, |sent|, g)
    && (forall i :: 0 <= i < |sent| ==> IsSItem(p, i, sent[i]))
    && v.keys == ServerKeys(p, |sent|, g)
    && (g >= 1 ==> v.clientVersion == OwnVersion())
    && (g >= 2 ==> v.clientKexinit == KexinitPayload(p.client.cookie))
    && (g >= 3 ==> v.result == TheResult(p))
    && (g >= 5 ==> v.service == Ascii("ssh-userauth"))
    && (g >= 6 ==> v.granted == Granted(p))
  }

  predicate Inv(p: Parties, w: World) {
    && ClientOk(p, w.client, w.cSent, w.cGot)
    && ServerOk(p, w.server, w.sSent, w.sGot)
    && w.sGot <= |w.cSent| && w.cGot <= |w.sSent|
    && w.c2s == Flat(p.s, w.cSent[w.sGot..])
    && w.s2c == Flat(p.s, w.sSent[w.cGot..])
  }

  // ---------------------------------------------------------------- sending

  lemma MessageSizes(p: Parties, i: nat)
    requires 1 <= i
    ensures i <= 4 ==> |CMsg(p, i).payload| <= 200
    ensures |SMsg(p, i).payload| <= 200
  {
    hide EncString, Ascii, KexinitPayload, TheResult;
    KexinitLength(p.client.cookie);
    KexinitLength(p.server.cookie);
    var m := [Ascii("password"), Ascii("publickey")];
    assert m[1..] == [Ascii("publickey")];
    assert |Join(m)| == 18;
  }

  lemma {:induction false} FlatAppend(s: Suite, items: seq<Item>, last: Item)
    ensures Flat(s, items + [last]) == Flat(s, items) + ItemBytes(s, last)
    decreases |items|
  {
    hide ItemBytes;
    if items == [] {
      assert items + [last] == [last] && [last][1..] == [];
    } else {
      FlatAppend(s, items[1..], last);
      assert (items + [last])[1..] == items[1..] + [last];
    }
  }

  /** Writing an item extends the unread part of the stream. */
  lemma StreamGrows(s: Suite, sent: seq<Item>, got: nat, item: Item)
    requires got <= |sent|
    ensures Flat(s, (sent + [item])[got..]) == Flat(s, sent[got..]) + Flat(s, [item])
  {
    hide ItemBytes;
    FlatAppend(s, sent[got..], item);
    assert (sent + [item])[got..] == sent[got..] + [item];
    assert [item][1..] == [];
    assert Flat(s, [item]) == ItemBytes(s, item);
  }

  function SizeOf(h: Half, m: Packet): nat { 4 + PacketLength(|m.payload|, h.Block()) }

  /** A sending client moves from one entry of the script to the next; NEWKEYS switches to the keyed half. */
  lemma ClientKeysAfterSend(p: Parties, n: nat, g: nat)
    requires (1 <= n <= 3 && g <= 4) || (4 <= n && 4 <= g)
    ensures ClientKeys(p, n, g).SendHalf() == CHalf(p, n)
    ensures var keys := ClientKeys(p, n, g).WithSend(CHalf(p, n).Next(SizeOf(CHalf(p, n), CMsg(p, n))));
            && (n != 3 ==> keys == ClientKeys(p, n + 1, g))
            && (n == 3 && g == 4 ==> ClientInstall(p.s, keys, TheResult(p)) == ClientKeys(p, 4, 4))
  {
    hide PacketLength, CMsg, SMsg, TheResult, ClientToServer, ServerToClient, SessionKey;
    HalfShapes(p, n, g);
  }

  lemma {:induction false} CKeyed(p: Parties, i: nat)
    requires i >= 4
    ensures CHalf(p, i).cipher.Some? && CHalf(p, i).mac.Some?
    decreases i
  {
    hide PacketLength, CMsg, TheResult, ClientToServer, SessionKey;
    if i > 4 {
      CKeyed(p, i - 1);
    }
  }

  lemma {:induction false} SKeyed(p: Parties, i: nat)
    requires i >= 4
    ensures SHalf(p, i).cipher.Some? && SHalf(p, i).mac.Some?
    decreases i
  {
    hide PacketLength, SMsg, TheResult, ServerToClient, SessionKey;
    if i > 4 {
      SKeyed(p, i - 1);
    }
  }

  lemma HalfShapes(p: Parties, n: nat, g: nat)
    ensures n >= 4 ==> CHalf(p, n).cipher.Some? && SHalf(p, n).cipher.Some?
    ensures g >= 4 ==> CHalf(p, g).cipher.Some? && SHalf(p, g).cipher.Some?
  {
    if n >= 4 {
      CKeyed(p, n);
      SKeyed(p, n);
    }
    if g >= 4 {
      CKeyed(p, g);
      SKeyed(p, g);
    }
  }

  lemma ClientScript(p: Parties, pc: ClientPc, n: nat, g: nat)
    requires ClientAt(p, pc, n, g) && ClientSending(pc)
    ensures ClientPacket(p.s, p.client, pc) == CMsg(p, n)
    ensures ClientAt(p, ClientNext(pc), n + 1, g) && ClientRank(ClientNext(pc)) < ClientRank(pc)
    ensures (1 <= n <= 3 && g <= 4) || (4 <= n <= 5 && 4 <= g)
    ensures pc.CNewkeysOut? <==> n == 3
    ensures pc.CNewkeysOut? ==> g == 4
    ensures n == 5 && !Fits(p) ==> ClientAt(p, CFailed(TOO_LARGE), n, g)
    ensures ClientRank(CFailed(TOO_LARGE)) < ClientRank(pc)
  {
    hide KexinitPayload, EncString, Ascii, PasswordPayload;
  }

  lemma ClientSendStep(p: Parties, c: Client, sent: seq<Item>, g: nat, input: bytes, rnd: bytes)
    requires ClientOk(p, c, sent, g) && ClientSending(c.pc)
    ensures var t := ClientStep(p.s, p.client, c, input, rnd);
            && t.Some? && t.value.used == 0
            && ClientOk(p, t.value.state, sent + Items(t.value.wrote), g)
            && ClientRank(t.value.state.pc) < ClientRank(c.pc)
  {
    hide ClientStep, Seal, ClientPacket, CMsg, TheResult, PacketLength, ClientInstall, CHalf, ClientKeys,
      KexinitPayload,
      ClientAt, IsCItem, ClientNext, OwnVersion, ClientRank, ClientSending, Fits, Granted, SMsg, SHalf, Ascii;
    var n := |sent|;
    var h, m := CHalf(p, n), CMsg(p, n);
    ClientScript(p, c.pc, n, g);
    ClientKeysAfterSend(p, n, g);
    SealGoes(p.s, h, m, rnd);
    ClientFitting(p, n);
    ClientSendTurn(p.s, p.client, c, m, input, rnd);
    if Seal(p.s, h, m, rnd).Ok? {
      CItemsExtend(p, sent, Framed(h, m, rnd));
    } else {
      assert sent + [] == sent;
    }
  }

  lemma CItemsExtend(p: Parties, sent: seq<Item>, item: Item)
    requires forall i :: 0 <= i < |sent| ==> IsCItem(p, i, sent[i])
    requires item.Framed? && item.half == CHalf(p, |sent|) && item.packet == CMsg(p, |sent|) && |sent| > 0
    requires Seal(p.s, item.half, item.packet, item.rnd).Ok?
    ensures forall i :: 0 <= i < |sent + [item]| ==> IsCItem(p, i, (sent + [item])[i])
  {
    hide Seal, CHalf, CMsg;
    assert IsCItem(p, |sent|, item);
  }

  /** Only the authentication request can be too large to send. */
  lemma ClientFitting(p: Parties, n: nat)
    requires 1 <= n <= 5
    ensures n <= 4 || Fits(p) ==> |CMsg(p, n).payload| <= (if CHalf(p, n).cipher.Some? then 34986 else 34994)
    ensures n == 5 && !Fits(p) ==> CHalf(p, n).cipher.Some? && |CMsg(p, n).payload| > 34986
  {
    hide AuthPayload, KexinitPayload, EncString, Ascii, TheResult, SessionKey;
    MessageSizes(p, n);
    HalfShapes(p, n, n);
  }

  // ---------------------------------------------------------------- receiving

  /** A receiver whose half is the one an item was sent with takes exactly that item off the stream. */
  lemma ReceiveFront(s: Suite, keys: Keys, item: Item, rest: bytes)
    requires item.Framed? && item.half == keys.RecvHalf() && Seal(s, item.half, item.packet, item.rnd).Ok?
    ensures var next := item.half.Next(SizeOf(item.half, item.packet));
            Receive(s, keys, ItemBytes(s, item) + rest)
              == Message(item.packet, keys.WithRecv(next), |ItemBytes(s, item)|)
    ensures |ItemBytes(s, item)| > 0
  {
    hide Open, Frame;
    OpenInvertsSeal(s, item.half, item.packet, item.rnd, rest);
    SealGoes(s, item.half, item.packet, item.rnd);
    SealedPlaintext(item.half, item.packet, item.rnd);
  }

  lemma ReceiveNothing(s: Suite, keys: Keys)
    ensures Receive(s, keys, []) == Waiting
  {
  }

  lemma ClientKeysAfterRecv(p: Parties, n: nat, g: nat)
    requires (n <= 3 && 1 <= g <= 3) || (4 <= n && 4 <= g)
    ensures ClientKeys(p, n, g).RecvHalf() == SHalf(p, g)
    ensures ClientKeys(p, n, g).WithRecv(SHalf(p, g).Next(SizeOf(SHalf(p, g), SMsg(p, g)))) == ClientKeys(p, n, g + 1)
  {
    hide PacketLength, CMsg, SMsg, TheResult, ClientToServer, ServerToClient, SessionKey;
    HalfShapes(p, n, g);
  }

  lemma ReplyParses(p: Parties, hash: bytes)
    ensures ParseReply(ReplyPayload(p.s, p.server, hash)) == Ok((HostKey(), p.s.publicKey(p.server.secret)))
  {
    hide EncString, TakeString, Ascii;
    var pub, sig := p.s.publicKey(p.server.secret), p.s.hmac(Ascii("host-key-secret"), hash);
    var b := ReplyPayload(p.s, p.server, hash);
    assert b == EncString(HostKey()) + (EncString(pub) + EncString(sig));
    TakeStringInverts(b, HostKey(), EncString(pub) + EncString(sig));
    TakeStringInverts(EncString(pub) + EncString(sig), pub, EncString(sig));
    assert EncString(sig) == EncString(sig) + [];
    TakeStringInverts(EncString(sig), sig, []);
  }

  lemma ClientCompletion(p: Parties, c: Client)
    requires p.s.Commutes()
    requires c.serverVersion == OwnVersion() && c.serverKexinit == KexinitPayload(p.server.cookie)
    ensures ClientCompletes(p.s, p.client, c, HostKey(), p.s.publicKey(p.server.secret)) == TheResult(p)
  {
    hide KexinitPayload, OwnVersion, Ascii, ExchangeHash;
    ResultsAgree(p.s, p.client.secret, p.server.secret, TheInputs(p));
  }

  /** The packet the client waits for is the one the server's script has at that place, so no check fails. */
  lemma ClientHandling(p: Parties, c: Client, n: nat, g: nat)
    requires p.s.Commutes() && ClientAt(p, c.pc, n, g) && ClientReceiving(c.pc)
    requires g >= 1 ==> c.serverVersion == OwnVersion()
    requires g >= 2 ==> c.serverKexinit == KexinitPayload(p.server.cookie)
    requires g >= 3 ==> c.result == TheResult(p)
    ensures var c' := ClientHandles(p.s, p.client, c, SMsg(p, g));
            && ClientAt(p, c'.pc, n, g + 1) && ClientRank(c'.pc) < ClientRank(c.pc)
            && c'.serverVersion == OwnVersion()
            && c'.serverKexinit == KexinitPayload(p.server.cookie)
            && (g + 1 >= 3 ==> c'.result == TheResult(p))
    ensures (n <= 3 && 1 <= g <= 3) || (4 <= n && 4 <= g)
  {
    hide KexinitPayload, OwnVersion, TheResult, SMsg, Granted, Fits, ClientAt, ClientRank, ClientReceiving,
      ClientHandles;
    ClientTakes(p, c.pc, n, g);
    ClientHandled(p, c, g);
  }

  lemma ClientHandled(p: Parties, c: Client, g: nat)
    requires p.s.Commutes() && 1 <= g <= 5
    requires g == 2 ==> c.serverVersion == OwnVersion() && c.serverKexinit == KexinitPayload(p.server.cookie)
    ensures var c' := ClientHandles(p.s, p.client, c, SMsg(p, g));
            && (g == 1 && c.pc.CKexinitIn? ==>
                  c' == c.(pc := CKexinitOut, serverKexinit := KexinitPayload(p.server.cookie)))
            && (g == 2 && c.pc.CReplyIn? ==> c' == c.(pc := CNewkeysIn, result := TheResult(p)))
            && (g == 3 && c.pc.CNewkeysIn? ==> c' == c.(pc := CNewkeysOut))
            && (g == 4 && c.pc.CAcceptIn? ==> c' == c.(pc := CAuthOut))
            && (g == 5 && c.pc.CAuthIn? ==> c' == c.(pc := if Granted(p) then CAuthenticated else CFailed(REFUSED)))
  {
    hide ClientHandles, KexinitPayload, OwnVersion, Ascii, ReplyPayload, ParseReply, ClientCompletes, TheResult, SMsg,
      Granted;
    SMsgTypes(p);
    if g == 2 && c.pc.CReplyIn? {
      ReplyParses(p, TheResult(p).hash);
      ClientCompletion(p, c);
      ClientHandlesReply(p.s, p.client, c, SMsg(p, 2));
    } else {
      ClientHandlesPlain(p.s, p.client, c, SMsg(p, g));
    }
  }

  lemma ClientTakes(p: Parties, pc: ClientPc, n: nat, g: nat)
    requires ClientAt(p, pc, n, g) && ClientReceiving(pc)
    ensures var next := [CKexinitOut, CNewkeysIn, CNewkeysOut, CAuthOut,
                         if Granted(p) then CAuthenticated else CFailed(REFUSED)];
            && 1 <= g <= 5 && ClientAt(p, next[g - 1], n, g + 1) && ClientRank(next[g - 1]) < ClientRank(pc)
    ensures pc == [CKexinitIn, CReplyIn, CNewkeysIn, CAcceptIn, CAuthIn][g - 1]
    ensures n == [1, 3, 3, 5, 6][g - 1]
  {
    hide Granted, Fits;
  }

  lemma SMsgTypes(p: Parties)
    ensures SMsg(p, 1) == Packet(KEXINIT, KexinitPayload(p.server.cookie))
    ensures SMsg(p, 2) == Packet(KEX_ECDH_REPLY, ReplyPayload(p.s, p.server, TheResult(p).hash))
    ensures SMsg(p, 3).msgType == NEWKEYS && SMsg(p, 4).msgType == SERVICE_ACCEPT
    ensures SMsg(p, 5).msgType == if Granted(p) then USERAUTH_SUCCESS else USERAUTH_FAILURE
  {
    hide KexinitPayload, EncString, Ascii, ReplyPayload, TheResult, EncNameList;
  }

  lemma ClientRecvStep(p: Parties, c: Client, sent: seq<Item>, g: nat, item: Item, rest: bytes, rnd: bytes)
    requires p.s.Commutes() && ClientOk(p, c, sent, g) && ClientReceiving(c.pc) && IsSItem(p, g, item)
    ensures var t := ClientStep(p.s, p.client, c, ItemBytes(p.s, item) + rest, rnd);
            && t.Some? && t.value.used == |ItemBytes(p.s, item)| > 0 && t.value.wrote == None
            && ClientOk(p, t.value.state, sent, g + 1)
            && ClientRank(t.value.state.pc) < ClientRank(c.pc)
  {
    hide ClientStep, Seal, ItemBytes, Receive, SMsg, SHalf, ClientKeys, ClientAt, ClientRank, ClientReceiving,
      ClientHandles, IsCItem, KexinitPayload, OwnVersion, TheResult, PacketLength;
    ClientHandling(p, c, |sent|, g);
    ClientKeysAfterRecv(p, |sent|, g);
    ReceiveFront(p.s, c.keys, item, rest);
    ClientReceiveTurn(p.s, p.client, c, ItemBytes(p.s, item) + rest, rnd);
  }

  lemma ClientVersionStep(p: Parties, c: Client, sent: seq<Item>, rest: bytes, rnd: bytes)
    requires ClientOk(p, c, sent, 0) && c.pc.CVersionIn?
    ensures var line := ItemBytes(p.s, Line(OwnVersion()));
            var t := ClientStep(p.s, p.client, c, line + rest, rnd);
            && t.Some? && t.value.used == |line| > 0 && t.value.wrote == None
            && ClientOk(p, t.value.state, sent, 1)
            && ClientRank(t.value.state.pc) < ClientRank(c.pc)
  {
    hide Seal, IsCItem, Receive, ClientHandles, ClientSends, ClientPacket, KexinitPayload, TheResult, Granted, CMsg,
      SMsg, SessionKey;
    OwnVersionSurvives(rest);
    hide OwnVersion, ScanFrom, Received, Consumed;
  }

  lemma OwnVersionSurvives(rest: bytes)
    ensures var s := OwnVersion() + CRLF + rest;
            && Received(s) == Ok(OwnVersion()) && Consumed(s) == |OwnVersion()| + 2 && !ScanFrom(s, 0).Eof?
  {
    hide Ascii;
    VersionSurvivesIff(OwnVersion(), rest);
  }

  function ClientRank(pc: ClientPc): nat {
    match pc
    case CVersionOut => 12
    case CVersionIn => 11
    case CKexinitIn => 10
    case CKexinitOut => 9
    case CEcdhOut => 8
    case CReplyIn => 7
    case CNewkeysIn => 6
    case CNewkeysOut => 5
    case CServiceOut => 4
    case CAcceptIn => 3
    case CAuthOut => 2
    case CAuthIn => 1
    case CAuthenticated => 0
    case CFailed(_) => 0
  }

  // ---------------------------------------------------------------- the server's half

  function ServerRank(pc: ServerPc): nat {
    match pc
    case SVersionOut => 12
    case SVersionIn => 11
    case SKexinitOut => 10
    case SKexinitIn => 9
    case SEcdhIn => 8
    case SReplyOut => 7
    case SNewkeysOut => 6
    case SNewkeysIn => 5
    case SServiceIn => 4
    case SAcceptOut => 3
    case SAuthIn(k) => if k == 0 then 2 else 0
    case SAuthOut(_) => 1
    case SSession => 0
    case SFailed(_) => 0
  }

  lemma ServerKeysAfterSend(p: Parties, n: nat, g: nat)
    requires (1 <= n <= 3 && g <= 3) || (4 <= n && 4 <= g)
    ensures ServerKeys(p, n, g).SendHalf() == SHalf(p, n)
    ensures ServerKeys(p, n, g).WithSend(SHalf(p, n).Next(SizeOf(SHalf(p, n), SMsg(p, n)))) == ServerKeys(p, n + 1, g)
  {
    hide PacketLength, CMsg, SMsg, TheResult, ClientToServer, ServerToClient, SessionKey;
    HalfShapes(p, n, g);
  }

  /** Taking NEWKEYS switches the server to its keyed halves. */
  lemma ServerKeysAfterRecv(p: Parties, n: nat, g: nat)
    requires (n <= 4 && 1 <= g <= 3) || (4 <= n && 4 <= g)
    ensures ServerKeys(p, n, g).RecvHalf() == CHalf(p, g)
    ensures var keys := ServerKeys(p, n, g).WithRecv(CHalf(p, g).Next(SizeOf(CHalf(p, g), CMsg(p, g))));
            && (g != 3 ==> keys == ServerKeys(p, n, g + 1))
            && (g == 3 && n == 4 ==> ServerInstall(p.s, keys, TheResult(p)) == ServerKeys(p, 4, 4))
  {
    hide PacketLength, CMsg, SMsg, TheResult, ClientToServer, ServerToClient, SessionKey;
    HalfShapes(p, n, g);
  }

  lemma ServerScript(p: Parties, v: Server, n: nat, g: nat)
    requires ServerAt(p, v.pc, n, g) && ServerSending(v.pc)
    requires g >= 3 ==> v.result == TheResult(p)
    requires g >= 5 ==> v.service == Ascii("ssh-userauth")
    requires g >= 6 ==> v.granted == Granted(p)
    ensures ServerPacket(p.s, p.server, v) == SMsg(p, n)
    ensures ServerAt(p, ServerNext(v), n + 1, g)
    ensures (1 <= n <= 3 && g <= 3) || (4 <= n <= 5 && 4 <= g)
    ensures ServerRank(ServerNext(v)) < ServerRank(v.pc)
  {
    hide ServerPacket, SMsg, TheResult, Granted, Ascii;
    ServerSays(p, v, n);
  }

  lemma ServerSays(p: Parties, v: Server, n: nat)
    requires ServerSending(v.pc) && 1 <= n <= 5
    requires (n == 1 <==> v.pc.SKexinitOut?) && (n == 2 <==> v.pc.SReplyOut?) && (n == 3 <==> v.pc.SNewkeysOut?)
    requires (n == 4 <==> v.pc.SAcceptOut?) && (n == 5 <==> v.pc.SAuthOut?)
    requires n >= 2 ==> v.result == TheResult(p)
    requires n >= 4 ==> v.service == Ascii("ssh-userauth")
    requires n >= 5 ==> v.granted == Granted(p)
    ensures ServerPacket(p.s, p.server, v) == SMsg(p, n)
  {
    hide KexinitPayload, ReplyPayload, TheResult, AuthFailure, ServiceAccept, Granted, Ascii, ServerPacket;
    if n <= 3 {
      SaysInExchange(p.s, p.server, v);
    } else {
      SaysAfterwards(p.s, p.server, v);
    }
  }

  lemma SItemsExtend(p: Parties, sent: seq<Item>, item: Item)
    requires forall i :: 0 <= i < |sent| ==> IsSItem(p, i, sent[i])
    requires item.Framed? && item.half == SHalf(p, |sent|) && item.packet == SMsg(p, |sent|) && |sent| > 0
    requires Seal(p.s, item.half, item.packet, item.rnd).Ok?
    ensures forall i :: 0 <= i < |sent + [item]| ==> IsSItem(p, i, (sent + [item])[i])
  {
    hide Seal, SHalf, SMsg;
    assert IsSItem(p, |sent|, item);
  }

  lemma ServerSendStep(p: Parties, v: Server, sent: seq<Item>, g: nat, input: bytes, rnd: bytes)
    requires ServerOk(p, v, sent, g) && ServerSending(v.pc)
    ensures var t := ServerStep(p.s, p.server, v, input, rnd);
            && t.Some? && t.value.used == 0
            && ServerOk(p, t.value.state, sent + Items(t.value.wrote), g)
            && ServerRank(t.value.state.pc) < ServerRank(v.pc)
  {
    hide ServerStep, Seal, ServerPacket, SMsg, TheResult, PacketLength, SHalf, ServerKeys, KexinitPayload,
      ServerAt, IsSItem, ServerNext, OwnVersion, ServerRank, ServerSending, Granted, Ascii;
    var n := |sent|;
    var h, m := SHalf(p, n), SMsg(p, n);
    ServerScript(p, v, n, g);
    ServerKeysAfterSend(p, n, g);
    SealGoes(p.s, h, m, rnd);
    MessageSizes(p, n);
    ServerSendTurn(p.s, p.server, v, m, input, rnd);
    SItemsExtend(p, sent, Framed(h, m, rnd));
  }

  lemma CMsgContents(p: Parties)
    ensures CMsg(p, 1) == Packet(KEXINIT, KexinitPayload(p.client.cookie))
    ensures CMsg(p, 2) == Packet(KEX_ECDH_INIT, EncString(p.s.publicKey(p.client.secret)))
    ensures CMsg(p, 3).msgType == NEWKEYS
    ensures CMsg(p, 4) == ServiceRequest(Ascii("ssh-userauth"))
    ensures CMsg(p, 5) == Packet(USERAUTH_REQUEST, AuthPayload(p))
  {
    hide KexinitPayload, EncString, Ascii, AuthPayload;
  }

  lemma ClientFieldsParse(p: Parties)
    ensures TakeString(EncString(p.s.publicKey(p.client.secret))) == Ok(Parsed(p.s.publicKey(p.client.secret), []))
    ensures TakeUtf8(EncString(Ascii("ssh-userauth"))) == Ok(Parsed(Ascii("ssh-userauth"), []))
  {
    hide EncString, TakeString, TakeUtf8, Ascii;
    var pub, name := p.s.publicKey(p.client.secret), Ascii("ssh-userauth");
    assert EncString(pub) == EncString(pub) + [] && EncString(name) == EncString(name) + [];
    TakeStringInverts(EncString(pub), pub, []);
    TakeUtf8Inverts(EncString(name), name, []);
  }

  lemma AuthParses(p: Parties)
    requires Fits(p)
    ensures ParseAuthRequest(AuthPayload(p)).Ok?
    ensures p.server.db.Accepts(ParseAuthRequest(AuthPayload(p)).value) <==> Granted(p)
  {
    hide EncString, ParseAuthRequest, Ascii;
    PasswordRoundTrip(p.client.user, Ascii("ssh-connection"), p.client.password, []);
    assert AuthPayload(p) + [] == AuthPayload(p);
  }

  lemma ServerHandling(p: Parties, v: Server, n: nat, g: nat)
    requires ServerAt(p, v.pc, n, g) && ServerReceiving(v.pc) && g <= 5 && (g == 5 ==> Fits(p))
    requires g >= 1 ==> v.clientVersion == OwnVersion()
    requires g >= 2 ==> v.clientKexinit == KexinitPayload(p.client.cookie)
    requires g >= 3 ==> v.result == TheResult(p)
    requires g >= 5 ==> v.service == Ascii("ssh-userauth")
    ensures var v' := ServerHandles(p.s, p.server, v, CMsg(p, g));
            && ServerAt(p, v'.pc, n, g + 1)
            && (v.pc.SNewkeysIn? && v'.pc.SServiceIn? <==> g == 3)
            && v'.clientVersion == OwnVersion()
            && v'.clientKexinit == KexinitPayload(p.client.cookie)
            && (g + 1 >= 3 ==> v'.result == TheResult(p))
            && (g + 1 >= 5 ==> v'.service == Ascii("ssh-userauth"))
            && (g + 1 >= 6 ==> v'.granted == Granted(p))
            && ServerRank(v'.pc) < ServerRank(v.pc)
    ensures (n <= 4 && 1 <= g <= 3) || (4 <= n && 4 <= g)
    ensures g == 3 ==> n == 4
  {
    hide KexinitPayload, OwnVersion, Ascii, TheResult, CMsg, Granted, Fits, ServerHandles, ServerAt, ServerRank,
      ServerReceiving;
    ServerTakes(p, v.pc, n, g);
    ServerHandled(p, v, g);
  }

  lemma ServerTakes(p: Parties, pc: ServerPc, n: nat, g: nat)
    requires ServerAt(p, pc, n, g) && ServerReceiving(pc) && g <= 5
    ensures var next := [SEcdhIn, SReplyOut, SServiceIn, SAcceptOut, SAuthOut(0)];
            && 1 <= g && ServerAt(p, next[g - 1], n, g + 1) && ServerRank(next[g - 1]) < ServerRank(pc)
    ensures pc == [SKexinitIn, SEcdhIn, SNewkeysIn, SServiceIn, SAuthIn(0)][g - 1]
    ensures n == [2, 2, 4, 4, 5][g - 1]
  {
    hide Granted;
  }

  /** The packet the server waits for is the one the client's script has at that place. */
  lemma ServerHandled(p: Parties, v: Server, g: nat)
    requires 1 <= g <= 5 && (g == 5 ==> Fits(p))
    requires g == 2 ==> v.clientVersion == OwnVersion() && v.clientKexinit == KexinitPayload(p.client.cookie)
    ensures var v' := ServerHandles(p.s, p.server, v, CMsg(p, g));
            && (g == 1 && v.pc.SKexinitIn? ==>
                  v' == v.(pc := SEcdhIn, clientKexinit := KexinitPayload(p.client.cookie)))
            && (g == 2 && v.pc.SEcdhIn? ==> v' == v.(pc := SReplyOut, result := TheResult(p)))
            && (g == 3 && v.pc.SNewkeysIn? ==> v' == v.(pc := SServiceIn))
            && (g == 4 && v.pc.SServiceIn? ==> v' == v.(pc := SAcceptOut, service := Ascii("ssh-userauth")))
            && (g == 5 && v.pc.SAuthIn? ==> v' == v.(pc := SAuthOut(v.pc.refusals), granted := Granted(p)))
  {
    hide ServerHandles, KexinitPayload, OwnVersion, Ascii, ServerCompletes, TheResult, CMsg, Granted, EncString,
      TakeString, TakeUtf8, ParseAuthRequest, AuthPayload, Fits, ServerPacket, ServerNext, AuthFailure, ServiceAccept;
    CMsgContents(p);
    var m := CMsg(p, g);
    if g == 1 && v.pc.SKexinitIn? {
      HandlesKexinit(p.s, p.server, v, m);
    } else if g == 2 && v.pc.SEcdhIn? {
      ClientFieldsParse(p);
      ServerCompletion(p, v);
      HandlesEcdh(p.s, p.server, v, m);
    } else if g == 3 && v.pc.SNewkeysIn? {
      HandlesNewkeys(p.s, p.server, v, m);
    } else if g == 4 && v.pc.SServiceIn? {
      ClientFieldsParse(p);
      HandlesService(p.s, p.server, v, m);
    } else if g == 5 && v.pc.SAuthIn? {
      AuthParses(p);
      HandlesAuthRequest(p.s, p.server, v, m);
    }
  }

  lemma ServerCompletion(p: Parties, v: Server)
    requires v.clientVersion == OwnVersion() && v.clientKexinit == KexinitPayload(p.client.cookie)
    ensures ServerCompletes(p.s, p.server, v, p.s.publicKey(p.client.secret)) == TheResult(p)
  {
    hide KexinitPayload, OwnVersion, Ascii, ExchangeHash;
  }

  lemma ServerRecvStep(p: Parties, v: Server, sent: seq<Item>, g: nat, item: Item, rest: bytes, rnd: bytes)
    requires ServerOk(p, v, sent, g) && ServerReceiving(v.pc) && IsCItem(p, g, item) && g <= 5
    ensures var t := ServerStep(p.s, p.server, v, ItemBytes(p.s, item) + rest, rnd);
            && t.Some? && t.value.used == |ItemBytes(p.s, item)| > 0 && t.value.wrote == None
            && ServerOk(p, t.value.state, sent, g + 1)
            && ServerRank(t.value.state.pc) < ServerRank(v.pc)
  {
    hide ServerStep, Seal, ItemBytes, Receive, CMsg, CHalf, ServerKeys, ServerAt, ServerRank, ServerReceiving,
      ServerHandles, IsSItem, IsCItem, KexinitPayload, OwnVersion, TheResult, PacketLength, Ascii, Granted,
      ServerInstall, Fits, SMsg, SHalf;
    ServerRecvFacts(p, v, |sent|, g, item);
    ServerHandling(p, v, |sent|, g);
    ServerKeysAfterRecv(p, |sent|, g);
    ReceiveFront(p.s, v.keys, item, rest);
    ServerReceiveTurn(p.s, p.server, v, ItemBytes(p.s, item) + rest, rnd);
  }

  lemma ServerRecvFacts(p: Parties, v: Server, n: nat, g: nat, item: Item)
    requires ServerAt(p, v.pc, n, g) && ServerReceiving(v.pc) && v.keys == ServerKeys(p, n, g) && IsCItem(p, g, item)
    requires g <= 5
    ensures item.Framed? && item.half == CHalf(p, g) && item.packet == CMsg(p, g)
    ensures Seal(p.s, item.half, item.packet, item.rnd).Ok?
    ensures g == 5 ==> Fits(p)
  {
    hide Seal, KexinitPayload, EncString, Ascii, AuthPayload, TheResult, SessionKey, ServerToClient, ClientToServer,
      PacketLength;
    SealGoes(p.s, item.half, item.packet, item.rnd);
    if g == 5 {
      ClientFitting(p, 5);
    }
  }

  lemma ServerVersionStep(p: Parties, v: Server, sent: seq<Item>, rest: bytes, rnd: bytes)
    requires ServerOk(p, v, sent, 0) && v.pc.SVersionIn?
    ensures var line := ItemBytes(p.s, Line(OwnVersion()));
            var t := ServerStep(p.s, p.server, v, line + rest, rnd);
            && t.Some? && t.value.used == |line| > 0 && t.value.wrote == None
            && ServerOk(p, t.value.state, sent, 1)
            && ServerRank(t.value.state.pc) < ServerRank(v.pc)
  {
    hide Seal, IsSItem, Receive, ServerHandles, ServerSends, ServerPacket, KeysAfter, KexinitPayload,
      TheResult, Granted, CMsg, SMsg, SessionKey;
    OwnVersionSurvives(rest);
    hide OwnVersion, ScanFrom, Received, Consumed;
  }
}
