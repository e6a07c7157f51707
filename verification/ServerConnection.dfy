/**
 The server's routine itself, with its reader, writer, keys, channels and SFTP handler.
 `log` records what it does; what the routine keeps about it is proved phase by phase.
 */
module ServerConnection {
  import opened Bytes
  import opened Wire
  import opened Packets
  import Crypto
  import opened Transport
  import Version
  import Kex
  import opened Auth
  import opened Channels
  import opened Messages
  import SftpCodec
  import opened SftpHandler
  import opened H = Handshake
  import opened Session
  import opened Server
  import opened Traffic
  import opened Conduct
  import Accounting

  class Connection {
    const s: Crypto.Suite
    const db: Db
    const env: Env
    const reader: ByteStream
    const writer: ByteStream
    const keys: SessionKeys
    const channels: ChannelManager
    const sftp: SftpServer
    const disk: FileSystem
    var sends: nat
    var turns: nat
    ghost const given: bytes  // all that the client sends
    ghost var log: seq<Event>

    ghost function Config(): ServerConfig { ServerConfig(env.cookie, env.secret, db) }

    ghost function Now(): Link reads this, reader, writer, keys, keys.Repr() {
      Link(keys.Value(), reader.data, writer.data, sends)
    }

    /** The log accounts for everything read and written so far. */
    ghost predicate Traced() reads this, reader, writer, keys, keys.Repr() {
      && reader != writer && keys.Valid()
      && Replay(s, env, given, log) == Some(Now())
    }

    ghost predicate Secure() reads keys {
      keys.ciphers.Some? && keys.sendMacKey.Some? && keys.recvMacKey.Some?
    }

    ghost function Watched(): Option<Monitor> reads this { Watch(db, log) }

    /** The log is accounted for, nothing in it is objectionable, and it is as far as the two flags say. */
    ghost predicate Clean(keyed: bool, authed: bool) reads this, reader, writer, keys, keys.Repr(), channels {
      && Traced() && AllOpen(channels.Value())
      && Watched().Some? && Watched().value.keyed == keyed && Watched().value.authed == authed
      && (keyed ==> Secure())
    }

    ghost function SftpState(): State reads sftp, disk { State(sftp.Value(), disk.files) }

    constructor (s: Crypto.Suite, db: Db, env: Env, input: bytes, root: bytes, files: Disk)
      ensures Shaking(SHAKE_START) && log == [] && turns == 0
      ensures channels.Value() == EMPTY_MANAGER && SftpState() == State(Handler(0, map[], map[], root), files)
      ensures fresh(reader) && fresh(writer) && fresh(keys.Repr()) && fresh(channels) && fresh(sftp) && fresh(disk)
      ensures this.s == s && this.db == db && this.env == env && given == input
    {
      hide Watch, Replay, Steered, AllOpen;
      this.s, this.db, this.env, given := s, db, env, input;
      var rd := new ByteStream();
      rd.WriteAll(input);
      reader := rd;
      writer := new ByteStream();
      keys := new SessionKeys();
      channels := new ChannelManager();
      sftp := new SftpServer(root);
      disk := new FileSystem(files);
      sends, turns, log := 0, 0, [];
      new;
      NothingYet(s, db, env, input);
      assert [] + input == input;
    }

    ghost method Record(e: Event)
      modifies this`log
      ensures log == old(log) + [e]
      ensures old(Watched()).Some? ==> Watched() == Observe(db, old(Watched()).value, e)
      ensures Replay(s, env, given, log) == match old(Replay(s, env, given, log))
                                            case None => None case Some(k) => Transfer(s, env, k, e)
    {
      WatchAppend(db, log, e);
      ReplayAppend(s, env, given, log, e);
      log := log + [e];
    }

    method Send(p: Packet) returns (r: Result<()>)
      requires Traced()
      modifies this`sends, this`log, writer, keys, keys.Repr()
      ensures Traced() && keys.Repr() == old(keys.Repr()) && Secure() == old(Secure())
      ensures log == if r.Ok? then old(log) + [Sent(p, Secure())] else old(log)
      ensures r.Ok? && old(Watched()).Some? ==> Watched() == Observe(db, old(Watched()).value, Sent(p, Secure()))
      ensures Secure() ==> (r.Ok? <==> FitsPacket(p))
      ensures r.Err? ==> r.error == PACKET_TOO_LARGE && !FitsPacket(p)
    {
      hide Seal, Observe, Watch, Replay, Transfer;
      ghost var was := Now();
      SealGoes(s, was.keys.SendHalf(), p, env.padding(sends));
      r := SendPacket(s, writer, p, keys, env.padding(sends));
      if r.Ok? {
        Sending(s, env, was, p, Seal(s, was.keys.SendHalf(), p, env.padding(sends)).value);
        sends := sends + 1;
        Record(Sent(p, Secure()));
      }
    }

    method Recv() returns (r: Result<Packet>)
      requires Traced()
      modifies this`log, reader, keys, keys.Repr()
      ensures Traced() && keys.Repr() == old(keys.Repr()) && Secure() == old(Secure())
      ensures log == old(log) + [Heard(r, Secure())]
      ensures r.Ok? ==> |reader.data| < |old(reader.data)|
      ensures old(Watched()).Some? ==> Watched() == Observe(db, old(Watched()).value, Heard(r, Secure()))
    {
      hide Open, Observe, Watch, Replay, Transfer, Heard;
      ghost var was := Now();
      r := RecvPacket(s, reader, keys);
      Receiving(s, env, was, r, Open(s, was.keys.RecvHalf(), was.input));
      Record(Heard(r, Secure()));
    }

    /** Sending anything but USERAUTH_SUCCESS, and receiving, never gives the monitor cause to object. */
    method Say(p: Packet, ghost keyed: bool, ghost authed: bool) returns (r: Result<()>)
      requires Clean(keyed, authed) && p.msgType != USERAUTH_SUCCESS
      modifies this`sends, this`log, writer, keys, keys.Repr()
      ensures Clean(keyed, authed) && keys.Repr() == old(keys.Repr())
      ensures log == if r.Ok? then old(log) + [Sent(p, Secure())] else old(log)
      ensures keyed ==> (r.Ok? <==> FitsPacket(p))
      ensures r.Err? ==> r.error == PACKET_TOO_LARGE && !FitsPacket(p)
    {
      hide Watch, Replay;
      r := Send(p);
    }

    method Hear(ghost keyed: bool, ghost authed: bool) returns (r: Result<Packet>)
      requires Clean(keyed, authed)
      modifies this`log, reader, keys, keys.Repr()
      ensures Clean(keyed, authed) && keys.Repr() == old(keys.Repr()) && reader != writer
      ensures r.Ok? ==> |reader.data| < |old(reader.data)| && Watched().value.last == Some(r.value)
      ensures log == old(log) + [Heard(r, Secure())]
    {
      hide Watch, Replay;
      r := Recv();
    }

    // -------------------------------------------------------------- key exchange and authentication

    /** So far the log is that of a server at `k`. */
    ghost predicate Shaking(k: Shake) reads this, reader, writer, keys, keys.Repr(), channels {
      Clean(k.installed, k.v.pc.SSession?) && Steered(s, Config(), log) == Some(k)
    }

    method SayNext(p: Packet, ghost k: Shake) returns (r: Result<()>)
      requires Shaking(k) && ServerSending(k.v.pc)
      requires p == ServerPacket(s, Config(), k.v) && p.msgType != USERAUTH_SUCCESS
      modifies this`sends, this`log, writer, keys, keys.Repr()
      ensures keys.Repr() == old(keys.Repr())
      ensures Shaking(if r.Ok? then k.At(ServerNext(k.v)) else k)
      ensures r.Err? ==> GivesUp(s, Config(), k.v, r.error)
    {
      hide Clean, Steered, ServerPacket, ServerNext;
      r := Say(p, k.installed, false);
      SteeredByPacket(s, Config(), old(log), k, p, Secure());
    }

    method HearNext(ghost k: Shake) returns (r: Result<Packet>, ghost k': Shake)
      requires Shaking(k) && k.Awaits()
      modifies this`log, reader, keys, keys.Repr()
      ensures keys.Repr() == old(keys.Repr()) && Shaking(k') && reader != writer
      ensures r.Ok? ==> |reader.data| < |old(reader.data)| && Watched().value.last == Some(r.value)
      ensures k' == AfterReceipt(s, Config(), k, r)
    {
      hide Clean, Steered, ServerHandles, Heard;
      r := Hear(k.installed, false);
      SteeredByReceipt(s, Config(), old(log), k, r, Secure());
      k' := AfterReceipt(s, Config(), k, r);
    }

    method Greet() returns (r: Result<str>, ghost k: Shake)
      requires Shaking(SHAKE_START)
      modifies this`log, reader, writer
      ensures Shaking(k) && (r.Err? ==> k.v.pc == SFailed(r.error))
      ensures r.Ok? ==> k == Shake(SERVER_START.(pc := SKexinitOut, clientVersion := r.value), false)
    {
      hide Watch, Replay, Steered, Version.Received, Version.Consumed, Version.OwnVersion, Transfer, Steer,
        ServerSending, AllOpen, Credible;
      Greeting(s, env, Now());
      Version.SendVersionString(writer, Version.OwnVersion());
      r := Version.RecvVersionString(reader);
      Record(Greeted(r));
      SteeredByGreeting(s, Config(), old(log), r);
      k := AfterGreeting(r);
    }

    /** Version and key exchange, up to the installation of the keys. */
    method ExchangeKeys() returns (r: Result<()>, ghost k: Shake)
      requires Shaking(SHAKE_START)
      modifies this`sends, this`log, reader, writer, keys, keys.Repr()
      ensures fresh(keys.Repr() - old(keys.Repr()))
      ensures Shaking(k) && (r.Err? ==> GivesUp(s, Config(), k.v, r.error))
      ensures r.Ok? ==> k.v.pc == SServiceIn && k.installed
    {
      hide Shaking, Version.OwnVersion, HostKey, Kex.KexinitPayload, ServerCompletes, ServerPacket, ServerNext;
      var version;
      version, k := Greet();
      if version.Err? {
        return Err(version.error), k;
      }
      var kexinit := Kex.BuildKexinitPayload(env.cookie);
      SaysInExchange(s, Config(), k.v);
      r := SayNext(Packet(KEXINIT, kexinit), k);
      if r.Err? {
        return;
      }
      ghost var k0 := k.At(SKexinitIn);
      var offer;
      offer, k := HearOffer(k0);
      if offer.Err? {
        return Err(offer.error), k;
      }
      var result := CompleteExchange(version.value, offer.value.0, offer.value.1, kexinit,
                                     k0.v.(pc := SEcdhIn, clientKexinit := offer.value.0));
      r, k := FinishExchange(result, k);
      if r.Ok? {
        k := InstallKeys(result, k);
      }
    }

    method CompleteExchange(clientVersion: str, clientKexinit: bytes, clientPub: bytes, kexinit: bytes,
                            ghost v: H.Server)
      returns (result: Kex.KexResult)
      requires v.clientVersion == clientVersion && v.clientKexinit == clientKexinit
      requires kexinit == Kex.KexinitPayload(env.cookie)
      ensures result == ServerCompletes(s, Config(), v, clientPub)
    {
      hide Kex.ServerResult, Version.OwnVersion, HostKey, Kex.KexinitPayload;
      var kex := new Kex.KexServer(s, env.secret);
      var completed := kex.Complete(s, clientPub, clientVersion, Version.OwnVersion(),
        [KEXINIT] + clientKexinit, [KEXINIT] + kexinit, HostKey());
      result := completed.value;
    }

    /** The client's KEXINIT payload and its public key. */
    method HearOffer(ghost k0: Shake) returns (r: Result<(bytes, bytes)>, ghost k: Shake)
      requires Shaking(k0) && k0.v.pc.SKexinitIn?
      modifies this`log, reader, keys, keys.Repr()
      ensures keys.Repr() == old(keys.Repr())
      ensures Shaking(k) && (r.Err? ==> k.v.pc == SFailed(r.error))
      ensures r.Ok? ==> k == k0.(v := Offered(s, Config(), k0.v, r.value.0, r.value.1))
    {
      hide Shaking, TakeString, ServerCompletes, ServerHandles;
      var clientKexinit, ecdhInit;
      clientKexinit, k := HearNext(k0);
      if clientKexinit.Err? {
        return Err(clientKexinit.error), k;
      }
      HandlesKexinit(s, Config(), k0.v, clientKexinit.value);
      if clientKexinit.value.msgType != KEXINIT {
        return Err(Protocol("Expected KEXINIT")), k;
      }
      ghost var v := k.v;
      ecdhInit, k := HearNext(k);
      if ecdhInit.Err? {
        return Err(ecdhInit.error), k;
      }
      HandlesEcdh(s, Config(), v, ecdhInit.value);
      if ecdhInit.value.msgType != KEX_ECDH_INIT {
        return Err(Protocol("Expected KEX_ECDH_INIT")), k;
      }
      var clientPub := ReadBytes(ecdhInit.value.payload);
      if clientPub.Err? {
        return Err(clientPub.error), k;
      }
      if |clientPub.value| != 32 {
        return Err(KeyExchange("Invalid client public key length")), k;
      }
      r := Ok((clientKexinit.value.payload, clientPub.value));
    }

    /** KEX_ECDH_REPLY and NEWKEYS out, NEWKEYS in. */
    method FinishExchange(result: Kex.KexResult, ghost k0: Shake) returns (r: Result<()>, ghost k: Shake)
      requires Shaking(k0) && k0.v.pc.SReplyOut? && k0.v.result == result
      modifies this`sends, this`log, reader, writer, keys, keys.Repr()
      ensures keys.Repr() == old(keys.Repr())
      ensures Shaking(k) && (r.Err? ==> GivesUp(s, Config(), k.v, r.error))
      ensures r.Ok? ==> k == k0.At(SServiceIn)
    {
      hide Shaking, ReplyPayload, ServerPacket, ServerNext, ServerHandles;
      k := k0;
      SaysInExchange(s, Config(), k.v);
      r := SayNext(Packet(KEX_ECDH_REPLY, ReplyPayload(s, ServerConfig(env.cookie, env.secret, db), result.hash)), k);
      if r.Err? {
        return;
      }
      k := k.At(SNewkeysOut);
      SaysInExchange(s, Config(), k.v);
      r := SayNext(Packet(NEWKEYS, []), k);
      if r.Err? {
        return;
      }
      k := k.At(SNewkeysIn);
      var newkeys;
      newkeys, k := HearNext(k);
      if newkeys.Err? {
        return Err(newkeys.error), k;
      }
      HandlesNewkeys(s, Config(), k0.v.(pc := SNewkeysIn), newkeys.value);
      if newkeys.value.msgType != NEWKEYS {
        return Err(Protocol("Expected NEWKEYS")), k;
      }
      r := Ok(());
    }

    /** The six derivations, and the ciphers and MAC keys made of them. */
    method InstallKeys(result: Kex.KexResult, ghost k0: Shake) returns (ghost k: Shake)
      requires Shaking(k0) && k0.v.pc.SServiceIn? && !k0.installed && k0.v.result == result
      modifies this`log, keys
      ensures fresh(keys.Repr() - old(keys.Repr()))
      ensures k == k0.(installed := true) && Shaking(k)
    {
      hide Watch, Replay, Steered, Kex.ServerInstall, Delivers, Obtains, ServerHandles, ServerPacket,
        Version.OwnVersion;
      DeriveAndInstall(result);
      Record(Installed(result));
      SteeredAppend(s, Config(), old(log), Installed(result));
      k := k0.(installed := true);
    }

    method DeriveAndInstall(result: Kex.KexResult)
      requires keys.Valid()
      modifies keys
      ensures fresh(keys.Repr() - {keys}) && keys.Valid() && Secure()
      ensures keys.Value() == Kex.ServerInstall(s, old(keys.Value()), result)
    {
      hide Crypto.DerivedKey;
      var k, h := result.secret, result.hash;
      var ivCs := Crypto.DeriveKey(s, k, h, 'A' as int, h, 16);
      var ivSc := Crypto.DeriveKey(s, k, h, 'B' as int, h, 16);
      var encCs := Crypto.DeriveKey(s, k, h, 'C' as int, h, 32);
      var encSc := Crypto.DeriveKey(s, k, h, 'D' as int, h, 32);
      var macCs := Crypto.DeriveKey(s, k, h, 'E' as int, h, 32);
      var macSc := Crypto.DeriveKey(s, k, h, 'F' as int, h, 32);
      keys.Install(h, Crypto.NewCipher(encSc, ivSc).value, Crypto.NewCipher(encCs, ivCs).value, macSc, macCs);
    }

    method AwaitService(ghost k0: Shake) returns (r: Result<()>, ghost k: Shake)
      requires Shaking(k0) && k0.v.pc.SServiceIn? && k0.installed
      modifies this`sends, this`log, reader, writer, keys, keys.Repr()
      ensures keys.Repr() == old(keys.Repr())
      ensures Shaking(k) && (r.Err? ==> GivesUp(s, Config(), k.v, r.error))
      ensures r.Ok? ==> k.v.pc == SAuthIn(0) && k.installed
    {
      hide Shaking, TakeUtf8, ServerHandles, ServerPacket, ServerNext;
      var request;
      request, k := HearNext(k0);
      if request.Err? {
        return Err(request.error), k;
      }
      HandlesService(s, Config(), k0.v, request.value);
      if request.value.msgType != SERVICE_REQUEST {
        return Err(Protocol("Expected SERVICE_REQUEST")), k;
      }
      var name := ReadText(request.value.payload);
      if name.Err? {
        return Err(name.error), k;
      }
      r := SayNext(ServiceAccept(name.value), k);
      if r.Ok? {
        k := k.At(SAuthIn(0));
      }
    }

    /** The loop ends only with USERAUTH_SUCCESS sent in answer to an accepted request, or in an error. */
    method Authenticate(ghost k0: Shake) returns (r: Result<()>, ghost k: Shake)
      requires Shaking(k0) && k0.v.pc.SAuthIn? && k0.installed
      modifies this`sends, this`log, reader, writer, keys, keys.Repr()
      ensures keys.Repr() == old(keys.Repr())
      ensures Shaking(k) && (r.Err? ==> GivesUp(s, Config(), k.v, r.error))
      ensures r.Ok? ==> k.v.pc == SSession && k.installed
    {
      hide Shaking, ParseAuthRequest, ServerHandles, ServerPacket, Credible, AuthFailure;
      k := k0;
      var authenticated := false;
      while !authenticated
        invariant Shaking(k) && keys.Repr() == old(keys.Repr())
        invariant k.installed && if authenticated then k.v.pc.SSession? else k.v.pc.SAuthIn?
        decreases !authenticated, |reader.data|
      {
        ghost var before := k;
        var pkt;
        pkt, k := HearNext(k);
        if pkt.Err? {
          return Err(pkt.error), k;
        }
        HandlesRequest(s, Config(), before.v, pkt.value);
        if pkt.value.msgType != USERAUTH_REQUEST {
          return Err(Protocol("Expected USERAUTH_REQUEST")), k;
        }
        var granted := Judge(pkt.value.payload);
        if granted.Err? {
          return Err(granted.error), k;
        }
        if granted.value {
          r := Grant(k, pkt.value);
          if r.Err? {
            return;
          }
          k := k.At(SSession);
          authenticated := true;
        } else {
          AuthFailureType();
          r := SayNext(AuthFailure(), k);
          if r.Err? {
            return;
          }
          k := k.At(ServerNext(k.v));
        }
      }
      r := Ok(());
    }

    /** Whether the credentials of a request are good. */
    method Judge(payload: bytes) returns (r: Result<bool>)
      ensures r == match ParseAuthRequest(payload) case Ok(req) => Ok(db.Accepts(req)) case Err(e) => Err(e)
    {
      hide ParseAuthRequest;
      var req :- Parse(payload);
      r := Ok(match req.credential
        case Password(password) => db.VerifyPassword(req.username, password)
        case PublicKey(_, keyBlob, _) => db.IsKeyAuthorized(req.username, keyBlob));
    }

    /** USERAUTH_SUCCESS, in answer to the credible request just received. */
    method Grant(ghost k: Shake, ghost request: Packet) returns (r: Result<()>)
      requires Shaking(k) && k.v.pc.SAuthOut? && k.v.granted && k.installed
      requires Watched().value.last == Some(request) && Credible(db, request)
      modifies this`sends, this`log, writer, keys, keys.Repr()
      ensures keys.Repr() == old(keys.Repr())
      ensures if r.Ok? then Shaking(k.At(SSession)) else Shaking(k) && GivesUp(s, Config(), k.v, r.error)
    {
      hide Watch, Replay, Steered, Credible, Kex.KexinitPayload, ReplyPayload, ServerHandles, AuthFailure,
        ServiceAccept, Kex.ServerInstall, Version.OwnVersion, Version.Received, Version.Consumed;
      r := Send(AUTH_SUCCESS);
      if r.Ok? {
        SteeredAppend(s, Config(), old(log), Sent(AUTH_SUCCESS, Secure()));
      }
    }

    // -------------------------------------------------------------- the channel loop

    ghost method Perform(kind: EffectKind)
      requires Clean(true, true)
      modifies this`log
      ensures Clean(true, true) && log == old(log) + [Effect(kind)]
    {
      hide Watch, Replay;
      Record(Effect(kind));
    }

    /** SUCCESS or FAILURE, if the client wants to know. */
    method Answer(q: ChannelRequestMsg, msgType: byte) returns (next: Next)
      requires Clean(true, true) && msgType != USERAUTH_SUCCESS
      modifies this`sends, this`log, writer, keys, keys.Repr()
      ensures Clean(true, true) && keys.Repr() == old(keys.Repr())
      ensures CarriedOut(PlanReply(channels.Value(), q, msgType), old(log), log, next)
    {
      hide Clean, BE32;
      assert log + [] == log;
      next := Continue;
      if q.wantReply {
        var ch := channels.FindByRemoteId(q.recipientChannel);
        if ch.None? {
          return Fail(UNKNOWN_CHANNEL);
        }
        var notice := Notice(msgType, q.recipientChannel);
        var sent := SayOne(notice);
        assert Until([Secured(notice)]) == [Secured(notice)];
      }
    }

    /** One packet of a plan. */
    method SayOne(p: Packet) returns (r: Result<()>)
      requires Clean(true, true) && p.msgType != USERAUTH_SUCCESS
      modifies this`sends, this`log, writer, keys, keys.Repr()
      ensures Clean(true, true) && keys.Repr() == old(keys.Repr())
      ensures r == if FitsPacket(p) then Ok(()) else Err(PACKET_TOO_LARGE)
      ensures log == old(log) + Until([Secured(p)])
    {
      hide Watch, Observe, Replay;
      assert log + [] == log && [Secured(p)][1..] == [];
      r := Say(p, true, true);
      if r.Ok? {
        r := Ok(());
      }
    }

    /** The command runs, and may change any file, before the channel is looked up. */
    method Exec(q: ChannelRequestMsg, output: str, files: Disk) returns (next: Next)
      requires Clean(true, true)
      modifies this`sends, this`log, writer, keys, keys.Repr(), disk
      ensures Clean(true, true) && keys.Repr() == old(keys.Repr())
      ensures CarriedOut(PlanExec(channels.Value(), q, output, files), old(log), log, next)
      ensures SftpState() == AfterExec(old(SftpState()), q, files)
    {
      hide Clean, BE32, EncString, TakeUtf8, Known, Until, ReplyEvents, ClosingEvents, PlanExec;
      PlanExecIs(channels.Value(), q, output, files);
      var command := ReadText(q.data);
      if command.Err? {
        NothingDone(log, Fail(command.error));
        return Fail(command.error);
      }
      Perform(RunsCommand(command.value, files));
      disk.files := files;
      UntilEffect(RunsCommand(command.value, files));
      var found := Lookup(q.recipientChannel);
      if !found {
        return Fail(UNKNOWN_CHANNEL);
      }
      next := ExecReply(q, output);
      ghost var answer := Plan(ReplyEvents(q) + ClosingEvents(q.recipientChannel, output), Continue);
      CarryOn([Effect(RunsCommand(command.value, files))], answer, old(log), log, next);
    }

    method Lookup(remoteId: u32) returns (found: bool)
      ensures found <==> Known(channels.Value(), remoteId)
    {
      var ch := channels.FindByRemoteId(remoteId);
      found := ch.Some?;
    }

    /** SUCCESS if it is wanted, and then the output. */
    method ExecReply(q: ChannelRequestMsg, output: str) returns (next: Next)
      requires Clean(true, true)
      modifies this`sends, this`log, writer, keys, keys.Repr()
      ensures Clean(true, true) && keys.Repr() == old(keys.Repr())
      ensures CarriedOut(Plan(ReplyEvents(q) + ClosingEvents(q.recipientChannel, output), Continue), old(log), log,
                         next)
    {
      hide Clean, BE32, ClosingEvents;
      ghost var reply := ReplyEvents(q);
      if q.wantReply {
        var notice := Notice(CHANNEL_SUCCESS, q.recipientChannel);
        var sent := SayOne(notice);
        assert Until([Secured(notice)]) == [Secured(notice)];
      } else {
        assert log + [] == log;
      }
      assert Until(reply) == reply;
      next := SendOutput(q.recipientChannel, output);
      CarryOn(reply, Plan(ClosingEvents(q.recipientChannel, output), Continue), old(log), log, next);
    }

    /** The output, EOF and CLOSE; the last two always fit. */
    method SendOutput(remoteId: u32, output: str) returns (next: Next)
      requires Clean(true, true)
      modifies this`sends, this`log, writer, keys, keys.Repr()
      ensures Clean(true, true) && keys.Repr() == old(keys.Repr())
      ensures CarriedOut(Plan(ClosingEvents(remoteId, output), Continue), old(log), log, next)
    {
      hide Clean, BE32, EncString;
      var data := BuildChannelData(remoteId, output);
      var eof, close := Notice(CHANNEL_EOF, remoteId), Notice(CHANNEL_CLOSE, remoteId);
      var sent := SayOne(data);
      if sent.Err? {
        return Fail(sent.error);
      }
      sent := SayOne(eof);
      sent := SayOne(close);
      UntilSplits([Secured(data)], [Secured(eof), Secured(close)]);
      UntilSplits([Secured(eof)], [Secured(close)]);
      assert ClosingEvents(remoteId, output) == [Secured(data)] + ([Secured(eof)] + [Secured(close)]);
      next := Continue;
    }

    method HandleRequestMsg(payload: bytes, output: str, files: Disk) returns (next: Next)
      requires Clean(true, true)
      modifies this`sends, this`log, writer, keys, keys.Repr(), disk
      ensures Clean(true, true) && keys.Repr() == old(keys.Repr())
      ensures CarriedOut(PlanRequestMsg(channels.Value(), payload, output, files), old(log), log, next)
      ensures SftpState() == AfterRequest(old(SftpState()), payload, files)
    {
      hide Clean, CarriedOut, ParseRequest, PlanRequest, AfterExec, Ascii;
      var msg := ParseChannelRequest(payload);
      if msg.Err? {
        NothingDone(log, Fail(msg.error));
        return Fail(msg.error);
      }
      next := ServeRequest(msg.value, output, files);
    }

    method ServeRequest(q: ChannelRequestMsg, output: str, files: Disk) returns (next: Next)
      requires Clean(true, true)
      modifies this`sends, this`log, writer, keys, keys.Repr(), disk
      ensures Clean(true, true) && keys.Repr() == old(keys.Repr())
      ensures CarriedOut(PlanRequest(channels.Value(), q, output, files), old(log), log, next)
      ensures SftpState()
           == if q.requestType == Ascii("exec") then AfterExec(old(SftpState()), q, files) else old(SftpState())
    {
      hide Clean, CarriedOut, TakeUtf8, PlanExec, PlanReply, AfterExec, Ascii;
      if q.requestType == Ascii("exec") {
        next := Exec(q, output, files);
      } else if q.requestType == Ascii("shell") {
        next := Answer(q, CHANNEL_SUCCESS);
      } else if q.requestType == Ascii("subsystem") {
        next := Subsystem(q);
      } else if q.requestType == Ascii("pty-req") {
        next := Answer(q, CHANNEL_SUCCESS);
      } else {
        next := Answer(q, CHANNEL_FAILURE);
      }
    }

    method Subsystem(q: ChannelRequestMsg) returns (next: Next)
      requires Clean(true, true)
      modifies this`sends, this`log, writer, keys, keys.Repr()
      ensures Clean(true, true) && keys.Repr() == old(keys.Repr())
      ensures CarriedOut(PlanSubsystem(channels.Value(), q), old(log), log, next)
    {
      hide Clean, CarriedOut, TakeUtf8, PlanReply, Ascii;
      var name := ReadText(q.data);
      if name.Err? {
        NothingDone(log, Fail(name.error));
        return Fail(name.error);
      }
      if name.value == Ascii("sftp") {
        next := Answer(q, CHANNEL_SUCCESS);
      } else {
        next := Answer(q, CHANNEL_FAILURE);
      }
    }

    /** A channel step that leaves the log alone. */
    method Accept(o: ChannelOpenMsg) returns (id: u32)
      requires Clean(true, true)
      modifies channels
      ensures Clean(true, true) && id == old(channels.nextId)
      ensures channels.Value()
           == old(channels.Value()).Accepted(o.senderChannel, o.channelType, o.initialWindow, o.maxPacket)
    {
      hide Watch, Replay;
      id := channels.AcceptChannel(o.senderChannel, o.channelType, o.initialWindow, o.maxPacket);
    }

    method HandleOpenMsg(payload: bytes) returns (next: Next)
      requires Clean(true, true)
      modifies this`sends, this`log, writer, keys, keys.Repr(), channels
      ensures Clean(true, true) && keys.Repr() == old(keys.Repr())
      ensures CarriedOut(PlanOpen(old(channels.Value()), payload), old(log), log, next)
      ensures AfterOpen(old(channels.Value()), payload, channels.Value())
    {
      hide Clean, ParseOpen, BE32, Until;
      ghost var before := channels.Value();
      var msg := ParseChannelOpen(payload);
      if msg.Err? {
        NothingDone(log, Fail(msg.error));
        return Fail(msg.error);
      }
      Perform(OpensChannel(channels.nextId, msg.value));
      UntilEffect(OpensChannel(before.nextId, msg.value));
      var localId := Accept(msg.value);
      var confirm := OpenConfirmation(msg.value.senderChannel, localId, DEFAULT_WINDOW_SIZE, DEFAULT_MAX_PACKET);
      next := SayLast(confirm);
      ghost var opens := Effect(OpensChannel(localId, msg.value));
      assert [opens] + [Secured(confirm)] == [opens, Secured(confirm)];
      CarryOn([opens], Plan([Secured(confirm)], Continue), old(log), log, next);
    }

    /** One packet that ends a plan. */
    method SayLast(p: Packet) returns (next: Next)
      requires Clean(true, true) && p.msgType != USERAUTH_SUCCESS
      modifies this`sends, this`log, writer, keys, keys.Repr()
      ensures Clean(true, true) && keys.Repr() == old(keys.Repr())
      ensures CarriedOut(Plan([Secured(p)], Continue), old(log), log, next)
    {
      hide Clean;
      assert [Secured(p)][1..] == [];
      var sent := SayOne(p);
      next := if sent.Ok? then Continue else Fail(sent.error);
    }

    /** The request is handled, and only then is the channel looked up. */
    method ServeSftp(remoteId: u32, p: SftpCodec.SftpPacket, io: Io) returns (next: Next)
      requires Clean(true, true)
      modifies this`sends, this`log, writer, keys, keys.Repr(), sftp, disk
      ensures Clean(true, true) && keys.Repr() == old(keys.Repr())
      ensures CarriedOut(PlanServe(channels.Value(), old(SftpState()), remoteId, p, io), old(log), log, next)
      ensures SftpState() == Handled(old(SftpState()), p, io).state
    {
      hide Clean, Known, Handled, SftpCodec.EncSftp, DataPayload, Until;
      Perform(ServesSftp(p, io));
      UntilEffect(ServesSftp(p, io));
      var reply := Respond(p, io);
      var found := Lookup(remoteId);
      if !found {
        return Fail(UNKNOWN_CHANNEL);
      }
      var data := BuildChannelData(remoteId, SftpCodec.EncSftp(reply));
      next := SayLast(data);
      assert [Effect(ServesSftp(p, io))] + [Secured(data)] == [Effect(ServesSftp(p, io)), Secured(data)];
      CarryOn([Effect(ServesSftp(p, io))], Plan([Secured(data)], Continue), old(log), log, next);
    }

    method Respond(p: SftpCodec.SftpPacket, io: Io) returns (reply: SftpCodec.SftpPacket)
      requires Clean(true, true)
      modifies sftp, disk
      ensures Clean(true, true)
      ensures reply == Handled(old(SftpState()), p, io).reply && SftpState() == Handled(old(SftpState()), p, io).state
    {
      hide Handled, Watch, Replay;
      reply := sftp.HandleRequest(p, disk, io);
    }

    method HandleDataMsg(payload: bytes, io: Io) returns (next: Next)
      requires Clean(true, true)
      modifies this`sends, this`log, writer, keys, keys.Repr(), sftp, disk
      ensures Clean(true, true) && keys.Repr() == old(keys.Repr())
      ensures CarriedOut(PlanData(channels.Value(), old(SftpState()), payload, io), old(log), log, next)
      ensures SftpState() == AfterData(old(SftpState()), payload, io)
    {
      hide Clean, CarriedOut, ParseData, SftpCodec.Unwrap, PlanServe, Handled;
      var msg := ParseChannelData(payload);
      if msg.Err? {
        NothingDone(log, Fail(msg.error));
        return Fail(msg.error);
      }
      var request := SftpCodec.Unwrap(msg.value.data);
      if request.None? {
        NothingDone(log, Continue);
        return Continue;
      }
      next := ServeSftp(msg.value.recipientChannel, request.value, io);
    }

    method HandleAdjustMsg(payload: bytes) returns (next: Next)
      requires Clean(true, true)
      modifies this`log, channels
      ensures Clean(true, true)
      ensures CarriedOut(PlanAdjust(old(channels.Value()), payload), old(log), log, next)
      ensures AfterAdjust(old(channels.Value()), payload, channels.Value())
    {
      hide Watch, Replay, TakeU32, TakeAdjust, CarriedOut;
      var adjust := ReadAdjust(payload);
      if adjust.Err? {
        NothingDone(log, Fail(adjust.error));
        return Fail(adjust.error);
      }
      var (recipient, amount) := adjust.value;
      var ch := channels.FindByRemoteId(recipient);
      if ch.Some? {
        Perform(AdjustsWindow(recipient, amount));
        channels.AdjustRemoteWindow(ch.value, amount);
        JustEffect(AdjustsWindow(recipient, amount), old(log));
      } else {
        NothingDone(log, Continue);
      }
      next := Continue;
    }

    method HandleEofMsg(payload: bytes) returns (next: Next)
      requires Clean(true, true)
      modifies this`log, channels
      ensures Clean(true, true)
      ensures CarriedOut(PlanEof(old(channels.Value()), payload), old(log), log, next)
      ensures AfterEof(old(channels.Value()), payload, channels.Value())
    {
      hide Watch, Replay, TakeU32, TakeAdjust, CarriedOut;
      var recipient := ReadNumber(payload);
      if recipient.Err? {
        NothingDone(log, Fail(recipient.error));
        return Fail(recipient.error);
      }
      var ch := channels.FindByRemoteId(recipient.value);
      if ch.Some? {
        Perform(MarksEof(recipient.value));
        channels.MarkEofReceived(ch.value);
        JustEffect(MarksEof(recipient.value), old(log));
      } else {
        NothingDone(log, Continue);
      }
      next := Continue;
    }

    method HandleCloseMsg(payload: bytes) returns (next: Next)
      requires Clean(true, true)
      modifies this`sends, this`log, writer, keys, keys.Repr()
      ensures Clean(true, true) && keys.Repr() == old(keys.Repr())
      ensures CarriedOut(PlanClose(channels.Value(), payload), old(log), log, next)
    {
      hide Watch, Replay, TakeU32, TakeAdjust, CarriedOut;
      next := Continue;
      var recipient := ReadNumber(payload);
      if recipient.Err? {
        NothingDone(log, Fail(recipient.error));
        return Fail(recipient.error);
      }
      var ch := channels.FindByRemoteId(recipient.value);
      if ch.None? {
        NothingDone(log, Continue);
      } else if !channels.channels[ch.value].closed {
        next := SayLast(Notice(CHANNEL_CLOSE, recipient.value));
      }
    }

    method Dispatch(p: Packet, w: Outside) returns (next: Next)
      requires Clean(true, true)
      modifies this`sends, this`log, writer, keys, keys.Repr(), channels, sftp, disk
      ensures Clean(true, true) && keys.Repr() == old(keys.Repr())
      ensures CarriedOut(PlanFor(old(channels.Value()), old(SftpState()), p, w), old(log), log, next)
      ensures ChannelsAfter(old(channels.Value()), p, channels.Value())
      ensures SftpState() == SftpAfter(old(SftpState()), p, w)
    {
      hide Clean, CarriedOut, PlanOpen, PlanRequestMsg, PlanData, PlanAdjust, PlanEof, PlanClose;
      hide AfterOpen, AfterAdjust, AfterEof, AfterData, AfterRequest;
      if p.msgType == CHANNEL_OPEN {
        next := HandleOpenMsg(p.payload);
      } else if p.msgType == CHANNEL_REQUEST {
        next := HandleRequestMsg(p.payload, w.output, w.aftermath(disk.files));
      } else if p.msgType == CHANNEL_DATA {
        next := HandleDataMsg(p.payload, w.io);
      } else if p.msgType == CHANNEL_WINDOW_ADJUST {
        next := HandleAdjustMsg(p.payload);
      } else if p.msgType == CHANNEL_EOF {
        next := HandleEofMsg(p.payload);
      } else if p.msgType == CHANNEL_CLOSE {
        next := HandleCloseMsg(p.payload);
      } else {
        next := if p.msgType == DISCONNECT then Stop else Continue;
        NothingDone(log, next);
      }
    }

    ghost function At(): Point reads this, channels, sftp, disk { Point(turns, channels.Value(), SftpState()) }

    /** Every pass consumes input, so the loop ends; only DISCONNECT or the end of the stream ends it well. */
    method ChannelLoop() returns (r: Result<()>)
      requires Clean(true, true)
      modifies this`sends, this`turns, this`log, reader, writer, keys, keys.Repr(), channels, sftp, disk
      ensures Clean(true, true) && keys.Repr() == old(keys.Repr())
      ensures old(log) <= log && Serves(env, old(At()), log[|old(log)|..], r, At())
    {
      hide Clean, Leads, Serves;
      ghost var start, done, did: seq<Event> := At(), [], [];
      LeadsNowhere(env, start);
      assert log + [] == log;
      while true
        invariant Clean(true, true) && keys.Repr() == old(keys.Repr())
        invariant log == old(log) + done && Leads(env, start, done, At())
        decreases |reader.data|
      {
        var over;
        over, did := Pass(start, done);
        assert log == old(log) + (done + did);
        if over.Some? {
          assert log[|old(log)|..] == done + did;
          return over.value;
        }
        done := done + did;
      }
    }

    /** One pass of the loop, and how the loop ends if it is the last. */
    method Pass(ghost start: Point, ghost done: seq<Event>) returns (over: Option<Result<()>>, ghost did: seq<Event>)
      requires Clean(true, true) && Leads(env, start, done, At())
      modifies this`sends, this`turns, this`log, reader, writer, keys, keys.Repr(), channels, sftp, disk
      ensures Clean(true, true) && keys.Repr() == old(keys.Repr()) && log == old(log) + did
      ensures over.None? ==> Leads(env, start, done + did, At()) && |reader.data| < |old(reader.data)|
      ensures over.Some? ==> Serves(env, start, done + did, over.value, At())
    {
      hide Watch, Replay, AllOpen, Answered, Moves, Ending, Leads, Serves, Until, Closing;
      ghost var here := At();
      var pkt := Hear(true, true);
      did := [Heard(pkt, true)];
      if pkt.Err? {
        LosingEnds(env, start, done, here, pkt.error);
        return Some(if pkt.error == ConnectionClosed then Ok(()) else Err(pkt.error)), did;
      }
      var next := Turn(pkt.value);
      ghost var events := Until(Answered(env, here, pkt.value).events);
      assert done + [Recvd(pkt.value, true)] + events == done + (did + events);
      did := did + events;
      if next.Continue? {
        LeadsOn(env, start, done, here, pkt.value, true, At());
        over := None;
      } else {
        LastTurn(env, start, done, here, pkt.value, true, At());
        over := Some(Concluding(next));
      }
    }

    method Turn(p: Packet) returns (next: Next)
      requires Clean(true, true)
      modifies this`sends, this`turns, this`log, writer, keys, keys.Repr(), channels, sftp, disk
      ensures Clean(true, true) && keys.Repr() == old(keys.Repr())
      ensures CarriedOut(Answered(env, old(At()), p), old(log), log, next) && Moves(env, old(At()), p, At())
    {
      hide Watch, Replay, AllOpen, CarriedOut, PlanFor, ChannelsAfter, SftpAfter;
      turns := turns + 1;
      next := Dispatch(p, env.outside(turns));
    }

    method Serve() returns (r: Result<()>)
      requires Shaking(SHAKE_START) && At() == Point(0, EMPTY_MANAGER, SftpState())
      modifies this`sends, this`turns, this`log, reader, writer, keys, keys.Repr(), channels, sftp, disk
      ensures Sound()
      ensures Conforms(s, Config(), env, old(SftpState()), log, r, At())
    {
      hide Shaking, Conforms, GivesUp;
      ghost var start := SftpState();
      ghost var k;
      r, k := ExchangeKeys();
      if r.Err? {
        StoppedShort(k, start, r);
        return;
      }
      r, k := AwaitService(k);
      if r.Err? {
        StoppedShort(k, start, r);
        return;
      }
      r, k := Authenticate(k);
      if r.Err? {
        StoppedShort(k, start, r);
        return;
      }
      r := ServeChannels(k);
    }

    /** The log is the whole story, and there is nothing wrong with it. */
    ghost predicate Sound() reads this, reader, writer, keys, keys.Repr() { Traced() && Watched().Some? }

    method ServeChannels(ghost k: Shake) returns (r: Result<()>)
      requires Shaking(k) && k.v.pc.SSession? && k.installed && At() == Point(0, EMPTY_MANAGER, SftpState())
      modifies this`sends, this`turns, this`log, reader, writer, keys, keys.Repr(), channels, sftp, disk
      ensures Sound()
      ensures Conforms(s, Config(), env, old(SftpState()), log, r, At())
    {
      hide Watch, Replay, Steered, Serves;
      r := ChannelLoop();
      assert log[..|old(log)|] == old(log);
      assert ConformsAt(s, Config(), env, old(SftpState()), log[..|old(log)|], log[|old(log)|..], r, At());
    }

    lemma StoppedShort(k: Shake, start: State, r: Result<()>)
      requires Shaking(k) && r.Err? && GivesUp(s, Config(), k.v, r.error) && At() == Point(0, EMPTY_MANAGER, start)
      ensures Sound() && Conforms(s, Config(), env, start, log, r, At())
    {
      hide Watch, Replay, Steered, Serves;
      assert log[..|log|] == log;
      assert ConformsAt(s, Config(), env, start, log[..|log|], log[|log|..], r, At());
    }
  }

  /**
   `log` is a session on `input`: nothing in it is done out of order, it accounts for every byte read
   and written and for everything that became of the channels, the handles and the files, and it is
   what the program does, ending with `r` at `z`.
   */
  ghost predicate Explains(s: Crypto.Suite, db: Db, env: Env, input: bytes, start: State, log: seq<Event>,
                           r: Result<()>, output: bytes, z: Point) {
    && Disciplined(db, log)
    && Replay(s, env, input, log).Some? && Replay(s, env, input, log).value.output == output
    && Conforms(s, ServerConfig(env.cookie, env.secret, db), env, start, log, r, z)
    && Accounting.Accounts(start, log, z)
  }

  /** `handle_connection` on any input, with the channels, the handler and the disk it leaves. */
  method HandleConnection(s: Crypto.Suite, db: Db, env: Env, input: bytes, root: bytes, files: Disk)
    returns (r: Result<()>, output: bytes, channels: Manager, state: State)
    ensures exists log, turn ::
      Explains(s, db, env, input, State(Handler(0, map[], map[], root), files), log, r, output,
               Point(turn, channels, state))
  {
    hide Disciplined, Replay, Watch, Conforms, Accounting.Accounts, Connection.Clean;
    var connection := new Connection(s, db, env, input, root, files);
    ghost var start := connection.SftpState();
    r := connection.Serve();
    output, channels := connection.writer.data, connection.channels.Value();
    state := State(connection.sftp.Value(), connection.disk.files);
    WatchedIsDisciplined(db, connection.log);
    Accounting.Accounted(s, connection.Config(), env, start, connection.log, r, connection.At());
    assert Explains(s, db, env, input, start, connection.log, r, output, Point(connection.turns, channels, state));
  }

  /** The server once it has the client's KEXINIT and public key. */
  function Offered(s: Crypto.Suite, cfg: ServerConfig, v: H.Server, clientKexinit: bytes, clientPub: bytes): H.Server {
    var v' := v.(pc := SEcdhIn, clientKexinit := clientKexinit);
    v'.(pc := SReplyOut, result := ServerCompletes(s, cfg, v', clientPub))
  }

  // ---------------------------------------------------------------- reading the fields of a message

  method ReadText(data: bytes) returns (r: Result<str>)
    ensures r == match TakeUtf8(data) case Ok(p) => Ok(p.value) case Err(e) => Err(e)
  {
    hide TakeUtf8;
    var cursor := new Cursor(data);
    r := cursor.ReadUtf8();
  }

  method ReadBytes(data: bytes) returns (r: Result<bytes>)
    ensures r == match TakeString(data) case Ok(p) => Ok(p.value) case Err(e) => Err(e)
  {
    hide TakeString;
    var cursor := new Cursor(data);
    r := cursor.ReadString();
  }

  method ReadNumber(data: bytes) returns (r: Result<u32>)
    ensures r == match TakeU32(data) case Ok(p) => Ok(p.value) case Err(e) => Err(e)
  {
    hide TakeU32;
    var cursor := new Cursor(data);
    r := cursor.ReadU32();
  }

  method ReadAdjust(data: bytes) returns (r: Result<(u32, u32)>)
    ensures r == TakeAdjust(data)
  {
    hide TakeU32;
    var cursor := new Cursor(data);
    var recipient :- cursor.ReadU32();
    var amount :- cursor.ReadU32();
    r := Ok((recipient, amount));
  }

  lemma NothingYet(s: Crypto.Suite, db: Db, env: Env, input: bytes)
    ensures Watch(db, []) == Some(MONITOR_START)
    ensures Replay(s, env, input, []) == Some(Link(FRESH_KEYS, input, [], 0))
    ensures Steered(s, ServerConfig(env.cookie, env.secret, db), []) == Some(SHAKE_START)
    ensures AllOpen(EMPTY_MANAGER)
  {
  }

  lemma UntilEffect(kind: EffectKind)
    ensures Until([Effect(kind)]) == [Effect(kind)]
  {
    assert [Effect(kind)][1..] == [];
  }

  lemma NothingDone(log: seq<Event>, next: Next)
    ensures CarriedOut(Plan([], next), log, log, next)
  {
    assert log + [] == log;
  }

  lemma JustEffect(kind: EffectKind, log: seq<Event>)
    ensures CarriedOut(Plan([Effect(kind)], Continue), log, log + [Effect(kind)], Continue)
  {
    UntilEffect(kind);
  }

  lemma PlanExecIs(m: Manager, q: ChannelRequestMsg, output: str, files: Disk)
    ensures match TakeUtf8(q.data)
            case Err(e) => PlanExec(m, q, output, files) == Plan([], Fail(e))
            case Ok(command) =>
              var run := [Effect(RunsCommand(command.value, files))];
              PlanExec(m, q, output, files) == if Known(m, q.recipientChannel)
                then Plan(run + (ReplyEvents(q) + ClosingEvents(q.recipientChannel, output)), Continue)
                else Plan(run, Fail(UNKNOWN_CHANNEL))
  {
    hide TakeUtf8, Known, ReplyEvents, ClosingEvents;
    match TakeUtf8(q.data)
    case Err(_) =>
    case Ok(command) =>
      var run := [Effect(RunsCommand(command.value, files))];
      assert run + (ReplyEvents(q) + ClosingEvents(q.recipientChannel, output))
        == run + ReplyEvents(q) + ClosingEvents(q.recipientChannel, output);
  }

  lemma CarryOn(a: seq<Event>, plan: Plan, before: seq<Event>, after: seq<Event>, next: Next)
    requires Until(a) == a && CarriedOut(plan, before + a, after, next)
    ensures CarriedOut(Plan(a + plan.events, plan.next), before, after, next)
  {
    UntilSplits(a, plan.events);
    hide Until;
    assert before + a + Until(plan.events) == before + (a + Until(plan.events));
    assert Until(plan.events) == plan.events <==> a + Until(plan.events) == a + plan.events by {
      if a + Until(plan.events) == a + plan.events {
        assert (a + Until(plan.events))[|a|..] == Until(plan.events) && (a + plan.events)[|a|..] == plan.events;
      }
    }
  }

  /** A plan whose first part goes through continues with the second. */
  lemma {:induction false} UntilSplits(a: seq<Event>, b: seq<Event>)
    ensures Until(a) == a ==> Until(a + b) == a + Until(b)
    decreases |a|
  {
    if a == [] {
      assert a + b == b;
    } else {
      assert (a + b)[1..] == a[1..] + b;
      if Until(a) == a {
        assert Until(a[1..]) == a[1..] by { assert Until(a)[1..] == Until(a[1..]); }
        UntilSplits(a[1..], b);
      }
    }
  }
}
