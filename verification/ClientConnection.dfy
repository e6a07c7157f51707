/**
 `run_client` of src/bin/client.rs up to the answer to its authentication request, as it works
 through its reader, writer and keys. What it does is a run of `ClientStep`.
 */
module ClientConnection {
  import opened Bytes
  import opened Wire
  import opened Packets
  import opened Crypto
  import opened Transport
  import opened Version
  import opened Kex
  import opened Auth
  import opened Handshake

  datatype Setup = Setup(s: Suite, cfg: ClientConfig, padding: nat -> bytes, input: bytes)

  function Onward(u: Setup, a: Spot<Client>): Spot<Client> {
    Advanced(u.s, a, ClientStep(u.s, u.cfg, a.party, a.input, u.padding(a.sends)))
  }

  /** Where the client is after `n` steps, if all of the server's bytes are there. */
  function After(u: Setup, n: nat): Spot<Client> {
    if n == 0 then Spot(CLIENT_START, u.input, [], 0) else Onward(u, After(u, n - 1))
  }

  /** From `a` the client gives up with `e`: it has failed, or the stream ends where it would have to wait. */
  predicate GivesUp(u: Setup, a: Spot<Client>, e: SshError) {
    || a.party.pc == CFailed(e)
    || ((a.party.pc.CVersionIn? || ClientReceiving(a.party.pc))
        && CutOff(u.s, a.party.keys, a.input, a.party.pc.CVersionIn?, e))
  }

  // ---------------------------------------------------------------- one step

  lemma SendStep(u: Setup, a: Spot<Client>, p: Packet)
    requires ClientSending(a.party.pc) && p == ClientPacket(u.s, u.cfg, a.party.pc)
    ensures Onward(u, a) == match Seal(u.s, a.party.keys.SendHalf(), p, u.padding(a.sends))
                            case Err(e) => a.(party := a.party.(pc := CFailed(e)))
                            case Ok(x) => Spot(ClientSent(u.s, a.party, x), a.input, a.output + x.wire, a.sends + 1)
  {
    var rnd, h := u.padding(a.sends), a.party.keys.SendHalf();
    ClientSendTurn(u.s, u.cfg, a.party, p, a.input, rnd);
    FlatItems(u.s, Framed(h, p, rnd));
    hide Seal, ClientStep, ClientNext, ClientInstall, Flat;
    assert a.output + [] == a.output;
  }

  /** The client once a receive has got something. */
  function Obtained(u: Setup, a: Spot<Client>, p: Packet): Spot<Client> {
    var o := Open(u.s, a.party.keys.RecvHalf(), a.input);
    Spot(ClientHandles(u.s, u.cfg, a.party, p).(keys := a.party.keys.WithRecv(o.half)), a.input[o.used..], a.output,
         a.sends)
  }

  lemma ReceiveStep(u: Setup, a: Spot<Client>, r: Result<Packet>)
    requires ClientReceiving(a.party.pc) && r == Returned(Open(u.s, a.party.keys.RecvHalf(), a.input).outcome)
    ensures match r
            case Ok(p) => Onward(u, a) == Obtained(u, a, p)
            case Err(e) => Onward(u, a).output == a.output && GivesUp(u, Onward(u, a), e)
  {
    ClientReceiveTurn(u.s, u.cfg, a.party, a.input, u.padding(a.sends));
    FlatItems(u.s, Line([]));
    hide Open, ClientHandles, ClientStep, Flat;
    assert a.output + [] == a.output && a.input[0..] == a.input;
  }

  /** The first two steps: the version lines. */
  lemma GreetSteps(u: Setup)
    ensures var a := Spot(CLIENT_START.(pc := CVersionIn), u.input, OwnVersion() + CRLF, 0);
            && After(u, 1) == a && After(u, 2) == Onward(u, a)
            && match Received(u.input)
               case Ok(v) =>
                 Onward(u, a) == a.(party := a.party.(pc := CKexinitIn, serverVersion := v),
                                    input := u.input[Consumed(u.input)..])
               case Err(e) => Onward(u, a).output == a.output && GivesUp(u, Onward(u, a), e)
  {
    var start := Spot(CLIENT_START, u.input, [], 0);
    var a := Spot(CLIENT_START.(pc := CVersionIn), u.input, OwnVersion() + CRLF, 0);
    ClientGreetTurn(u.s, u.cfg, CLIENT_START, u.input, u.padding(0));
    ClientGreetTurn(u.s, u.cfg, a.party, u.input, u.padding(0));
    FlatItems(u.s, Line(OwnVersion()));
    hide ClientStep, OwnVersion, ScanFrom, Checked, Consumed, Flat;
    assert After(u, 0) == start && start.output + (OwnVersion() + CRLF) == OwnVersion() + CRLF;
    assert u.input[0..] == u.input && a.output + [] == a.output;
    assert Onward(u, start) == a;
    assert After(u, 1) == a;
  }

  // ---------------------------------------------------------------- the program

  class Connection {
    const u: Setup
    const reader: ByteStream
    const writer: ByteStream
    const keys: SessionKeys
    var sends: nat
    ghost var steps: nat

    /** The client has come to `c` by steps. */
    ghost predicate At(c: Client) reads this, reader, writer, keys, keys.Repr() {
      && reader != writer && keys.Valid() && c.keys == keys.Value()
      && After(u, steps) == Spot(c, reader.data, writer.data, sends)
    }

    ghost predicate Over(e: SshError) reads this, writer {
      After(u, steps).output == writer.data && GivesUp(u, After(u, steps), e)
    }

    constructor (u: Setup)
      ensures At(CLIENT_START) && steps == 0 && this.u == u
      ensures fresh(reader) && fresh(writer) && fresh(keys.Repr())
    {
      this.u := u;
      var rd := new ByteStream();
      rd.WriteAll(u.input);
      reader := rd;
      writer := new ByteStream();
      keys := new SessionKeys();
      sends, steps := 0, 0;
      new;
      assert [] + u.input == u.input;
    }

    method Say(p: Packet, ghost c: Client) returns (r: Result<()>, ghost c': Client)
      requires At(c) && ClientSending(c.pc) && p == ClientPacket(u.s, u.cfg, c.pc) && !c.pc.CNewkeysOut?
      modifies this, writer, keys, keys.Repr()
      ensures keys.Repr() == old(keys.Repr()) && (r.Err? ==> Over(r.error))
      ensures r.Ok? ==> At(c') && c' == c.(pc := ClientNext(c.pc), keys := c'.keys)
    {
      hide Seal, ClientPacket, ClientNext, After, Onward;
      SendStep(u, After(u, steps), p);
      AfterOne(u, steps);
      r := SendPacket(u.s, writer, p, keys, u.padding(sends));
      steps := steps + 1;
      if r.Ok? {
        sends := sends + 1;
      }
      c' := After(u, steps).party;
    }

    method Hear(ghost c: Client) returns (r: Result<Packet>, ghost c': Client)
      requires At(c) && ClientReceiving(c.pc)
      modifies this, reader, keys, keys.Repr()
      ensures keys.Repr() == old(keys.Repr()) && (r.Err? ==> Over(r.error))
      ensures r.Ok? ==> At(c') && c' == ClientHandles(u.s, u.cfg, c, r.value).(keys := c'.keys)
    {
      hide Open, ClientHandles, After, Onward, GivesUp;
      ghost var a := After(u, steps);
      ReceiveStep(u, a, Returned(Open(u.s, a.party.keys.RecvHalf(), a.input).outcome));
      AfterOne(u, steps);
      r := RecvPacket(u.s, reader, keys);
      steps := steps + 1;
      c' := After(u, steps).party;
    }

    method Greet() returns (r: Result<str>, ghost c: Client)
      requires At(CLIENT_START) && steps == 0
      modifies this, reader, writer
      ensures keys.Repr() == old(keys.Repr()) && (r.Err? ==> Over(r.error))
      ensures r.Ok? ==> At(c) && c == CLIENT_START.(pc := CKexinitIn, serverVersion := r.value)
    {
      hide OwnVersion, Received, Consumed, Onward, GivesUp;
      GreetSteps(u);
      assert After(u, 0) == Spot(CLIENT_START, u.input, [], 0);
      hide After;
      SendVersionString(writer, OwnVersion());
      assert writer.data == OwnVersion() + CRLF by { assert [] + OwnVersion() == OwnVersion(); }
      r := RecvVersionString(reader);
      steps := 2;
      c := After(u, steps).party;
    }

    method Run() returns (r: Result<()>)
      requires At(CLIENT_START) && steps == 0
      modifies this, reader, writer, keys, keys.Repr()
      ensures fresh(keys.Repr() - old(keys.Repr()))
      ensures if r.Ok? then At(After(u, steps).party) && After(u, steps).party.pc.CAuthenticated? else Over(r.error)
    {
      hide At, Over;
      var version;
      ghost var c;
      version, c := Greet();
      if version.Err? {
        return Err(version.error);
      }
      var result;
      result, c := ExchangeKeys(version.value, c);
      if result.Err? {
        return Err(result.error);
      }
      r, c := SwitchKeys(result.value, c);
      if r.Err? {
        return;
      }
      r, c := Authenticate(c);
      if r.Ok? {
        Standing(c);
      }
    }

    lemma Standing(c: Client)
      requires At(c)
      ensures After(u, steps).party == c
    {
    }

    /** A client that has failed has given up. */
    lemma Failing(c: Client)
      requires At(c) && c.pc.CFailed?
      ensures Over(c.pc.error)
    {
    }

    method ExchangeKeys(version: str, ghost c0: Client) returns (r: Result<KexResult>, ghost c: Client)
      requires At(c0) && c0.pc.CKexinitIn? && c0.serverVersion == version
      modifies this, reader, writer, keys, keys.Repr()
      ensures keys.Repr() == old(keys.Repr()) && (r.Err? ==> Over(r.error))
      ensures r.Ok? ==> At(c) && c.pc.CNewkeysIn? && c.result == r.value
    {
      hide At, Over, ClientHandles, ClientPacket, ClientNext, ClientCompletes, KexinitPayload, EncString, OwnVersion,
        ParseReply;
      var offer, sent;
      offer, c := Hear(c0);
      if offer.Err? {
        return Err(offer.error), c;
      }
      ClientRefuses(u.s, u.cfg, c0, offer.value);
      ClientHandlesPlain(u.s, u.cfg, c0, offer.value);
      if offer.value.msgType != KEXINIT {
        Failing(c);
        return Err(Protocol("Expected KEXINIT from server")), c;
      }
      var kexinit := BuildKexinitPayload(u.cfg.cookie);
      ClientSays(u.s, u.cfg, CKexinitOut);
      sent, c := Say(Packet(KEXINIT, kexinit), c);
      if sent.Err? {
        return Err(sent.error), c;
      }
      ClientSays(u.s, u.cfg, CEcdhOut);
      sent, c := Say(Packet(KEX_ECDH_INIT, EncString(u.s.publicKey(u.cfg.secret))), c);
      if sent.Err? {
        return Err(sent.error), c;
      }
      r, c := TakeReply(version, offer.value.payload, kexinit, c);
    }

    method TakeReply(version: str, serverKexinit: bytes, kexinit: bytes, ghost c0: Client)
      returns (r: Result<KexResult>, ghost c: Client)
      requires At(c0) && c0.pc.CReplyIn? && c0.serverVersion == version && c0.serverKexinit == serverKexinit
      requires kexinit == KexinitPayload(u.cfg.cookie)
      modifies this, reader, keys, keys.Repr()
      ensures keys.Repr() == old(keys.Repr()) && (r.Err? ==> Over(r.error))
      ensures r.Ok? ==> At(c) && c.pc.CNewkeysIn? && c.result == r.value
    {
      hide At, Over, ClientHandles, ClientCompletes, KexinitPayload, OwnVersion, ParseReply;
      var reply;
      reply, c := Hear(c0);
      if reply.Err? {
        return Err(reply.error), c;
      }
      ClientRefuses(u.s, u.cfg, c0, reply.value);
      if reply.value.msgType != KEX_ECDH_REPLY {
        Failing(c);
        return Err(Protocol("Expected KEX_ECDH_REPLY")), c;
      }
      var fields := ReadReply(reply.value.payload);
      if fields.Err? {
        Failing(c);
        return Err(fields.error), c;
      }
      ClientHandlesReply(u.s, u.cfg, c0, reply.value);
      var result := Complete(version, serverKexinit, kexinit, fields.value.0, fields.value.1, c0);
      r := Ok(result);
    }

    method Complete(version: str, serverKexinit: bytes, kexinit: bytes, hostKey: bytes, serverPub: bytes,
                    ghost c: Client)
      returns (result: KexResult)
      requires c.serverVersion == version && c.serverKexinit == serverKexinit && kexinit == KexinitPayload(u.cfg.cookie)
      ensures result == ClientCompletes(u.s, u.cfg, c, hostKey, serverPub)
    {
      hide ClientResult, OwnVersion, KexinitPayload;
      var kex := new KexClient(u.s, u.cfg.secret);
      var completed := kex.Complete(u.s, serverPub, OwnVersion(), version, [KEXINIT] + kexinit,
                                    [KEXINIT] + serverKexinit, hostKey);
      result := completed.value;
    }

    /** NEWKEYS in, NEWKEYS out, and the keys installed. */
    method SwitchKeys(result: KexResult, ghost c0: Client) returns (r: Result<()>, ghost c: Client)
      requires At(c0) && c0.pc.CNewkeysIn? && c0.result == result
      modifies this, reader, writer, keys, keys.Repr()
      ensures fresh(keys.Repr() - old(keys.Repr())) && (r.Err? ==> Over(r.error))
      ensures r.Ok? ==> At(c) && c.pc.CServiceOut?
    {
      hide At, Over, ClientHandles;
      var newkeys;
      newkeys, c := Hear(c0);
      if newkeys.Err? {
        return Err(newkeys.error), c;
      }
      ClientRefuses(u.s, u.cfg, c0, newkeys.value);
      ClientHandlesPlain(u.s, u.cfg, c0, newkeys.value);
      if newkeys.value.msgType != NEWKEYS {
        Failing(c);
        return Err(Protocol("Expected NEWKEYS")), c;
      }
      r, c := SendNewkeys(result, c);
    }

    method SendNewkeys(result: KexResult, ghost c0: Client) returns (r: Result<()>, ghost c: Client)
      requires At(c0) && c0.pc.CNewkeysOut? && c0.result == result
      modifies this, writer, keys, keys.Repr()
      ensures fresh(keys.Repr() - old(keys.Repr())) && (r.Err? ==> Over(r.error))
      ensures r.Ok? ==> At(c) && c.pc.CServiceOut?
    {
      hide Seal, ClientPacket, ClientNext, After, Onward, ClientInstall, KexinitPayload, EncString,
        ServiceRequest, PasswordPayload, Ascii;
      ClientSays(u.s, u.cfg, CNewkeysOut);
      SendStep(u, After(u, steps), Packet(NEWKEYS, []));
      AfterOne(u, steps);
      r := SendPacket(u.s, writer, Packet(NEWKEYS, []), keys, u.padding(sends));
      steps := steps + 1;
      c := After(u, steps).party;
      if r.Ok? {
        sends := sends + 1;
        DeriveAndInstall(result);
      }
    }

    method DeriveAndInstall(result: KexResult)
      requires keys.Valid()
      modifies keys
      ensures fresh(keys.Repr() - {keys}) && keys.Valid()
      ensures keys.Value() == ClientInstall(u.s, old(keys.Value()), result)
    {
      hide DerivedKey;
      var k, h := result.secret, result.hash;
      var ivCs := DeriveKey(u.s, k, h, 'A' as int, h, 16);
      var ivSc := DeriveKey(u.s, k, h, 'B' as int, h, 16);
      var encCs := DeriveKey(u.s, k, h, 'C' as int, h, 32);
      var encSc := DeriveKey(u.s, k, h, 'D' as int, h, 32);
      var macCs := DeriveKey(u.s, k, h, 'E' as int, h, 32);
      var macSc := DeriveKey(u.s, k, h, 'F' as int, h, 32);
      keys.Install(h, NewCipher(encCs, ivCs).value, NewCipher(encSc, ivSc).value, macCs, macSc);
    }

    method Authenticate(ghost c0: Client) returns (r: Result<()>, ghost c: Client)
      requires At(c0) && c0.pc.CServiceOut?
      modifies this, reader, writer, keys, keys.Repr()
      ensures keys.Repr() == old(keys.Repr()) && (r.Err? ==> Over(r.error))
      ensures r.Ok? ==> At(c) && c.pc.CAuthenticated?
    {
      hide At, Over, ClientHandles, ClientPacket, ClientNext, ServiceRequest, PasswordPayload, Ascii;
      ClientSays(u.s, u.cfg, CServiceOut);
      r, c := Say(ServiceRequest(Ascii("ssh-userauth")), c0);
      if r.Err? {
        return;
      }
      ghost var c1 := c;
      var accept;
      accept, c := Hear(c1);
      if accept.Err? {
        return Err(accept.error), c;
      }
      ClientRefuses(u.s, u.cfg, c1, accept.value);
      ClientHandlesPlain(u.s, u.cfg, c1, accept.value);
      if accept.value.msgType != SERVICE_ACCEPT {
        Failing(c);
        return Err(Protocol("Expected SERVICE_ACCEPT")), c;
      }
      r, c := LogIn(c);
    }

    method LogIn(ghost c0: Client) returns (r: Result<()>, ghost c: Client)
      requires At(c0) && c0.pc.CAuthOut?
      modifies this, reader, writer, keys, keys.Repr()
      ensures keys.Repr() == old(keys.Repr()) && (r.Err? ==> Over(r.error))
      ensures r.Ok? ==> At(c) && c.pc.CAuthenticated?
    {
      hide At, Over, ClientHandles, ClientPacket, ClientNext, PasswordPayload, Ascii, KexinitPayload, EncString,
        ServiceRequest, ParseReply;
      ClientSays(u.s, u.cfg, CAuthOut);
      var request := BuildPasswordAuthRequest(u.cfg.user, Ascii("ssh-connection"), u.cfg.password);
      r, c := Say(request, c0);
      if r.Err? {
        return;
      }
      ghost var c1 := c;
      var answer;
      answer, c := Hear(c1);
      if answer.Err? {
        return Err(answer.error), c;
      }
      ClientRefuses(u.s, u.cfg, c1, answer.value);
      ClientHandlesPlain(u.s, u.cfg, c1, answer.value);
      if answer.value.msgType == USERAUTH_SUCCESS {
        r := Ok(());
      } else if answer.value.msgType == USERAUTH_FAILURE {
        Failing(c);
        r := Err(AuthFailed("Authentication rejected by server"));
      } else {
        Failing(c);
        r := Err(Protocol("Unexpected auth response"));
      }
    }
  }

  method ReadReply(payload: bytes) returns (r: Result<(bytes, bytes)>)
    ensures r == ParseReply(payload)
  {
    hide TakeString;
    var cursor := new Cursor(payload);
    var hostKey :- cursor.ReadString();
    var serverPub :- cursor.ReadString();
    var signature :- cursor.ReadString();
    if |serverPub| != 32 {
      return Err(KeyExchange("Invalid server public key length"));
    }
    r := Ok((hostKey, serverPub));
  }

  lemma AfterOne(u: Setup, n: nat)
    ensures After(u, n + 1) == Onward(u, After(u, n))
  {
  }

  /** After `n` steps the client has written `output` and ends with `r`. */
  predicate EndsWith(u: Setup, n: nat, r: Result<()>, output: bytes) {
    && After(u, n).output == output
    && match r
       case Ok(_) => After(u, n).party.pc.CAuthenticated?
       case Err(e) => GivesUp(u, After(u, n), e)
  }

  /**
   `run_client` up to authentication, on any input: it writes what a run of `ClientStep` writes and
   ends as that run ends.
   */
  method RunClient(u: Setup) returns (r: Result<()>, output: bytes)
    ensures exists n :: EndsWith(u, n, r, output)
  {
    hide After;
    var connection := new Connection(u);
    r := connection.Run();
    output := connection.writer.data;
    assert EndsWith(u, connection.steps, r, output);
  }
}
