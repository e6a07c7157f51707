/**
 The part of the server's log up to authentication, and the server of the two-party model: what the
 routine does, read and written bytes included, is a run of `ServerStep`.
 */
module ServerRuns {
  import opened Bytes
  import opened Wire
  import opened Packets
  import opened Crypto
  import opened Transport
  import opened Version
  import opened Kex
  import opened Auth
  import opened Channels
  import opened SftpHandler
  import opened H = Handshake
  import opened Session
  import opened Server
  import opened Traffic
  import opened Conduct

  datatype Setup = Setup(s: Suite, cfg: ServerConfig, env: Env, input: bytes)

  function Onward(u: Setup, a: Spot<H.Server>): Spot<H.Server> {
    Advanced(u.s, a, ServerStep(u.s, u.cfg, a.party, a.input, u.env.padding(a.sends)))
  }

  /** Where the server is after `n` steps, if all of the client's bytes are there. */
  function After(u: Setup, n: nat): Spot<H.Server> {
    if n == 0 then Spot(SERVER_START, u.input, [], 0) else Onward(u, After(u, n - 1))
  }

  /** From `a` the server gives up with `e`: it has failed, or the stream ends where it would have to wait. */
  predicate StopsAt(u: Setup, a: Spot<H.Server>, e: SshError) {
    || a.party.pc == SFailed(e)
    || ((a.party.pc.SVersionIn? || ServerReceiving(a.party.pc))
        && CutOff(u.s, a.party.keys, a.input, a.party.pc.SVersionIn?, e))
  }

  /** The model installs the keys in the step that takes NEWKEYS, the routine right after it. */
  function Standing(s: Suite, k: Shake, link: Link): Spot<H.Server> {
    var keys := if k.v.pc.SServiceIn? && !k.installed then ServerInstall(s, link.keys, k.v.result) else link.keys;
    Spot(k.v.(keys := keys), link.input, link.output, link.sends)
  }

  predicate Broke(e: Event) { e.Lost? || (e.Greeted? && e.version.Err?) }

  function ErrorOf(e: Event): SshError
    requires Broke(e)
  {
    if e.Lost? then e.error else e.version.error
  }

  /** The log has brought the routine to where `a` is. */
  predicate Agrees(u: Setup, log: seq<Event>, k: Shake, link: Link, a: Spot<H.Server>) {
    if log == [] then a == Spot(SERVER_START, u.input, [], 0)
    else if Broke(log[|log| - 1]) then a.output == link.output && StopsAt(u, a, ErrorOf(log[|log| - 1]))
    else a == Standing(u.s, k, link)
  }

  // ---------------------------------------------------------------- one event

  lemma SamePacket(s: Suite, cfg: ServerConfig, v: H.Server, keys: Keys)
    requires ServerSending(v.pc)
    ensures ServerPacket(s, cfg, v.(keys := keys)) == ServerPacket(s, cfg, v)
    ensures ServerNext(v.(keys := keys)) == ServerNext(v)
  {
    hide KexinitPayload, ReplyPayload, AuthFailure, ServiceAccept;
  }

  lemma SameCompletion(s: Suite, cfg: ServerConfig, v: H.Server, keys: Keys, pub: bytes)
    ensures ServerCompletes(s, cfg, v.(keys := keys), pub) == ServerCompletes(s, cfg, v, pub)
  {
    hide ServerResult, KexinitPayload, Ascii, OwnVersion;
  }

  /** What is done with a packet does not depend on the keys. */
  lemma SameHandling(s: Suite, cfg: ServerConfig, v: H.Server, keys: Keys, p: Packet)
    ensures ServerHandles(s, cfg, v.(keys := keys), p) == ServerHandles(s, cfg, v, p).(keys := keys)
  {
    hide ServerHandles, ParseAuthRequest, TakeString, TakeUtf8, ServerCompletes, Db.Accepts, ServerPacket, ServerNext;
    var v' := v.(keys := keys);
    match v.pc
    case SKexinitIn =>
      HandlesKexinit(s, cfg, v, p);
      HandlesKexinit(s, cfg, v', p);
    case SEcdhIn =>
      if TakeString(p.payload).Ok? {
        SameCompletion(s, cfg, v, keys, TakeString(p.payload).value.value);
      }
      HandlesEcdh(s, cfg, v, p);
      HandlesEcdh(s, cfg, v', p);
    case SNewkeysIn =>
      HandlesNewkeys(s, cfg, v, p);
      HandlesNewkeys(s, cfg, v', p);
    case SServiceIn =>
      HandlesService(s, cfg, v, p);
      HandlesService(s, cfg, v', p);
    case SAuthIn(_) =>
      HandlesAuthRequest(s, cfg, v, p);
      HandlesAuthRequest(s, cfg, v', p);
    case _ =>
      HandlesNothing(s, cfg, v, p);
      HandlesNothing(s, cfg, v', p);
  }

  /** Before NEWKEYS has been taken. */
  predicate Early(pc: ServerPc) {
    pc.SKexinitOut? || pc.SKexinitIn? || pc.SEcdhIn? || pc.SReplyOut? || pc.SNewkeysOut? || pc.SNewkeysIn?
  }

  predicate Greeting(pc: ServerPc) { pc.SVersionOut? || pc.SVersionIn? }

  /** From the service request on. */
  predicate Late(pc: ServerPc) { pc.SAcceptOut? || pc.SAuthIn? || pc.SAuthOut? || pc.SSession? }

  predicate Phased(k: Shake) {
    !Greeting(k.v.pc) && (k.installed ==> !Early(k.v.pc)) && (Late(k.v.pc) ==> k.installed)
  }

  lemma HandlingGoesOn(s: Suite, cfg: ServerConfig, v: H.Server, p: Packet)
    requires ServerReceiving(v.pc)
    ensures var v' := ServerHandles(s, cfg, v, p);
            && !Greeting(v'.pc) && (!Early(v.pc) ==> !Early(v'.pc)) && !v'.pc.SSession?
            && (v'.pc.SServiceIn? ==> v.pc.SNewkeysIn? && v'.result == v.result)
            && (Late(v'.pc) ==> v.pc.SServiceIn? || Late(v.pc))
  {
    hide ServerHandles, ParseAuthRequest, TakeString, TakeUtf8, ServerCompletes, Db.Accepts, ServerPacket, ServerNext;
    match v.pc
    case SKexinitIn => HandlesKexinit(s, cfg, v, p);
    case SEcdhIn => HandlesEcdh(s, cfg, v, p);
    case SNewkeysIn => HandlesNewkeys(s, cfg, v, p);
    case SServiceIn => HandlesService(s, cfg, v, p);
    case SAuthIn(_) => HandlesAuthRequest(s, cfg, v, p);
  }

  lemma SendingGoesOn(v: H.Server)
    requires ServerSending(v.pc)
    ensures var pc := ServerNext(v);
            !Greeting(pc) && (!Early(v.pc) ==> !Early(pc)) && !pc.SServiceIn? && (Late(pc) ==> Late(v.pc))
  {
  }

  lemma SteerGoesOn(s: Suite, cfg: ServerConfig, k: Shake, e: Event)
    requires Phased(k) && Steer(s, cfg, k, e).Some?
    ensures Phased(Steer(s, cfg, k, e).value) && !e.Greeted?
    ensures Broke(e) ==> Steer(s, cfg, k, e).value.v.pc == SFailed(ErrorOf(e))
  {
    hide ServerHandles, ServerPacket, ServerNext;
    if e.Recvd? {
      HandlingGoesOn(s, cfg, k.v, e.packet);
    } else if e.Sent? {
      SendingGoesOn(k.v);
    }
  }

  /** Installed keys stay installed. */
  lemma StaysKeyed(s: Suite, cfg: ServerConfig, env: Env, k: Shake, link: Link, e: Event)
    requires Steer(s, cfg, k, e).Some? && Transfer(s, env, link, e).Some?
    requires k.installed ==> link.keys.ciphers.Some?
    ensures Steer(s, cfg, k, e).value.installed ==> Transfer(s, env, link, e).value.keys.ciphers.Some?
  {
    hide ServerHandles, ServerPacket, ServerNext, Seal, Open, Received, Consumed, OwnVersion;
  }

  lemma SentIsStep(u: Setup, k: Shake, link: Link, p: Packet, secure: bool)
    requires Steer(u.s, u.cfg, k, Sent(p, secure)).Some? && Transfer(u.s, u.env, link, Sent(p, secure)).Some?
    ensures Onward(u, Standing(u.s, k, link))
         == Standing(u.s, Steer(u.s, u.cfg, k, Sent(p, secure)).value,
                     Transfer(u.s, u.env, link, Sent(p, secure)).value)
  {
    hide Seal, ServerPacket, ServerStep, ServerNext, Flat, ServerInstall, Obtains, ServerHandles;
    var h, rnd := link.keys.SendHalf(), u.env.padding(link.sends);
    var v := k.v.(keys := link.keys);
    SamePacket(u.s, u.cfg, k.v, link.keys);
    SendingGoesOn(k.v);
    ServerSendTurn(u.s, u.cfg, v, p, link.input, rnd);
    FlatItems(u.s, Framed(h, p, rnd));
    assert link.input[0..] == link.input;
  }

  lemma RecvdIsStep(u: Setup, k: Shake, link: Link, p: Packet, secure: bool)
    requires Phased(k)
    requires Steer(u.s, u.cfg, k, Recvd(p, secure)).Some? && Transfer(u.s, u.env, link, Recvd(p, secure)).Some?
    ensures Onward(u, Standing(u.s, k, link))
         == Standing(u.s, Steer(u.s, u.cfg, k, Recvd(p, secure)).value,
                     Transfer(u.s, u.env, link, Recvd(p, secure)).value)
  {
    var v := k.v.(keys := link.keys);
    SameHandling(u.s, u.cfg, k.v, link.keys, p);
    HandlingGoesOn(u.s, u.cfg, k.v, p);
    ServerReceiveTurn(u.s, u.cfg, v, link.input, u.env.padding(link.sends));
    FlatItems(u.s, Line([]));
    hide Open, ServerHandles, ServerStep, ServerInstall, Flat;
    assert link.output + [] == link.output;
  }

  lemma LostIsStop(u: Setup, k: Shake, link: Link, e: SshError)
    requires Steer(u.s, u.cfg, k, Lost(e)).Some? && Transfer(u.s, u.env, link, Lost(e)).Some?
    ensures var a := Onward(u, Standing(u.s, k, link));
            a.output == Transfer(u.s, u.env, link, Lost(e)).value.output && StopsAt(u, a, e)
  {
    ServerReceiveTurn(u.s, u.cfg, k.v.(keys := link.keys), link.input, u.env.padding(link.sends));
    FlatItems(u.s, Line([]));
    hide Open, ServerHandles, ServerStep, ServerInstall, Flat;
    assert link.output + [] == link.output;
  }

  lemma InstalledIsNoStep(u: Setup, k: Shake, link: Link, result: KexResult, k': Shake, link': Link)
    requires Steer(u.s, u.cfg, k, Installed(result)) == Some(k')
    requires Transfer(u.s, u.env, link, Installed(result)) == Some(link')
    ensures Standing(u.s, k, link) == Standing(u.s, k', link')
  {
    hide ServerInstall, ServerHandles, ServerPacket, Received, Delivers, Obtains;
  }

  /** The version lines are two steps. */
  lemma GreetedIsTwoSteps(u: Setup, version: Result<str>)
    requires version == Received(u.input)
    ensures var link := Transfer(u.s, u.env, Link(FRESH_KEYS, u.input, [], 0), Greeted(version)).value;
            var a := After(u, 2);
            if version.Ok? then a == Standing(u.s, AfterGreeting(version), link)
            else a.output == link.output && StopsAt(u, a, version.error)
  {
    Traffic.Greeting(u.s, u.env, Link(FRESH_KEYS, u.input, [], 0));
    SecondStep(u, version);
    hide Transfer, OwnVersion, Received, Consumed, After, ServerInstall, StopsAt;
    assert [] + OwnVersion() == OwnVersion();
  }

  lemma FirstStep(u: Setup)
    ensures After(u, 1) == Spot(SERVER_START.(pc := SVersionIn), u.input, OwnVersion() + CRLF, 0)
  {
    ServerGreetTurn(u.s, u.cfg, SERVER_START, u.input, u.env.padding(0));
    FlatItems(u.s, Line(OwnVersion()));
    hide ServerStep, OwnVersion, ScanFrom, Received, Consumed, Flat;
    NoSteps(u);
    AfterOne(u, 0);
    assert u.input[0..] == u.input && [] + (OwnVersion() + CRLF) == OwnVersion() + CRLF;
  }

  lemma SecondStep(u: Setup, version: Result<str>)
    requires version == Received(u.input)
    ensures var a := After(u, 2);
            && a.output == OwnVersion() + CRLF
            && if version.Err? then StopsAt(u, a, version.error)
               else a == Spot(SERVER_START.(pc := SKexinitOut, clientVersion := version.value),
                              u.input[Consumed(u.input)..], OwnVersion() + CRLF, 0)
  {
    var a := Spot(SERVER_START.(pc := SVersionIn), u.input, OwnVersion() + CRLF, 0);
    FirstStep(u);
    AfterOne(u, 1);
    ServerGreetTurn(u.s, u.cfg, a.party, u.input, u.env.padding(0));
    FlatItems(u.s, Line([]));
    hide ServerStep, OwnVersion, ScanFrom, Checked, Consumed, Flat, After;
    assert u.input[0..] == u.input && a.output + [] == a.output;
  }

  // ---------------------------------------------------------------- the whole log

  /** Every log that key exchange and authentication allow, and the input bears out, is a run of `ServerStep`. */
  lemma {:induction false} LogIsServerRun(u: Setup, log: seq<Event>) returns (n: nat)
    requires Steered(u.s, u.cfg, log).Some? && Replay(u.s, u.env, u.input, log).Some?
    ensures Agrees(u, log, Steered(u.s, u.cfg, log).value, Replay(u.s, u.env, u.input, log).value, After(u, n))
    ensures log != [] ==> Phased(Steered(u.s, u.cfg, log).value)
    ensures log != [] && Broke(log[|log| - 1]) ==>
      Steered(u.s, u.cfg, log).value.v.pc == SFailed(ErrorOf(log[|log| - 1]))
    ensures Steered(u.s, u.cfg, log).value.installed ==> Replay(u.s, u.env, u.input, log).value.keys.ciphers.Some?
    decreases |log|
  {
    hide Steer, Transfer, StopsAt, Standing, Onward, Phased, After;
    if log == [] {
      n := 0;
      NoSteps(u);
      return;
    }
    var m, e := |log| - 1, log[|log| - 1];
    var k := Steered(u.s, u.cfg, log[..m]).value;
    var link := Replay(u.s, u.env, u.input, log[..m]).value;
    if m == 0 {
      StaysKeyed(u.s, u.cfg, u.env, k, link, e);
      FirstEvent(u, e);
      n := 2;
      return;
    }
    n := LogIsServerRun(u, log[..m]);
    SteerGoesOn(u.s, u.cfg, k, e);
    StillGoing(u.s, u.cfg, k, e);
    StaysKeyed(u.s, u.cfg, u.env, k, link, e);
    EventIsStep(u, k, link, e);
    if !e.Installed? {
      AfterOne(u, n);
      n := n + 1;
    }
  }

  lemma NoSteps(u: Setup)
    ensures After(u, 0) == Spot(SERVER_START, u.input, [], 0)
  {
  }

  lemma AfterOne(u: Setup, n: nat)
    ensures After(u, n + 1) == Onward(u, After(u, n))
  {
  }

  lemma FirstEvent(u: Setup, e: Event)
    requires Steer(u.s, u.cfg, SHAKE_START, e).Some?
    requires Transfer(u.s, u.env, Link(FRESH_KEYS, u.input, [], 0), e).Some?
    ensures var k := Steer(u.s, u.cfg, SHAKE_START, e).value;
            var link := Transfer(u.s, u.env, Link(FRESH_KEYS, u.input, [], 0), e).value;
            && Agrees(u, [e], k, link, After(u, 2)) && Phased(k) && (Broke(e) ==> k.v.pc == SFailed(ErrorOf(e)))
  {
    hide Received, Consumed, OwnVersion, After, StopsAt, Standing, ServerHandles, ServerPacket, ServerNext, Delivers,
      Obtains;
    assert e.Greeted? && e.version == Received(u.input);
    GreetedIsTwoSteps(u, e.version);
  }

  lemma StillGoing(s: Suite, cfg: ServerConfig, k: Shake, e: Event)
    requires Steer(s, cfg, k, e).Some?
    ensures !k.v.pc.SFailed?
  {
    hide ServerHandles, ServerPacket, ServerNext;
  }

  lemma EventIsStep(u: Setup, k: Shake, link: Link, e: Event)
    requires Phased(k) && Steer(u.s, u.cfg, k, e).Some? && Transfer(u.s, u.env, link, e).Some? && !e.Greeted?
    ensures var k', link' := Steer(u.s, u.cfg, k, e).value, Transfer(u.s, u.env, link, e).value;
            var a := Standing(u.s, k, link);
            if Broke(e) then Onward(u, a).output == link'.output && StopsAt(u, Onward(u, a), ErrorOf(e))
            else (if e.Installed? then a else Onward(u, a)) == Standing(u.s, k', link')
  {
    hide Standing, Onward, Phased, StopsAt, Transfer;
    match e {
      case Sent(p, secure) => SentIsStep(u, k, link, p, secure);
      case Recvd(p, secure) => RecvdIsStep(u, k, link, p, secure);
      case Lost(error) => LostIsStop(u, k, link, error);
      case Installed(result) =>
        InstalledIsNoStep(u, k, link, result, Steer(u.s, u.cfg, k, e).value, Transfer(u.s, u.env, link, e).value);
      case Effect(_) => assert false;
    }
  }

  lemma {:induction false} ReplayPrefix(s: Suite, env: Env, input: bytes, log: seq<Event>, m: nat)
    requires m <= |log| && Replay(s, env, input, log).Some?
    ensures Replay(s, env, input, log[..m]).Some?
    decreases |log|
  {
    hide Transfer;
    if m < |log| {
      var n := |log| - 1;
      ReplayPrefix(s, env, input, log[..n], m);
      assert log[..n][..m] == log[..m];
    } else {
      assert log[..m] == log;
    }
  }

  // ---------------------------------------------------------------- where a session stops

  /** Of what the server sends before the session, only the name of the service can be too long. */
  lemma OnlyAcceptIsTooLarge(s: Suite, cfg: ServerConfig, v: H.Server)
    requires ServerSending(v.pc) && !v.pc.SAcceptOut?
    ensures FitsPacket(ServerPacket(s, cfg, v))
  {
    hide EncString, Ascii, KexinitPayload, ServiceAccept;
    KexinitLength(cfg.cookie);
    var m := [Ascii("password"), Ascii("publickey")];
    assert m[1..] == [Ascii("publickey")];
    assert |Join(m)| == 18;
  }

  /** A send that does not fit fails in the model too. */
  lemma StopsBeforeSend(u: Setup, k: Shake, link: Link)
    requires Phased(k) && ServerSending(k.v.pc) && !FitsPacket(ServerPacket(u.s, u.cfg, k.v))
    requires k.installed ==> link.keys.ciphers.Some?
    ensures var a := Onward(u, Standing(u.s, k, link));
            a.output == link.output && a.party.pc == SFailed(PACKET_TOO_LARGE)
  {
    var p, rnd := ServerPacket(u.s, u.cfg, k.v), u.env.padding(link.sends);
    var v := k.v.(keys := link.keys);
    if !k.v.pc.SAcceptOut? {
      OnlyAcceptIsTooLarge(u.s, u.cfg, k.v);
    }
    SamePacket(u.s, u.cfg, k.v, link.keys);
    SealGoes(u.s, link.keys.SendHalf(), p, rnd);
    ServerSendTurn(u.s, u.cfg, v, p, link.input, rnd);
    FlatItems(u.s, Line([]));
    hide Seal, ServerPacket, ServerStep, ServerNext, Flat, ServerInstall;
    assert link.output + [] == link.output;
  }

  /**
   So every session begins with such a run: either the run reaches the session, or the session ends where
   the run stops, with the same output and the same error.
   */
  lemma SessionBeginsAsServerRun(u: Setup, start: State, log: seq<Event>, r: Result<()>, z: Point)
    returns (m: nat, n: nat)
    requires Conforms(u.s, u.cfg, u.env, start, log, r, z) && Replay(u.s, u.env, u.input, log).Some?
    ensures m <= |log| && Steered(u.s, u.cfg, log[..m]).Some? && Replay(u.s, u.env, u.input, log[..m]).Some?
    ensures var k, link := Steered(u.s, u.cfg, log[..m]).value, Replay(u.s, u.env, u.input, log[..m]).value;
            if k.v.pc.SSession? then
              && After(u, n) == Spot(k.v.(keys := link.keys), link.input, link.output, link.sends)
              && Serves(u.env, Point(0, EMPTY_MANAGER, start), log[m..], r, z)
            else
              && m == |log| && r.Err? && StopsAt(u, After(u, n), r.error) && After(u, n).output == link.output
              && z == Point(0, EMPTY_MANAGER, start)
  {
    hide Steered, Serves, After, Replay, Phased, Agrees, GivesUp, StopsAt, Broke;
    m :| 0 <= m <= |log| && ConformsAt(u.s, u.cfg, u.env, start, log[..m], log[m..], r, z);
    ReplayPrefix(u.s, u.env, u.input, log, m);
    n := LogIsServerRun(u, log[..m]);
    var k, link := Steered(u.s, u.cfg, log[..m]).value, Replay(u.s, u.env, u.input, log[..m]).value;
    NotAtStart(u, log[..m]);
    if k.v.pc.SSession? {
      ReachesSession(u, log[..m], k, link, After(u, n));
    } else {
      n := StopsToo(u, log[..m], k, link, n, r.error);
    }
  }

  lemma NotAtStart(u: Setup, log: seq<Event>)
    ensures log == [] ==> Steered(u.s, u.cfg, log) == Some(SHAKE_START)
  {
  }

  lemma ReachesSession(u: Setup, log: seq<Event>, k: Shake, link: Link, a: Spot<H.Server>)
    requires Agrees(u, log, k, link, a) && k.v.pc.SSession? && log != []
    requires Broke(log[|log| - 1]) ==> k.v.pc == SFailed(ErrorOf(log[|log| - 1]))
    ensures a == Spot(k.v.(keys := link.keys), link.input, link.output, link.sends)
  {
    hide StopsAt, ServerInstall;
  }

  /** A log at which the server gives up ends where the run stops, at the latest one step on. */
  lemma StopsToo(u: Setup, log: seq<Event>, k: Shake, link: Link, n: nat, e: SshError) returns (n': nat)
    requires log == [] ==> k == SHAKE_START
    requires Agrees(u, log, k, link, After(u, n)) && (log != [] ==> Phased(k))
    requires log != [] && Broke(log[|log| - 1]) ==> k.v.pc == SFailed(ErrorOf(log[|log| - 1]))
    requires k.installed ==> link.keys.ciphers.Some?
    requires GivesUp(u.s, u.cfg, k.v, e)
    ensures StopsAt(u, After(u, n'), e) && After(u, n').output == link.output
  {
    hide After, Phased, ServerPacket, FitsPacket, CutOff, ServerInstall, Onward;
    n' := n;
    if !k.v.pc.SFailed? {
      StopsBeforeSend(u, k, link);
      AfterOne(u, n);
      n' := n + 1;
    }
  }
}
