/**
 What the server may do, event by event: `Steered` follows a log through key exchange and
 authentication, `Serves` through the channel loop, and `Conforms` is the whole of it.
 */
module Conduct {
  import opened Bytes
  import opened Wire
  import opened Packets
  import opened Crypto
  import opened Transport
  import opened Version
  import opened Kex
  import opened Auth
  import opened Channels
  import opened SftpHandler
  import H = Handshake
  import opened Session
  import opened Server
  import opened Traffic

  // ---------------------------------------------------------------- up to authentication

  /** Where the server is, and whether the keys are in place. */
  datatype Shake = Shake(v: H.Server, installed: bool) {
    function At(pc: H.ServerPc): Shake { this.(v := v.(pc := pc)) }

    predicate Awaits() {
      && H.ServerReceiving(v.pc)
      && (v.pc.SServiceIn? ==> installed)
    }
  }

  const SHAKE_START := Shake(H.SERVER_START.(pc := H.SVersionIn), false)

  function Steer(s: Suite, cfg: H.ServerConfig, k: Shake, e: Event): Option<Shake> {
    match e
    case Greeted(version) =>
      if !k.v.pc.SVersionIn? then None
      else
        (match version
         case Ok(line) => Some(k.(v := k.v.(pc := H.SKexinitOut, clientVersion := line)))
         case Err(error) => Some(k.At(H.SFailed(error))))
    case Sent(p, _) =>
      if H.ServerSending(k.v.pc) && p == H.ServerPacket(s, cfg, k.v) then Some(k.At(H.ServerNext(k.v))) else None
    case Recvd(p, _) => if k.Awaits() then Some(k.(v := H.ServerHandles(s, cfg, k.v, p))) else None
    case Lost(error) => if k.Awaits() then Some(k.At(H.SFailed(error))) else None
    case Installed(result) =>
      if k.v.pc.SServiceIn? && !k.installed && result == k.v.result then Some(k.(installed := true)) else None
    case Effect(_) => None
  }

  function Steered(s: Suite, cfg: H.ServerConfig, log: seq<Event>): Option<Shake>
    decreases |log|
  {
    if log == [] then Some(SHAKE_START)
    else
      match Steered(s, cfg, log[..|log| - 1])
      case None => None
      case Some(k) => Steer(s, cfg, k, log[|log| - 1])
  }

  lemma SteeredAppend(s: Suite, cfg: H.ServerConfig, log: seq<Event>, e: Event)
    ensures Steered(s, cfg, log + [e])
         == match Steered(s, cfg, log) case None => None case Some(k) => Steer(s, cfg, k, e)
  {
    hide Steer;
    assert (log + [e])[..|log|] == log;
  }

  lemma SteeredByGreeting(s: Suite, cfg: H.ServerConfig, log: seq<Event>, version: Result<str>)
    requires Steered(s, cfg, log) == Some(SHAKE_START)
    ensures Steered(s, cfg, log + [Greeted(version)]) == Some(AfterGreeting(version))
  {
    SteeredAppend(s, cfg, log, Greeted(version));
    hide Steered, H.ServerHandles, H.ServerPacket, H.ServerNext;
  }

  function AfterGreeting(version: Result<str>): Shake {
    match version
    case Ok(line) => Shake(H.SERVER_START.(pc := H.SKexinitOut, clientVersion := line), false)
    case Err(e) => SHAKE_START.At(H.SFailed(e))
  }

  lemma SteeredByReceipt(s: Suite, cfg: H.ServerConfig, log: seq<Event>, k: Shake, r: Result<Packet>, secure: bool)
    requires Steered(s, cfg, log) == Some(k) && k.Awaits()
    ensures var k' := AfterReceipt(s, cfg, k, r);
            Steered(s, cfg, log + [Heard(r, secure)]) == Some(k') && !k'.v.pc.SSession?
  {
    SteeredAppend(s, cfg, log, Heard(r, secure));
    hide Steered;
    if r.Ok? {
      NoSessionYet(s, cfg, k.v, r.value);
    }
    hide H.ServerHandles;
  }

  function AfterReceipt(s: Suite, cfg: H.ServerConfig, k: Shake, r: Result<Packet>): Shake {
    match r
    case Ok(p) => k.(v := H.ServerHandles(s, cfg, k.v, p))
    case Err(e) => k.At(H.SFailed(e))
  }

  lemma NoSessionYet(s: Suite, cfg: H.ServerConfig, v: H.Server, p: Packet)
    requires !v.pc.SSession?
    ensures !H.ServerHandles(s, cfg, v, p).pc.SSession?
  {
    hide H.ServerCompletes, TakeString, TakeUtf8, ParseAuthRequest;
  }

  lemma SteeredByPacket(s: Suite, cfg: H.ServerConfig, log: seq<Event>, k: Shake, p: Packet, secure: bool)
    requires Steered(s, cfg, log) == Some(k) && H.ServerSending(k.v.pc) && p == H.ServerPacket(s, cfg, k.v)
    ensures Steered(s, cfg, log + [Sent(p, secure)]) == Some(k.At(H.ServerNext(k.v)))
    ensures H.ServerNext(k.v).SSession? <==> p.msgType == USERAUTH_SUCCESS
  {
    hide Steered, H.ServerPacket, H.ServerNext, H.ServerHandles;
    SteeredAppend(s, cfg, log, Sent(p, secure));
    NextSession(s, cfg, k.v);
  }

  /** The server's session begins with USERAUTH_SUCCESS. */
  lemma NextSession(s: Suite, cfg: H.ServerConfig, v: H.Server)
    requires H.ServerSending(v.pc)
    ensures H.ServerNext(v).SSession? <==> H.ServerPacket(s, cfg, v).msgType == USERAUTH_SUCCESS
  {
    hide KexinitPayload, H.ReplyPayload, EncString, Ascii, AuthFailure;
    AuthFailureType();
  }

  lemma AuthFailureType()
    ensures AuthFailure().msgType == USERAUTH_FAILURE
  {
  }

  /** What becomes of an authentication request, and what is sent in answer. */
  lemma HandlesRequest(s: Suite, cfg: H.ServerConfig, v: H.Server, p: Packet)
    requires v.pc.SAuthIn?
    ensures var v', k := H.ServerHandles(s, cfg, v, p), v.pc.refusals;
            if p.msgType != USERAUTH_REQUEST then v' == v.(pc := H.SFailed(Protocol("Expected USERAUTH_REQUEST"))) else
            match ParseAuthRequest(p.payload)
            case Err(e) => v' == v.(pc := H.SFailed(e))
            case Ok(req) =>
              && v' == v.(pc := H.SAuthOut(k), granted := cfg.db.Accepts(req))
              && H.ServerPacket(s, cfg, v') == (if v'.granted then AUTH_SUCCESS else AuthFailure())
              && (v'.granted <==> Credible(cfg.db, p)) && (v'.granted <==> Earns(cfg.db, p))
  {
    H.HandlesAuthRequest(s, cfg, v, p);
    CredibleIff(cfg.db, p);
    hide Earns, ParseAuthRequest, H.ServerHandles, H.ServerPacket, AuthFailure, Db.Accepts;
  }

  /** The error with which the server gives up: it has failed, or what it has to send does not fit a packet. */
  predicate GivesUp(s: Suite, cfg: H.ServerConfig, v: H.Server, e: SshError) {
    || v.pc == H.SFailed(e)
    || (H.ServerSending(v.pc) && e == PACKET_TOO_LARGE && !FitsPacket(H.ServerPacket(s, cfg, v)))
  }

  // ---------------------------------------------------------------- the channel loop

  /** The state between two messages. */
  datatype Point = Point(turn: nat, channels: Manager, state: State)

  ghost function Answered(env: Env, a: Point, p: Packet): Plan {
    PlanFor(a.channels, a.state, p, env.outside(a.turn + 1))
  }

  ghost predicate Moves(env: Env, a: Point, p: Packet, b: Point) {
    && b.turn == a.turn + 1
    && ChannelsAfter(a.channels, p, b.channels)
    && b.state == SftpAfter(a.state, p, env.outside(b.turn))
  }

  /** From `a` on the events are `events`, and the loop ends with `r` at `z`. */
  ghost predicate Serves(env: Env, a: Point, events: seq<Event>, r: Result<()>, z: Point)
    decreases |events|
  {
    && events != []
    && (events[0].Lost? ==> events == [events[0]] && r == Closing(events[0].error) && z == a)
    && (events[0].Lost? || (events[0].Recvd? && Turns(env, a, events, r, z)))
  }

  function Closing(e: SshError): Result<()> { if e == ConnectionClosed then Ok(()) else Err(e) }

  /** The result with which the loop ends when it does not go on. */
  function Concluding(next: Next): Result<()>
    requires !next.Continue?
  {
    if next.Stop? then Ok(()) else Err(next.error)
  }

  /** One message, everything it makes the server do, and the rest of the loop. */
  ghost predicate Turns(env: Env, a: Point, events: seq<Event>, r: Result<()>, z: Point)
    requires events != [] && events[0].Recvd?
    decreases |events|, 0
  {
    var p, plan := events[0].packet, Answered(env, a, events[0].packet);
    var done := Until(plan.events);
    && |events| > |done| && events[1..1 + |done|] == done
    && if Ending(plan).Continue? then exists b :: Moves(env, a, p, b) && Serves(env, b, events[1 + |done|..], r, z)
       else events[1 + |done|..] == [] && r == Concluding(Ending(plan)) && Moves(env, a, p, z)
  }

  /** Whatever goes on from `b` may follow `done` from `a`. */
  ghost predicate Leads(env: Env, a: Point, done: seq<Event>, b: Point) {
    forall rest, r, z :: Serves(env, b, rest, r, z) ==> Serves(env, a, done + rest, r, z)
  }

  lemma LeadsNowhere(env: Env, a: Point)
    ensures Leads(env, a, [], a)
  {
    hide Serves;
    assert forall rest: seq<Event> :: [] + rest == rest;
  }

  lemma TurnServes(env: Env, a: Point, p: Packet, secure: bool, b: Point, rest: seq<Event>, r: Result<()>, z: Point)
    requires Ending(Answered(env, a, p)) == Continue && Moves(env, a, p, b) && Serves(env, b, rest, r, z)
    ensures Serves(env, a, [Recvd(p, secure)] + Until(Answered(env, a, p).events) + rest, r, z)
  {
    hide Answered, Moves, Until, Ending;
    var done := Until(Answered(env, a, p).events);
    var events := [Recvd(p, secure)] + done + rest;
    assert events[1..1 + |done|] == done && events[1 + |done|..] == rest;
  }

  lemma LeadsOn(env: Env, a: Point, done: seq<Event>, b: Point, p: Packet, secure: bool, c: Point)
    requires Leads(env, a, done, b) && Ending(Answered(env, b, p)) == Continue && Moves(env, b, p, c)
    ensures Leads(env, a, done + [Recvd(p, secure)] + Until(Answered(env, b, p).events), c)
  {
    hide Serves, Answered, Moves, Until, Ending;
    var turn := [Recvd(p, secure)] + Until(Answered(env, b, p).events);
    forall rest, r, z | Serves(env, c, rest, r, z)
      ensures Serves(env, a, done + [Recvd(p, secure)] + Until(Answered(env, b, p).events) + rest, r, z)
    {
      TurnServes(env, b, p, secure, c, rest, r, z);
      assert done + (turn + rest) == done + [Recvd(p, secure)] + Until(Answered(env, b, p).events) + rest;
    }
  }

  lemma LastTurn(env: Env, a: Point, done: seq<Event>, b: Point, p: Packet, secure: bool, c: Point)
    requires Leads(env, a, done, b) && !Ending(Answered(env, b, p)).Continue? && Moves(env, b, p, c)
    ensures Serves(env, a, done + [Recvd(p, secure)] + Until(Answered(env, b, p).events),
                   if Ending(Answered(env, b, p)).Stop? then Ok(()) else Err(Ending(Answered(env, b, p)).error), c)
  {
    hide Answered, Until, Ending, Moves;
    var did := Until(Answered(env, b, p).events);
    var turn := [Recvd(p, secure)] + did;
    assert turn[1..1 + |did|] == did && turn[1 + |did|..] == [];
    assert Serves(env, b, turn, Concluding(Ending(Answered(env, b, p))), c);
    assert done + turn == done + [Recvd(p, secure)] + did;
  }

  lemma LosingEnds(env: Env, a: Point, done: seq<Event>, b: Point, e: SshError)
    requires Leads(env, a, done, b)
    ensures Serves(env, a, done + [Lost(e)], if e == ConnectionClosed then Ok(()) else Err(e), b)
  {
    assert Serves(env, b, [Lost(e)], Closing(e), b);
  }

  // ---------------------------------------------------------------- the whole connection

  ghost predicate Conforms(s: Suite, cfg: H.ServerConfig, env: Env, start: State, log: seq<Event>, r: Result<()>,
                           z: Point) {
    exists n :: 0 <= n <= |log| && ConformsAt(s, cfg, env, start, log[..n], log[n..], r, z)
  }

  /** `shaking` is the part of the log up to authentication; without it nothing is touched. */
  ghost predicate ConformsAt(s: Suite, cfg: H.ServerConfig, env: Env, start: State,
                             shaking: seq<Event>, serving: seq<Event>, r: Result<()>, z: Point) {
    match Steered(s, cfg, shaking)
    case None => false
    case Some(k) =>
      if k.v.pc.SSession? then Serves(env, Point(0, EMPTY_MANAGER, start), serving, r, z)
      else serving == [] && r.Err? && GivesUp(s, cfg, k.v, r.error) && z == Point(0, EMPTY_MANAGER, start)
  }
}
