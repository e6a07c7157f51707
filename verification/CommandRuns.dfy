/**
 A command from end to end: what the client asks for is what the server runs, and what the command
 writes is what the client prints.
 */
module CommandRuns {
  import opened Bytes
  import opened Wire
  import opened Packets
  import opened Crypto
  import opened Transport
  import opened Version
  import opened Kex
  import opened Channels
  import opened Messages
  import opened SftpHandler
  import opened Session
  import opened Server
  import opened ClientCommand
  import opened Traffic
  import opened Conduct
  import SR = ServerRuns
  import Fifo

  function Confirm(): Packet { OpenConfirmation(0, 0, DEFAULT_WINDOW_SIZE, DEFAULT_MAX_PACKET) }

  function Output(output: str): Packet { Packet(CHANNEL_DATA, DataPayload(ChannelDataMsg(0, output))) }

  /** The server's channels once the client's first channel is open. */
  function OneChannel(): Manager {
    EMPTY_MANAGER.Accepted(0, Ascii("session"), DEFAULT_WINDOW_SIZE, DEFAULT_MAX_PACKET)
  }

  // ---------------------------------------------------------------- the server

  lemma ServerOpens(st: State, w: Outside)
    ensures PlanFor(EMPTY_MANAGER, st, OpenPacket(), w)
         == Plan([Effect(OpensChannel(0, SessionMsg(0))), Secured(Confirm())], Continue)
    ensures forall m :: ChannelsAfter(EMPTY_MANAGER, OpenPacket(), m) <==> m == OneChannel()
    ensures SftpAfter(st, OpenPacket(), w) == st
  {
    hide OpenPayload, ParseOpen, Ascii, BE32;
    OpenRoundTrip(SessionMsg(0), []);
    assert OpenPayload(SessionMsg(0)) + [] == OpenPayload(SessionMsg(0));
  }

  /** The command that was asked for is run, and its output follows in full. */
  lemma ServerRuns(st: State, command: str, w: Outside)
    requires Readable(command)
    ensures PlanFor(OneChannel(), st, ExecPacket(0, command), w)
         == Plan([Effect(RunsCommand(command, w.aftermath(st.disk))), Secured(Notice(CHANNEL_SUCCESS, 0)),
                  Secured(Output(w.output)), Secured(Notice(CHANNEL_EOF, 0)), Secured(Notice(CHANNEL_CLOSE, 0))],
                 Continue)
  {
    ExecIsPlanned(OneChannel(), st, command, w);
    hide *;
    FirstIsKnown();
    var q := ParseRequest(ExecPacket(0, command).payload).value;
    ExecPlan(OneChannel(), q, command, w.output, w.aftermath(st.disk));
  }

  lemma ExecIsPlanned(m: Manager, st: State, command: str, w: Outside)
    requires Readable(command)
    ensures var r := ParseRequest(ExecPacket(0, command).payload);
            && r.Ok? && r.value.recipientChannel == 0 && r.value.wantReply
            && TakeUtf8(r.value.data) == Ok(Parsed(command, []))
            && PlanFor(m, st, ExecPacket(0, command), w) == PlanExec(m, r.value, w.output, w.aftermath(st.disk))
  {
    hide RequestPayload, ParseRequest, TakeUtf8, Ascii, PlanExec;
    ExecRoundTrip(0, command, true);
  }

  lemma FirstIsKnown()
    ensures Known(OneChannel(), 0)
  {
    assert OneChannel().Matches(0, 0);
  }

  lemma ExecPlan(m: Manager, q: ChannelRequestMsg, command: str, output: str, files: Disk)
    requires q.recipientChannel == 0 && q.wantReply && TakeUtf8(q.data) == Ok(Parsed(command, [])) && Known(m, 0)
    ensures PlanExec(m, q, output, files)
         == Plan([Effect(RunsCommand(command, files)), Secured(Notice(CHANNEL_SUCCESS, 0)), Secured(Output(output)),
                  Secured(Notice(CHANNEL_EOF, 0)), Secured(Notice(CHANNEL_CLOSE, 0))], Continue)
  {
    hide TakeUtf8, BE32, DataPayload, Known;
  }

  // ---------------------------------------------------------------- the client

  /** A packet at the front of the stream is reacted to, and then the rest. */
  lemma HearsOne(s: Suite, h: Half, p: Packet, rnd: bytes, rest: bytes)
    requires Seal(s, h, p, rnd).Ok?
    ensures var x := Seal(s, h, p, rnd).value;
            var later := Listened(s, x.half, rest);
            Listened(s, h, x.wire + rest) == match React(p)
              case Closes => Hearing([], Ok(true))
              case Breaks(e) => Hearing([], Err(e))
              case Ignores => later
              case Prints(data) => Prepended(data, later)
  {
    OpenInvertsSeal(s, h, p, rnd, rest);
    hide Seal, Open, React;
    var x := Seal(s, h, p, rnd).value;
    assert (x.wire + rest)[|x.wire|..] == rest;
  }

  lemma Reactions(output: str)
    requires Readable(output)
    ensures React(Notice(CHANNEL_SUCCESS, 0)) == Ignores && React(Output(output)) == Prints(output)
    ensures React(Notice(CHANNEL_EOF, 0)) == Ignores && React(Notice(CHANNEL_CLOSE, 0)) == Closes
  {
    hide DataPayload, ParseData, BE32, TakeExtended;
    DataRoundTrip(ChannelDataMsg(0, output), []);
    assert DataPayload(ChannelDataMsg(0, output)) + [] == DataPayload(ChannelDataMsg(0, output));
  }

  lemma SmallSeals(s: Suite, h: Half, p: Packet, rnd: bytes)
    requires FitsPacket(p)
    ensures Seal(s, h, p, rnd).Ok?
  {
    hide Seal;
    SealGoes(s, h, p, rnd);
  }

  /** What the server sends once the command has run. */
  function Replies(output: str): seq<Packet> {
    [Notice(CHANNEL_SUCCESS, 0), Output(output), Notice(CHANNEL_EOF, 0), Notice(CHANNEL_CLOSE, 0)]
  }

  /** Packets padded one after the other from a source. */
  function Queued(ps: seq<Packet>, padding: nat -> bytes, n: nat): seq<Fifo.Sent>
    decreases |ps|
  {
    if ps == [] then [] else [Fifo.Sent(ps[0], padding(n))] + Queued(ps[1..], padding, n + 1)
  }

  /** The output as `HearsOne` reads it off the packets, one reaction after the other. */
  function HearingOf(ps: seq<Packet>, later: Hearing): Hearing
    decreases |ps|
  {
    if ps == [] then later else
      match React(ps[0])
      case Closes => Hearing([], Ok(true))
      case Breaks(e) => Hearing([], Err(e))
      case Ignores => HearingOf(ps[1..], later)
      case Prints(data) => Prepended(data, HearingOf(ps[1..], later))
  }

  /** Packets that fit go onto the wire one after the other, and are reacted to in that order. */
  lemma {:induction false} ClientHears(s: Suite, h: Half, ps: seq<Packet>, padding: nat -> bytes, n: nat, rest: bytes)
    requires forall p :: p in ps ==> FitsPacket(p)
    ensures var q := Queued(ps, padding, n);
            && Fifo.Sealable(s, h, q)
            && Listened(s, h, Fifo.Frames(s, h, q) + rest) == HearingOf(ps, Listened(s, Fifo.HalfAfter(s, h, q), rest))
    decreases |ps|
  {
    hide Seal, React, Listened;
    if ps == [] {
      assert [] + rest == rest;
    } else {
      SmallSeals(s, h, ps[0], padding(n));
      var x := Seal(s, h, ps[0], padding(n)).value;
      ClientHears(s, x.half, ps[1..], padding, n + 1, rest);
      FirstFrame(s, h, ps, padding, n);
      var later := Fifo.Frames(s, x.half, Queued(ps[1..], padding, n + 1));
      HearsOne(s, h, ps[0], padding(n), later + rest);
      assert x.wire + later + rest == x.wire + (later + rest);
    }
  }

  /** SUCCESS, output, EOF and CLOSE are heard as the output and a close. */
  lemma RepliesAreHeard(output: str, later: Hearing)
    requires Readable(output)
    ensures HearingOf(Replies(output), later) == Hearing(output, Ok(true))
  {
    hide React, Output;
    Reactions(output);
    var ps := Replies(output);
    var ps1, ps2, ps3 := ps[1..], ps[1..][1..], ps[1..][1..][1..];
    assert ps1 == [ps[1], ps[2], ps[3]] && ps2 == [ps[2], ps[3]] && ps3 == [ps[3]];
    assert HearingOf(ps3, later) == Hearing([], Ok(true)) && HearingOf(ps2, later) == HearingOf(ps3, later);
    assert output + [] == output;
    assert HearingOf(ps1, later) == Hearing(output, Ok(true));
  }

  lemma SuccessIsHeard(output: str, later: Hearing)
    ensures HearingOf(Replies(output)[..1], later) == later
  {
    hide Output, BE32, ParseData, TakeExtended;
    assert Replies(output)[..1][1..] == [];
  }

  lemma OutputSize(output: str)
    ensures |Output(output).payload| == |output| + 8
  {
  }

  /** The answer to the client's open is its confirmation, and leaves what follows. */
  lemma ClientOpens(s: Suite, h: Half, rnd: bytes, rest: bytes)
    ensures Seal(s, h, Confirm(), rnd).Ok?
    ensures var x := Seal(s, h, Confirm(), rnd).value;
            && Answer(s, h, x.wire + rest) == Ok(Confirmation(0, DEFAULT_WINDOW_SIZE, DEFAULT_MAX_PACKET))
            && Open(s, h, x.wire + rest).half == x.half && (x.wire + rest)[Open(s, h, x.wire + rest).used..] == rest
  {
    hide Seal, Open, BE32, TakeU32;
    SmallSeals(s, h, Confirm(), rnd);
    OpenInvertsSeal(s, h, Confirm(), rnd, rest);
    var b3 := BE32(DEFAULT_MAX_PACKET);
    var b2 := BE32(DEFAULT_WINDOW_SIZE) + b3;
    var b1 := BE32(0) + b2;
    assert Confirm().payload == BE32(0) + b1;
    TakeU32Inverts(Confirm().payload, 0, b1);
    TakeU32Inverts(b1, 0, b2);
    TakeU32Inverts(b2, DEFAULT_WINDOW_SIZE, b3);
    assert b3 + [] == b3;
    TakeU32Inverts(b3, DEFAULT_MAX_PACKET, []);
    var x := Seal(s, h, Confirm(), rnd).value;
    assert (x.wire + rest)[|x.wire|..] == rest;
  }

  // ---------------------------------------------------------------- the channel loop on the client's bytes

  /** The link after further events. */
  function Played(s: Suite, env: Env, k: Link, events: seq<Event>): Option<Link>
    decreases |events|
  {
    if events == [] then Some(k)
    else
      match Transfer(s, env, k, events[0])
      case None => None
      case Some(k') => Played(s, env, k', events[1..])
  }

  lemma {:induction false} PlayedConcat(s: Suite, env: Env, k: Link, a: seq<Event>, b: seq<Event>)
    ensures Played(s, env, k, a + b)
         == match Played(s, env, k, a) case None => None case Some(k') => Played(s, env, k', b)
    decreases |a|
  {
    hide Transfer;
    if a == [] {
      assert a + b == b;
    } else {
      assert (a + b)[1..] == a[1..] + b;
      var k' := Transfer(s, env, k, a[0]);
      if k'.Some? {
        PlayedConcat(s, env, k'.value, a[1..], b);
      }
    }
  }

  /** A replay goes on from any point of its log. */
  lemma {:induction false} ReplayGoesOn(s: Suite, env: Env, input: bytes, log: seq<Event>, m: nat)
    requires m <= |log| && Replay(s, env, input, log[..m]).Some?
    ensures Replay(s, env, input, log) == Played(s, env, Replay(s, env, input, log[..m]).value, log[m..])
    decreases |log| - m
  {
    hide Transfer, Replay;
    var k := Replay(s, env, input, log[..m]).value;
    if m == |log| {
      assert log[..m] == log;
    } else {
      ReplayAppend(s, env, input, log[..m], log[m]);
      assert log[..m] + [log[m]] == log[..m + 1];
      assert log[m..][1..] == log[m + 1..];
      if Transfer(s, env, k, log[m]).Some? {
        ReplayGoesOn(s, env, input, log, m + 1);
      } else {
        Ruined(s, env, input, log, m + 1);
      }
    }
  }

  lemma {:induction false} Ruined(s: Suite, env: Env, input: bytes, log: seq<Event>, m: nat)
    requires m <= |log| && Replay(s, env, input, log[..m]).None?
    ensures Replay(s, env, input, log).None?
  {
    if Replay(s, env, input, log).Some? {
      SR.ReplayPrefix(s, env, input, log, m);
    }
  }

  lemma OutputGrows(s: Suite, env: Env, k: Link, e: Event)
    requires Transfer(s, env, k, e).Some?
    ensures k.output <= Transfer(s, env, k, e).value.output
  {
    hide Seal, Open, ServerInstall, OwnVersion, Received, Consumed;
  }

  lemma {:induction false} OutputOnlyGrows(s: Suite, env: Env, k: Link, events: seq<Event>)
    requires Played(s, env, k, events).Some?
    ensures k.output <= Played(s, env, k, events).value.output
    decreases |events|
  {
    hide Transfer;
    if events != [] {
      OutputGrows(s, env, k, events[0]);
      OutputOnlyGrows(s, env, Transfer(s, env, k, events[0]).value, events[1..]);
    }
  }

  function Securing(ps: seq<Packet>): seq<Event>
    decreases |ps|
  {
    if ps == [] then [] else [Secured(ps[0])] + Securing(ps[1..])
  }

  /** What is sent goes onto the wire as the frames of a queue. */
  lemma {:induction false} SendsAreFrames(s: Suite, env: Env, k: Link, ps: seq<Packet>)
    requires Protects(k.keys) && forall p :: p in ps ==> FitsPacket(p)
    ensures var h, q := k.keys.SendHalf(), Queued(ps, env.padding, k.sends);
            && Fifo.Sealable(s, h, q)
            && var k' := Played(s, env, k, Securing(ps));
            && k'.Some? && k'.value.output == k.output + Fifo.Frames(s, h, q) && k'.value.input == k.input
            && k'.value.sends == k.sends + |ps| && k'.value.keys.SendHalf() == Fifo.HalfAfter(s, h, q)
            && k'.value.keys.RecvHalf() == k.keys.RecvHalf() && Protects(k'.value.keys)
    decreases |ps|
  {
    hide Seal, Transfer, Protects, FitsPacket;
    if ps == [] {
      assert k.output + [] == k.output;
    } else {
      var rnd := env.padding(k.sends);
      SmallSeals(s, k.keys.SendHalf(), ps[0], rnd);
      var x := Seal(s, k.keys.SendHalf(), ps[0], rnd).value;
      Sending(s, env, k, ps[0], x);
      SendMovesOn(s, k.keys, ps[0], rnd);
      var k' := Transfer(s, env, k, Secured(ps[0])).value;
      FirstPlayed(s, env, k, ps, k');
      SendsAreFrames(s, env, k', ps[1..]);
      FirstFrame(s, k.keys.SendHalf(), ps, env.padding, k.sends);
      hide Played, Securing, Queued, Fifo.Sealable, Fifo.Frames, Fifo.HalfAfter;
      var later := Fifo.Frames(s, x.half, Queued(ps[1..], env.padding, k.sends + 1));
      assert k.output + x.wire + later == k.output + (x.wire + later);
    }
  }

  lemma FirstPlayed(s: Suite, env: Env, k: Link, ps: seq<Packet>, k': Link)
    requires ps != [] && Transfer(s, env, k, Secured(ps[0])) == Some(k')
    ensures Played(s, env, k, Securing(ps)) == Played(s, env, k', Securing(ps[1..]))
  {
    hide Transfer;
    assert Securing(ps)[1..] == Securing(ps[1..]);
  }

  lemma FirstFrame(s: Suite, h: Half, ps: seq<Packet>, padding: nat -> bytes, n: nat)
    requires ps != [] && Seal(s, h, ps[0], padding(n)).Ok?
    requires Fifo.Sealable(s, Seal(s, h, ps[0], padding(n)).value.half, Queued(ps[1..], padding, n + 1))
    ensures var x := Seal(s, h, ps[0], padding(n)).value;
            var q, q' := Queued(ps, padding, n), Queued(ps[1..], padding, n + 1);
            && Fifo.Sealable(s, h, q) && Fifo.Frames(s, h, q) == x.wire + Fifo.Frames(s, x.half, q')
            && Fifo.HalfAfter(s, h, q) == Fifo.HalfAfter(s, x.half, q')
  {
    hide Seal;
    var q := Queued(ps, padding, n);
    assert q[0] == Fifo.Sent(ps[0], padding(n)) && q[1..] == Queued(ps[1..], padding, n + 1);
  }

  /** The loop takes the packet in front of it. */
  lemma TakesNext(s: Suite, env: Env, a: Point, k: Link, p: Packet, rnd: bytes, rest: bytes,
                  events: seq<Event>, r: Result<()>, z: Point)
    requires Protects(k.keys) && Seal(s, k.keys.RecvHalf(), p, rnd).Ok?
    requires k.input == Seal(s, k.keys.RecvHalf(), p, rnd).value.wire + rest
    requires Played(s, env, k, events).Some? && Serves(env, a, events, r, z)
    ensures events != [] && events[0] == Recvd(p, true) && Turns(env, a, events, r, z)
    ensures var k' := k.(keys := k.keys.WithRecv(Seal(s, k.keys.RecvHalf(), p, rnd).value.half), input := rest);
            && Protects(k'.keys) && k'.keys.SendHalf() == k.keys.SendHalf()
            && k'.keys.RecvHalf() == Seal(s, k.keys.RecvHalf(), p, rnd).value.half
            && Played(s, env, k', events[1..]) == Played(s, env, k, events)
  {
    hide Seal, Open, Turns;
    OpenInvertsSeal(s, k.keys.RecvHalf(), p, rnd, rest);
    HalfMovesOn(s, k.keys, k.input);
    var x := Seal(s, k.keys.RecvHalf(), p, rnd).value;
    assert (x.wire + rest)[|x.wire|..] == rest;
    assert events[0].Lost? || events[0].Recvd?;
  }

  /** The packets up to the first that does not fit. */
  function Fitting(ps: seq<Packet>): (r: seq<Packet>)
    ensures r <= ps && forall p :: p in r ==> FitsPacket(p)
    decreases |ps|
  {
    if ps == [] || !FitsPacket(ps[0]) then [] else [ps[0]] + Fitting(ps[1..])
  }

  lemma {:induction false} SendsUntil(ps: seq<Packet>)
    ensures Until(Securing(ps)) == Securing(Fitting(ps))
    ensures Securing(Fitting(ps)) == Securing(ps) <==> Fitting(ps) == ps
    decreases |ps|
  {
    if ps != [] {
      SendsUntil(ps[1..]);
      assert Securing(ps)[1..] == Securing(ps[1..]);
      if FitsPacket(ps[0]) {
        assert Fitting(ps)[1..] == Fitting(ps[1..]);
        assert Securing(Fitting(ps))[1..] == Securing(Fitting(ps[1..]));
        assert ps == [ps[0]] + ps[1..];
      }
    }
  }

  lemma PlanUntil(e: EffectKind, ps: seq<Packet>)
    ensures var plan := Plan([Effect(e)] + Securing(ps), Continue);
            && Until(plan.events) == [Effect(e)] + Securing(Fitting(ps))
            && Ending(plan) == if Fitting(ps) == ps then Continue else Fail(PACKET_TOO_LARGE)
  {
    SendsUntil(ps);
    hide Securing, Fitting;
    var events := [Effect(e)] + Securing(ps);
    assert events[1..] == Securing(ps);
    assert ([Effect(e)] + Securing(Fitting(ps)))[1..] == Securing(Fitting(ps));
  }

  /** Where the link is after an effect and some sends. */
  ghost predicate Written(s: Suite, env: Env, k: Link, ps: seq<Packet>, k': Link) {
    var h, q := k.keys.SendHalf(), Queued(ps, env.padding, k.sends);
    && Fifo.Sealable(s, h, q)
    && k'.output == k.output + Fifo.Frames(s, h, q) && k'.sends == k.sends + |ps|
    && k'.keys.SendHalf() == Fifo.HalfAfter(s, h, q) && Protects(k'.keys)
  }

  /** A packet that makes the loop act and answer: all of it is done, up to an answer that does not fit. */
  lemma TakesTurn(s: Suite, env: Env, a: Point, k: Link, p: Packet, rnd: bytes, rest: bytes,
                  e: EffectKind, ps: seq<Packet>, events: seq<Event>, r: Result<()>, z: Point)
    returns (k': Link, more: seq<Event>, b: Point)
    requires Protects(k.keys) && Seal(s, k.keys.RecvHalf(), p, rnd).Ok?
    requires k.input == Seal(s, k.keys.RecvHalf(), p, rnd).value.wire + rest
    requires Played(s, env, k, events).Some? && Serves(env, a, events, r, z)
    requires Answered(env, a, p) == Plan([Effect(e)] + Securing(ps), Continue)
    ensures events == [Recvd(p, true), Effect(e)] + Securing(Fitting(ps)) + more
    ensures Written(s, env, k, Fitting(ps), k') && Played(s, env, k', more) == Played(s, env, k, events)
    ensures Protects(k'.keys) && k'.input == rest && k'.keys.RecvHalf() == Seal(s, k.keys.RecvHalf(), p, rnd).value.half
    ensures Moves(env, a, p, b)
    ensures if Fitting(ps) == ps then Serves(env, b, more, r, z) else more == [] && r == Err(PACKET_TOO_LARGE) && b == z
  {
    hide *;
    TakesNext(s, env, a, k, p, rnd, rest, events, r, z);
    PlanUntil(e, ps);
    b := Turned(env, a, events, r, z);
    var done := [Effect(e)] + Securing(Fitting(ps));
    more := events[1 + |done|..];
    var heard := k.(keys := k.keys.WithRecv(Seal(s, k.keys.RecvHalf(), p, rnd).value.half), input := rest);
    assert events[1..] == done + more;
    k' := PlaysOut(s, env, heard, e, Fitting(ps), more);
    SameWriter(s, env, k, heard, Fitting(ps), k');
    assert events == [Recvd(p, true)] + events[1..];
    TooLarge();
  }

  lemma TooLarge()
    ensures Concluding(Fail(PACKET_TOO_LARGE)) == Err(PACKET_TOO_LARGE)
  {
  }

  lemma SameWriter(s: Suite, env: Env, k: Link, heard: Link, ps: seq<Packet>, k': Link)
    requires Written(s, env, heard, ps, k')
    requires heard.keys.SendHalf() == k.keys.SendHalf() && heard.output == k.output && heard.sends == k.sends
    ensures Written(s, env, k, ps, k')
  {
    hide Seal;
  }

  lemma PlaysOut(s: Suite, env: Env, k: Link, e: EffectKind, ps: seq<Packet>, more: seq<Event>) returns (k': Link)
    requires Protects(k.keys) && forall p :: p in ps ==> FitsPacket(p)
    ensures Written(s, env, k, ps, k') && Protects(k'.keys) && k'.input == k.input
    ensures k'.keys.RecvHalf() == k.keys.RecvHalf()
    ensures Played(s, env, k, [Effect(e)] + Securing(ps) + more) == Played(s, env, k', more)
  {
    hide Seal, Protects, Played, Securing, Queued, FitsPacket;
    assert [Effect(e)] + Securing(ps) + more == [Effect(e)] + (Securing(ps) + more);
    EffectPlays(s, env, k, e, Securing(ps) + more);
    SendsAreFrames(s, env, k, ps);
    PlayedConcat(s, env, k, Securing(ps), more);
    k' := Played(s, env, k, Securing(ps)).value;
  }

  lemma EffectPlays(s: Suite, env: Env, k: Link, e: EffectKind, more: seq<Event>)
    ensures Played(s, env, k, [Effect(e)] + more) == Played(s, env, k, more)
  {
    assert ([Effect(e)] + more)[1..] == more;
  }

  /** Where a turn of the loop leads. */
  lemma Turned(env: Env, a: Point, events: seq<Event>, r: Result<()>, z: Point) returns (b: Point)
    requires events != [] && events[0].Recvd? && Turns(env, a, events, r, z)
    ensures var p, plan := events[0].packet, Answered(env, a, events[0].packet);
            var done := Until(plan.events);
            && |events| > |done| && events[1..1 + |done|] == done && Moves(env, a, p, b)
            && if Ending(plan).Continue? then Serves(env, b, events[1 + |done|..], r, z)
               else events[1 + |done|..] == [] && r == Concluding(Ending(plan)) && b == z
  {
    hide Moves, Answered, Serves, Until, Ending;
    var p, plan := events[0].packet, Answered(env, a, events[0].packet);
    if Ending(plan).Continue? {
      b :| Moves(env, a, p, b) && Serves(env, b, events[1 + |Until(plan.events)|..], r, z);
    } else {
      b := z;
    }
  }

  // ---------------------------------------------------------------- what the client gets

  /** What there is to hear of a command: its output and a close, or nothing where that does not fit a packet. */
  function Hears(output: str): Hearing {
    if FitsPacket(Output(output)) then Hearing(output, Ok(true)) else Hearing([], Ok(false))
  }

  lemma HearsIs(output: str)
    ensures Hears(output) == if FitsPacket(Output(output)) then Hearing(output, Ok(true)) else Hearing([], Ok(false))
  {
    hide FitsPacket, Output;
  }

  /** The reply confirms the channel and goes on with what there is to hear of the command. */
  ghost predicate Delivered(s: Suite, h: Half, reply: bytes, output: str) {
    var o := Open(s, h, reply);
    && Answer(s, h, reply) == Ok(Confirmation(0, DEFAULT_WINDOW_SIZE, DEFAULT_MAX_PACKET))
    && Listened(s, o.half, reply[o.used..]) == Hears(output)
  }

  lemma FittingReplies(output: str)
    ensures Fitting(Replies(output)) == if FitsPacket(Output(output)) then Replies(output) else Replies(output)[..1]
    ensures Fitting(Replies(output)) == Replies(output) <==> FitsPacket(Output(output))
    ensures FitsPacket(Output(output)) ==> Readable(output)
  {
    OutputSize(output);
    hide Output, BE32;
    var ps := Replies(output);
    assert ps[1..] == [ps[1], ps[2], ps[3]] && ps[1..][1..] == [ps[2], ps[3]] && ps[1..][1..][1..] == [ps[3]];
    assert Fitting(ps[1..][1..][1..]) == [ps[3]];
    assert Fitting(ps[1..][1..]) == [ps[2], ps[3]];
  }

  lemma SilenceIsClosed(s: Suite, h: Half)
    ensures Listened(s, h, []) == Hearing([], Ok(false))
  {
  }

  /** What goes out in answer to a command is heard as its output. */
  lemma OutputIsHeard(s: Suite, h: Half, output: str, padding: nat -> bytes, n: nat, rest: bytes)
    requires FitsPacket(Output(output)) || rest == []
    ensures var q := Queued(Fitting(Replies(output)), padding, n);
            Fifo.Sealable(s, h, q) && Listened(s, h, Fifo.Frames(s, h, q) + rest) == Hears(output)
  {
    HearsIs(output);
    hide *;
    var ps := Fitting(Replies(output));
    FittingReplies(output);
    ClientHears(s, h, ps, padding, n, rest);
    var h' := Fifo.HalfAfter(s, h, Queued(ps, padding, n));
    if FitsPacket(Output(output)) {
      RepliesAreHeard(output, Listened(s, h', rest));
    } else {
      SuccessIsHeard(output, Listened(s, h', rest));
      SilenceIsClosed(s, h');
    }
  }

  lemma ConfirmedFirst(s: Suite, env: Env, k: Link, k': Link, later: bytes, output: str)
    requires Written(s, env, k, [Confirm()], k')
    requires Listened(s, k'.keys.SendHalf(), later) == Hears(output)
    ensures k.output <= k'.output && Delivered(s, k.keys.SendHalf(), k'.output[|k.output|..] + later, output)
  {
    var h, rnd := k.keys.SendHalf(), env.padding(k.sends);
    ClientOpens(s, h, rnd, later);
    hide Seal, Open, Answer, Listened, Hears;
    var x := Seal(s, h, Confirm(), rnd).value;
    OneFrame(s, h, Confirm(), env.padding, k.sends);
    hide Queued;
    assert k'.output[|k.output|..] == x.wire;
  }

  lemma OneFrame(s: Suite, h: Half, p: Packet, padding: nat -> bytes, n: nat)
    requires Seal(s, h, p, padding(n)).Ok?
    ensures var q, x := Queued([p], padding, n), Seal(s, h, p, padding(n)).value;
            Fifo.Sealable(s, h, q) && Fifo.Frames(s, h, q) == x.wire && Fifo.HalfAfter(s, h, q) == x.half
  {
    hide Seal;
    var q, x := Queued([p], padding, n), Seal(s, h, p, padding(n)).value;
    assert [p][1..] == [] && Queued([p][1..], padding, n + 1) == [];
    assert q == [Fifo.Sent(p, padding(n))] + [] && q[1..] == [] && x.wire + [] == x.wire;
    assert Fifo.Frames(s, x.half, q[1..]) == [];
  }

  /** The client's two requests, as they go out. */
  function Requested(command: str, rnd: bytes, rnd': bytes): seq<Fifo.Sent> {
    [Fifo.Sent(OpenPacket(), rnd), Fifo.Sent(ExecPacket(0, command), rnd')]
  }

  lemma RequestedFrames(s: Suite, h: Half, command: str, rnd: bytes, rnd': bytes)
    requires Fifo.Sealable(s, h, Requested(command, rnd, rnd'))
    ensures Seal(s, h, OpenPacket(), rnd).Ok?
    ensures var x := Seal(s, h, OpenPacket(), rnd).value;
            && Seal(s, x.half, ExecPacket(0, command), rnd').Ok?
            && Fifo.Frames(s, h, Requested(command, rnd, rnd'))
                 == x.wire + Seal(s, x.half, ExecPacket(0, command), rnd').value.wire
    ensures Readable(command)
  {
    hide Seal, OpenPacket, ExecPacket;
    var q := Requested(command, rnd, rnd');
    assert q[1..] == [q[1]] && q[1..][1..] == [];
    var x := Seal(s, h, OpenPacket(), rnd).value;
    var y := Seal(s, x.half, ExecPacket(0, command), rnd').value;
    assert Fifo.Sealable(s, x.half, q[1..]);
    assert Fifo.Frames(s, x.half, q[1..]) == y.wire by { assert y.wire + [] == y.wire; }
    SealGoes(s, x.half, ExecPacket(0, command), rnd');
    ExecSize(command);
  }

  lemma ExecSize(command: str)
    ensures |ExecPacket(0, command).payload| >= |command|
  {
    hide Ascii;
  }

  /** What a session does when a command is asked for. */
  function CommandEvents(command: str, files: Disk, output: str): seq<Event> {
    [Recvd(OpenPacket(), true), Effect(OpensChannel(0, SessionMsg(0)))] + Securing([Confirm()])
    + ([Recvd(ExecPacket(0, command), true), Effect(RunsCommand(command, files))] + Securing(Fitting(Replies(output))))
  }

  lemma AnsweredIs(env: Env, a: Point, p: Packet)
    ensures Answered(env, a, p) == PlanFor(a.channels, a.state, p, env.outside(a.turn + 1))
  {
    hide PlanFor;
  }

  lemma ConfirmAlone()
    ensures Securing([Confirm()]) == [Secured(Confirm())] && Fitting([Confirm()]) == [Confirm()]
  {
    hide BE32;
    assert [Confirm()][1..] == [] && Securing([Confirm()][1..]) == [];
  }

  lemma OpenAnswered(env: Env, st: State)
    ensures Answered(env, Point(0, EMPTY_MANAGER, st), OpenPacket())
         == Plan([Effect(OpensChannel(0, SessionMsg(0)))] + Securing([Confirm()]), Continue)
    ensures Fitting([Confirm()]) == [Confirm()]
  {
    hide *;
    AnsweredIs(env, Point(0, EMPTY_MANAGER, st), OpenPacket());
    ServerOpens(st, env.outside(1));
    ConfirmAlone();
  }

  lemma Opens(env: Env, st: State, b: Point)
    requires Moves(env, Point(0, EMPTY_MANAGER, st), OpenPacket(), b)
    ensures b == Point(1, OneChannel(), st)
  {
    ServerOpens(st, env.outside(1));
    hide ChannelsAfter, SftpAfter, OpenPacket;
  }

  lemma ExecAnswered(env: Env, st: State, command: str)
    requires Readable(command)
    ensures var w := env.outside(2);
            Answered(env, Point(1, OneChannel(), st), ExecPacket(0, command))
              == Plan([Effect(RunsCommand(command, w.aftermath(st.disk)))] + Securing(Replies(w.output)), Continue)
  {
    hide *;
    var w := env.outside(2);
    AnsweredIs(env, Point(1, OneChannel(), st), ExecPacket(0, command));
    ServerRuns(st, command, w);
    SecuringReplies(w.output);
  }

  lemma SecuringReplies(output: str)
    ensures Securing(Replies(output)) == [Secured(Notice(CHANNEL_SUCCESS, 0)), Secured(Output(output)),
                                          Secured(Notice(CHANNEL_EOF, 0)), Secured(Notice(CHANNEL_CLOSE, 0))]
  {
    hide Output, BE32;
    var ps := Replies(output);
    assert ps[1..] == [ps[1], ps[2], ps[3]] && ps[1..][1..] == [ps[2], ps[3]] && ps[1..][1..][1..] == [ps[3]];
    assert Securing(ps[1..][1..][1..]) == [Secured(ps[3])];
    assert Securing(ps[1..][1..]) == [Secured(ps[2]), Secured(ps[3])];
  }

  /** The first request alone is enough for the channel to be confirmed. */
  lemma OpenServed(s: Suite, env: Env, k: Link, st: State, rnd: bytes, rest: bytes, events: seq<Event>, r: Result<()>,
                   z: Point)
    requires Protects(k.keys) && Seal(s, k.keys.RecvHalf(), OpenPacket(), rnd).Ok?
    requires k.input == Seal(s, k.keys.RecvHalf(), OpenPacket(), rnd).value.wire + rest
    requires Played(s, env, k, events).Some? && Serves(env, Point(0, EMPTY_MANAGER, st), events, r, z)
    ensures var end := Played(s, env, k, events).value;
            && k.output <= end.output
            && Answer(s, k.keys.SendHalf(), end.output[|k.output|..])
                 == Ok(Confirmation(0, DEFAULT_WINDOW_SIZE, DEFAULT_MAX_PACKET))
  {
    hide *;
    OpenAnswered(env, st);
    var k1, more, b := TakesTurn(s, env, Point(0, EMPTY_MANAGER, st), k, OpenPacket(), rnd, rest,
                                 OpensChannel(0, SessionMsg(0)), [Confirm()], events, r, z);
    OutputOnlyGrows(s, env, k1, more);
    var end := Played(s, env, k1, more).value;
    AnsweredFirst(s, env, k, k1, end.output[|k1.output|..]);
    assert end.output[|k.output|..] == k1.output[|k.output|..] + end.output[|k1.output|..];
  }

  lemma AnsweredFirst(s: Suite, env: Env, k: Link, k': Link, later: bytes)
    requires Written(s, env, k, [Confirm()], k')
    ensures k.output <= k'.output
         && Answer(s, k.keys.SendHalf(), k'.output[|k.output|..] + later)
              == Ok(Confirmation(0, DEFAULT_WINDOW_SIZE, DEFAULT_MAX_PACKET))
  {
    var h, rnd := k.keys.SendHalf(), env.padding(k.sends);
    ClientOpens(s, h, rnd, later);
    hide Seal, Open, Answer;
    OneFrame(s, h, Confirm(), env.padding, k.sends);
    hide Queued;
    assert k'.output[|k.output|..] == Seal(s, h, Confirm(), rnd).value.wire;
  }

  lemma BothTurns(command: str, files: Disk, output: str, events: seq<Event>, more: seq<Event>, last: seq<Event>)
    requires events
          == [Recvd(OpenPacket(), true), Effect(OpensChannel(0, SessionMsg(0)))] + Securing([Confirm()]) + more
    requires more == [Recvd(ExecPacket(0, command), true), Effect(RunsCommand(command, files))]
                     + Securing(Fitting(Replies(output))) + last
    ensures CommandEvents(command, files, output) <= events
  {
    hide Securing, Fitting, OpenPacket, ExecPacket, Replies;
    assert events == CommandEvents(command, files, output) + last;
  }

  /** All that is written after the confirmation is heard. */
  lemma Concludes(s: Suite, env: Env, k: Link, k1: Link, k2: Link, output: str, last: seq<Event>)
    requires Written(s, env, k, [Confirm()], k1) && Written(s, env, k1, Fitting(Replies(output)), k2)
    requires Played(s, env, k2, last).Some? && (FitsPacket(Output(output)) || last == [])
    ensures var end := Played(s, env, k2, last).value;
            k.output <= end.output && Delivered(s, k.keys.SendHalf(), end.output[|k.output|..], output)
  {
    hide Seal, Queued, Replies, Fitting, Output, FitsPacket, Listened, Delivered, Transfer;
    OutputOnlyGrows(s, env, k2, last);
    var end := Played(s, env, k2, last).value;
    var h := k1.keys.SendHalf();
    var frames := Fifo.Frames(s, h, Queued(Fitting(Replies(output)), env.padding, k1.sends));
    var rest := end.output[|k2.output|..];
    OutputIsHeard(s, h, output, env.padding, k1.sends, rest);
    ConfirmedFirst(s, env, k, k1, frames + rest, output);
    assert end.output == k1.output + (frames + rest);
    assert end.output[|k.output|..] == k1.output[|k.output|..] + (frames + rest);
  }

  /**
   The channel loop on a client's request for a command: the channel is opened, exactly that command is run,
   and the client hears exactly what the command wrote.
   */
  lemma CommandServed(s: Suite, env: Env, k: Link, st: State, command: str, rnd: bytes, rnd': bytes, rest: bytes,
                      events: seq<Event>, r: Result<()>, z: Point)
    requires Protects(k.keys) && Fifo.Sealable(s, k.keys.RecvHalf(), Requested(command, rnd, rnd'))
    requires k.input == Fifo.Frames(s, k.keys.RecvHalf(), Requested(command, rnd, rnd')) + rest
    requires Played(s, env, k, events).Some? && Serves(env, Point(0, EMPTY_MANAGER, st), events, r, z)
    ensures var w, end := env.outside(2), Played(s, env, k, events).value;
            && CommandEvents(command, w.aftermath(st.disk), w.output) <= events
            && k.output <= end.output && Delivered(s, k.keys.SendHalf(), end.output[|k.output|..], w.output)
            && (!FitsPacket(Output(w.output)) ==> r == Err(PACKET_TOO_LARGE))
  {
    hide *;
    var w := env.outside(2);
    RequestedFrames(s, k.keys.RecvHalf(), command, rnd, rnd');
    var x := Seal(s, k.keys.RecvHalf(), OpenPacket(), rnd).value;
    var y := Seal(s, x.half, ExecPacket(0, command), rnd').value;
    assert x.wire + y.wire + rest == x.wire + (y.wire + rest);
    var a := Point(0, EMPTY_MANAGER, st);
    OpenAnswered(env, st);
    var k1, more1, b := TakesTurn(s, env, a, k, OpenPacket(), rnd, y.wire + rest, OpensChannel(0, SessionMsg(0)),
                                  [Confirm()], events, r, z);
    Opens(env, st, b);
    ExecAnswered(env, st, command);
    var k2, more2, c := TakesTurn(s, env, b, k1, ExecPacket(0, command), rnd', rest,
                                  RunsCommand(command, w.aftermath(st.disk)), Replies(w.output), more1, r, z);
    FittingReplies(w.output);
    BothTurns(command, w.aftermath(st.disk), w.output, events, more1, more2);
    Concludes(s, env, k, k1, k2, w.output, more2);
  }
}
