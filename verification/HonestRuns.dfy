/**
 The two routines on each other's bytes: fed what the other end wrote in a finished handshake, each
 routine writes what its end wrote there, and ends as its end ended.
 */
module HonestRuns {
  import opened Bytes
  import opened Packets
  import opened Crypto
  import opened Transport
  import opened Version
  import opened Kex
  import opened Auth
  import opened Channels
  import opened SftpHandler
  import opened H = Handshake
  import opened HandshakeProof
  import opened HandshakeRuns
  import opened HandshakeStreams
  import opened Session
  import opened Server
  import opened Traffic
  import opened Conduct
  import SR = ServerRuns
  import SC = ServerConnection
  import CC = ClientConnection

  // ---------------------------------------------------------------- histories

  function Count(items: seq<Item>): nat { if items == [] then 0 else |items| - 1 }

  lemma CountIs(items: seq<Item>)
    ensures items != [] ==> Count(items) == |items| - 1
  {
  }

  /** The packets among the items were padded from this source, in order. */
  predicate Padded(items: seq<Item>, padding: nat -> bytes) {
    forall i :: 0 < i < |items| && items[i].Framed? ==> items[i].rnd == padding(i - 1)
  }

  lemma PaddedAt(items: seq<Item>, padding: nat -> bytes, i: nat)
    requires Padded(items, padding) && 0 < i < |items| && items[i].Framed?
    ensures items[i].rnd == padding(i - 1)
  {
  }

  lemma {:induction false} FlatConcat(s: Suite, a: seq<Item>, b: seq<Item>)
    ensures Flat(s, a + b) == Flat(s, a) + Flat(s, b)
    decreases |a|
  {
    hide ItemBytes;
    if a == [] {
      assert a + b == b;
    } else {
      FlatConcat(s, a[1..], b);
      assert (a + b)[1..] == a[1..] + b;
    }
  }

  lemma MoveGrows(p: Parties, w: World, m: Move)
    ensures w.cSent <= Moved(p, w, m).cSent && w.sSent <= Moved(p, w, m).sSent
  {
    hide ClientStep, ServerStep, Flat;
  }

  lemma {:induction false} HistoryGrows(p: Parties, w: World, moves: seq<Move>)
    ensures w.cSent <= RunMoves(p, w, moves).cSent && w.sSent <= RunMoves(p, w, moves).sSent
    decreases |moves|
  {
    hide Moved;
    if moves != [] {
      MoveGrows(p, w, moves[0]);
      HistoryGrows(p, Moved(p, w, moves[0]), moves[1..]);
    }
  }

  /** What is written from `w` to the end splits at the next move. */
  lemma RestSplits(s: Suite, all: seq<Item>, before: seq<Item>, item: Option<Item>)
    requires before + Items(item) <= all
    ensures Flat(s, all[|before|..]) == Flat(s, Items(item)) + Flat(s, all[|before + Items(item)|..])
  {
    hide Flat;
    FlatConcat(s, Items(item), all[|before + Items(item)|..]);
    assert all[|before|..] == Items(item) + all[|before + Items(item)|..];
  }

  lemma Regroup(a: bytes, b: bytes, c: bytes, d: bytes)
    ensures a + (b + c + d) == a + b + (c + d)
  {
  }

  // ---------------------------------------------------------------- the server

  /** The server of the world is at this spot, `rest` being what the client has yet to write. */
  predicate ServerThere(p: Parties, w: World, a: Spot<H.Server>, rest: bytes) {
    a == Spot(w.server, w.c2s + rest, Flat(p.s, w.sSent), Count(w.sSent))
  }

  lemma PaddingOnlyForSending(s: Suite, cfg: ServerConfig, v: H.Server, input: bytes, rnd: bytes, rnd': bytes)
    requires !ServerSending(v.pc)
    ensures ServerStep(s, cfg, v, input, rnd) == ServerStep(s, cfg, v, input, rnd')
  {
    hide ServerSends, ServerPacket, Receive, ServerHandles, KeysAfter, Received, Consumed, ScanFrom, OwnVersion;
  }

  /** A server that is to send is past its version line, and what it sends is an item. */
  lemma SendWrites(p: Parties, w: World, rnd: bytes)
    requires Inv(p, w) && ServerSending(w.server.pc)
    ensures |w.sSent| >= 1
    ensures var w' := ServerMove(p, w, rnd);
            |w'.sSent| == |w.sSent| + 1 && w'.sSent[|w.sSent|].Framed? && w'.sSent[|w.sSent|].rnd == rnd
    ensures var t := ServerStep(p.s, p.server, w.server, w.c2s, rnd);
            t.Some? && t.value.wrote.Some? && t.value.wrote.value.Framed?
  {
    ServerMoveKeeps(p, w, rnd);
    var v := w.server;
    ServerSendTurn(p.s, p.server, v, ServerPacket(p.s, p.server, v), w.c2s, rnd);
    SendingIsGreeted(p, v.pc, |w.sSent|, w.sGot);
    NoServerFails(p, ServerMove(p, w, rnd));
    hide ServerStep, ServerPacket, ServerNext, Seal, Flat, Inv;
  }

  lemma SendingIsGreeted(p: Parties, pc: ServerPc, n: nat, g: nat)
    requires ServerAt(p, pc, n, g) && ServerSending(pc)
    ensures n >= 1
  {
    hide Granted;
  }

  lemma NoServerFails(p: Parties, w: World)
    requires Inv(p, w)
    ensures !w.server.pc.SFailed?
  {
    hide ClientOk, IsSItem, ServerKeys, ServerAt, OwnVersion;
    ServerCounts(p, w.server.pc, |w.sSent|, w.sGot);
  }

  lemma FirstIsLine(p: Parties, w: World, rnd: bytes)
    requires Inv(p, w) && !ServerSending(w.server.pc)
    ensures var t := ServerStep(p.s, p.server, w.server, w.c2s, rnd);
            t.Some? && t.value.wrote.Some? ==> t.value.wrote.value.Line? && w.sSent == []
  {
    var v := w.server;
    if ServerReceiving(v.pc) {
      ServerReceiveTurn(p.s, p.server, v, w.c2s, rnd);
    } else if v.pc.SVersionOut? || v.pc.SVersionIn? {
      ServerGreetTurn(p.s, p.server, v, w.c2s, rnd);
      if v.pc.SVersionOut? {
        FirstServerStep(p, |w.sSent|, w.sGot);
      }
    } else {
      ServerEnded(p.s, p.server, v, w.c2s, rnd);
    }
  }

  lemma ServerMoveIsStep(p: Parties, u: SR.Setup, w: World, rnd: bytes, rest: bytes, a: Spot<H.Server>)
    requires Inv(p, w) && u.s == p.s && u.cfg == p.server && ServerThere(p, w, a, rest)
    requires Padded(ServerMove(p, w, rnd).sSent, u.env.padding)
    ensures ServerMove(p, w, rnd) == w || ServerThere(p, ServerMove(p, w, rnd), SR.Onward(u, a), rest)
  {
    hide Inv, ServerStep, Flat, Advanced, ServerMove, Padded;
    var input := w.c2s + rest;
    assert input[..|w.c2s|] == w.c2s;
    ServerPrefix(p, w.server, input, |w.c2s|, rnd);
    SamePadding(p, w, rnd, input, u.env.padding);
    ServerWrites(p, w, rnd);
    ServerAdvances(p, w, rnd, rest, a);
  }

  /** The step of the world draws the padding that is next. */
  lemma SamePadding(p: Parties, w: World, rnd: bytes, input: bytes, padding: nat -> bytes)
    requires Inv(p, w) && Padded(ServerMove(p, w, rnd).sSent, padding)
    ensures ServerStep(p.s, p.server, w.server, input, rnd)
         == ServerStep(p.s, p.server, w.server, input, padding(Count(w.sSent)))
    ensures var t := ServerStep(p.s, p.server, w.server, w.c2s, rnd);
            t.Some? && t.value.wrote.Some? ==> (t.value.wrote.value.Framed? <==> |w.sSent| >= 1)
  {
    hide *;
    if ServerSending(w.server.pc) {
      SendWrites(p, w, rnd);
      CountIs(w.sSent);
      PaddedAt(ServerMove(p, w, rnd).sSent, padding, |w.sSent|);
    } else {
      PaddingOnlyForSending(p.s, p.server, w.server, input, rnd, padding(Count(w.sSent)));
      FirstIsLine(p, w, rnd);
    }
  }

  lemma ServerWrites(p: Parties, w: World, rnd: bytes)
    ensures var t := ServerStep(p.s, p.server, w.server, w.c2s, rnd);
            if t.None? then ServerMove(p, w, rnd) == w
            else ServerMove(p, w, rnd).sSent == w.sSent + Items(t.value.wrote)
  {
    hide ServerStep, Flat;
  }

  lemma ServerAdvances(p: Parties, w: World, rnd: bytes, rest: bytes, a: Spot<H.Server>)
    requires ServerThere(p, w, a, rest)
    requires var t := ServerStep(p.s, p.server, w.server, w.c2s, rnd);
             t.Some? && t.value.wrote.Some? ==> (t.value.wrote.value.Framed? <==> |w.sSent| >= 1)
    ensures var t := ServerStep(p.s, p.server, w.server, w.c2s, rnd);
            t.Some? ==> t.value.used <= |a.input| && ServerThere(p, ServerMove(p, w, rnd), Advanced(p.s, a, t), rest)
  {
    hide ServerStep, Flat;
    var t := ServerStep(p.s, p.server, w.server, w.c2s, rnd);
    if t.Some? {
      FlatConcat(p.s, w.sSent, Items(t.value.wrote));
      assert (w.c2s + rest)[t.value.used..] == w.c2s[t.value.used..] + rest;
    }
  }

  /** The server of a world is where it gets by itself on all that the client writes. */
  lemma {:induction false} ServerOfWorld(p: Parties, u: SR.Setup, w: World, moves: seq<Move>, n: nat, after: bytes)
    returns (n': nat)
    requires p.s.Commutes() && Inv(p, w) && u.s == p.s && u.cfg == p.server
    requires w.cSent <= RunMoves(p, w, moves).cSent
    requires ServerThere(p, w, SR.After(u, n), Flat(p.s, RunMoves(p, w, moves).cSent[|w.cSent|..]) + after)
    requires Padded(RunMoves(p, w, moves).sSent, u.env.padding)
    ensures ServerThere(p, RunMoves(p, w, moves), SR.After(u, n'), after)
    decreases |moves|
  {
    hide ClientMove, ServerMove, Inv, ServerThere, SR.After, SR.Onward;
    var end := RunMoves(p, w, moves);
    if moves == [] {
      NothingLeft(p.s, w);
      assert [] + after == after;
      return n;
    }
    var w' := Moved(p, w, moves[0]);
    var rest := Flat(p.s, end.cSent[|w.cSent|..]) + after;
    MoveGrows(p, w, moves[0]);
    HistoryGrows(p, w', moves[1..]);
    RunKeeps(p, w, [moves[0]]);
    OneMove(p, w, moves[0]);
    n' := n;
    match moves[0] {
      case ServerMoves(rnd) =>
        assert Padded(w'.sSent, u.env.padding);
        ServerMoveIsStep(p, u, w, rnd, rest, SR.After(u, n));
        SameClientHistory(p, w, rnd);
        if w' != w {
          SR.AfterOne(u, n);
          n' := n + 1;
        }
      case ClientMoves(rnd) => ClientWritesAhead(p, w, rnd, end.cSent, after, SR.After(u, n));
    }
    n' := ServerOfWorld(p, u, w', moves[1..], n', after);
  }

  lemma NothingLeft(s: Suite, w: World)
    ensures Flat(s, w.cSent[|w.cSent|..]) == [] && Flat(s, w.sSent[|w.sSent|..]) == []
  {
  }

  lemma SameClientHistory(p: Parties, w: World, rnd: bytes)
    ensures ServerMove(p, w, rnd).cSent == w.cSent
  {
    hide ServerStep, Flat;
  }

  lemma ClientWritesAhead(p: Parties, w: World, rnd: bytes, all: seq<Item>, after: bytes, a: Spot<H.Server>)
    requires w.cSent <= ClientMove(p, w, rnd).cSent <= all && ServerThere(p, w, a, Flat(p.s, all[|w.cSent|..]) + after)
    ensures var w' := ClientMove(p, w, rnd); ServerThere(p, w', a, Flat(p.s, all[|w'.cSent|..]) + after)
  {
    hide ClientStep, Flat;
    var t := ClientStep(p.s, p.client, w.client, w.s2c, rnd);
    if t.Some? {
      RestSplits(p.s, all, w.cSent, t.value.wrote);
      var ahead := Flat(p.s, Items(t.value.wrote));
      var later := Flat(p.s, all[|w.cSent + Items(t.value.wrote)|..]);
      Regroup(w.c2s, ahead, later, after);
    }
  }

  // ---------------------------------------------------------------- the server's routine

  /** A run that has come to a halt stays there. */
  lemma {:induction false} ServerHalted(u: SR.Setup, n: nat, m: nat)
    requires SR.Onward(u, SR.After(u, n)) == SR.After(u, n) && n <= m
    ensures SR.After(u, m) == SR.After(u, n)
    decreases m - n
  {
    hide SR.After, SR.Onward;
    if n < m {
      SR.AfterOne(u, m - 1);
      ServerHalted(u, n, m - 1);
    }
  }

  lemma SameServerEnd(u: SR.Setup, n: nat, m: nat)
    requires SR.Onward(u, SR.After(u, n)) == SR.After(u, n) && SR.Onward(u, SR.After(u, m)) == SR.After(u, m)
    ensures SR.After(u, n) == SR.After(u, m)
  {
    hide *;
    ServerHalted(u, if n <= m then n else m, if n <= m then m else n);
  }

  lemma ServerStuck(u: SR.Setup, a: Spot<H.Server>)
    requires a.party.pc.SSession? || exists e :: SR.StopsAt(u, a, e)
    ensures SR.Onward(u, a) == a
  {
    hide ServerStep, ScanFrom, Open;
    var v := a.party;
    if ServerDone(v.pc) {
      ServerEnded(u.s, u.cfg, v, a.input, u.env.padding(a.sends));
    } else if v.pc.SVersionIn? {
      ServerGreetTurn(u.s, u.cfg, v, a.input, u.env.padding(a.sends));
    } else {
      ServerReceiveTurn(u.s, u.cfg, v, a.input, u.env.padding(a.sends));
    }
  }

  /** On an empty stream every receive finds it closed. */
  lemma EmptyIsClosed(s: Suite, h: Half)
    ensures Returned(Open(s, h, []).outcome) == Err(ConnectionClosed) && Open(s, h, []).outcome.Starved?
  {
  }

  /** With nothing left to read, the channel loop ends at once. */
  lemma NothingToServe(u: SR.Setup, start: Point, log: seq<Event>, m: nat, r: Result<()>, z: Point)
    requires m <= |log| && Replay(u.s, u.env, u.input, log).Some? && Replay(u.s, u.env, u.input, log[..m]).Some?
    requires Replay(u.s, u.env, u.input, log[..m]).value.input == []
    requires Serves(u.env, start, log[m..], r, z)
    ensures r == Ok(()) && z == start
    ensures Replay(u.s, u.env, u.input, log).value.output == Replay(u.s, u.env, u.input, log[..m]).value.output
  {
    hide Replay, Turns, Open;
    var link, e := Replay(u.s, u.env, u.input, log[..m]).value, log[m];
    SR.ReplayPrefix(u.s, u.env, u.input, log, m + 1);
    ReplayAppend(u.s, u.env, u.input, log[..m], e);
    assert log[..m] + [e] == log[..m + 1];
    EmptyIsClosed(u.s, link.keys.RecvHalf());
    assert log[m..][0] == e;
    assert e == Lost(ConnectionClosed);
    assert log == log[..m + 1] by { assert log[m..] == [e]; }
  }

  lemma WholeStart(p: Parties, u: SR.Setup, w: World, after: bytes)
    requires u.s == p.s && u.input == Flat(p.s, w.cSent) + after
    ensures ServerThere(p, WORLD_START, SR.After(u, 0), Flat(p.s, w.cSent[|WORLD_START.cSent|..]) + after)
  {
    hide ServerStep;
    assert w.cSent[0..] == w.cSent && [] + u.input == u.input;
    assert Flat(p.s, []) == [];
  }

  /** At the end nothing is left on the client's stream. */
  lemma EndIsRead(p: Parties, w: World)
    requires Inv(p, w) && Final(w)
    ensures w.c2s == [] && w.s2c == []
  {
    hide ClientKeys, ServerKeys, IsCItem, IsSItem, OwnVersion, Granted, Fits, TheResult, KexinitPayload, Ascii;
    NothingLeft(p.s, w);
  }

  /**
   The server's routine, fed what an honest client writes in a finished handshake: it writes exactly what
   the server writes there, and ends well or finds the stream closed, with nothing done.
   */
  lemma HonestServer(p: Parties, moves: seq<Move>, env: Env, start: State, log: seq<Event>,
                     r: Result<()>, output: bytes, z: Point)
    requires p.s.Commutes() && p.server.cookie == env.cookie && p.server.secret == env.secret
    requires Final(RunMoves(p, WORLD_START, moves)) && Padded(RunMoves(p, WORLD_START, moves).sSent, env.padding)
    requires SC.Explains(p.s, p.server.db, env, Flat(p.s, RunMoves(p, WORLD_START, moves).cSent), start, log, r,
                         output, z)
    ensures var w := RunMoves(p, WORLD_START, moves);
            && output == Flat(p.s, w.sSent) && z == Point(0, EMPTY_MANAGER, start)
            && r == if w.server.pc.SSession? then Ok(()) else Err(ConnectionClosed)
  {
    hide RunMoves, Inv, Final, Padded, Conforms, Replay, Steered, Serves, SR.After, SR.Onward, Flat, Disciplined, Open,
      CutOff;
    var w := RunMoves(p, WORLD_START, moves);
    var u := SR.Setup(p.s, p.server, env, Flat(p.s, w.cSent));
    assert u.input + [] == u.input;
    var n := ServerAlone(p, u, moves, []);
    var m, n' := SR.SessionBeginsAsServerRun(u, start, log, r, z);
    ServerStuck(u, SR.After(u, n'));
    SameServerEnd(u, n, n');
    if w.server.pc.SSession? {
      NothingToServe(u, Point(0, EMPTY_MANAGER, start), log, m, r, z);
    } else {
      assert log[..m] == log;
      ClosedAtOnce(p.s, w.server.keys, r.error);
    }
  }

  /** A finished handshake's server is where the server alone comes to a halt. */
  lemma ServerAlone(p: Parties, u: SR.Setup, moves: seq<Move>, after: bytes) returns (n: nat)
    requires p.s.Commutes() && u.s == p.s && u.cfg == p.server
    requires u.input == Flat(p.s, RunMoves(p, WORLD_START, moves).cSent) + after
    requires Final(RunMoves(p, WORLD_START, moves)) && Padded(RunMoves(p, WORLD_START, moves).sSent, u.env.padding)
    requires after == [] || RunMoves(p, WORLD_START, moves).server.pc.SSession?
    ensures var w, a := RunMoves(p, WORLD_START, moves), SR.After(u, n);
            && a == Spot(w.server, after, Flat(p.s, w.sSent), Count(w.sSent)) && SR.Onward(u, a) == a
            && (w.server.pc.SSession? || w.server.pc.SAuthIn?)
  {
    hide RunMoves, Inv, Padded, SR.After, SR.Onward, Flat, Open, CutOff;
    var w := RunMoves(p, WORLD_START, moves);
    StartKeeps(p);
    RunKeeps(p, WORLD_START, moves);
    EndIsRead(p, w);
    WholeStart(p, u, w, after);
    n := ServerOfWorld(p, u, WORLD_START, moves, 0, after);
    var a := SR.After(u, n);
    assert [] + after == after;
    if w.server.pc.SAuthIn? {
      ClosedAtOnce(p.s, w.server.keys, ConnectionClosed);
      assert SR.StopsAt(u, a, ConnectionClosed);
    }
    ServerStuck(u, a);
  }

  lemma ClosedAtOnce(s: Suite, keys: Keys, e: SshError)
    ensures CutOff(s, keys, [], false, e) <==> e == ConnectionClosed
  {
    hide Open;
    EmptyIsClosed(s, keys.RecvHalf());
  }

  // ---------------------------------------------------------------- the client

  predicate ClientThere(p: Parties, w: World, a: Spot<Client>, rest: bytes) {
    a == Spot(w.client, w.s2c + rest, Flat(p.s, w.cSent), Count(w.cSent))
  }

  lemma ClientPaddingOnlyForSending(s: Suite, cfg: ClientConfig, c: Client, input: bytes, rnd: bytes, rnd': bytes)
    requires !ClientSending(c.pc)
    ensures ClientStep(s, cfg, c, input, rnd) == ClientStep(s, cfg, c, input, rnd')
  {
    hide ClientSends, ClientPacket, Receive, ClientHandles, Received, Consumed, ScanFrom, OwnVersion;
  }

  lemma ClientSendingIsGreeted(p: Parties, pc: ClientPc, n: nat, g: nat)
    requires ClientAt(p, pc, n, g) && ClientSending(pc)
    ensures n >= 1
  {
    hide Granted, Fits;
  }

  lemma ClientWrites(p: Parties, w: World, rnd: bytes)
    ensures var t := ClientStep(p.s, p.client, w.client, w.s2c, rnd);
            if t.None? then ClientMove(p, w, rnd) == w
            else ClientMove(p, w, rnd).cSent == w.cSent + Items(t.value.wrote)
  {
    hide ClientStep, Flat;
  }

  /** A packet that can be sent is written with its padding; one that cannot fails whatever the padding. */
  lemma ClientSendWrites(p: Parties, w: World, input: bytes, rnd: bytes, rnd': bytes)
    requires Inv(p, w) && ClientSending(w.client.pc)
    ensures |w.cSent| >= 1
    ensures var t := ClientStep(p.s, p.client, w.client, w.s2c, rnd);
            && t.Some? && (t.value.wrote.Some? ==> t.value.wrote.value.Framed? && t.value.wrote.value.rnd == rnd)
            && (t.value.wrote.None? ==>
                  ClientStep(p.s, p.client, w.client, input, rnd) == ClientStep(p.s, p.client, w.client, input, rnd'))
  {
    var c := w.client;
    var m := ClientPacket(p.s, p.client, c.pc);
    ClientSendingIsGreeted(p, c.pc, |w.cSent|, w.cGot);
    ClientSendTurn(p.s, p.client, c, m, w.s2c, rnd);
    ClientSendTurn(p.s, p.client, c, m, input, rnd);
    ClientSendTurn(p.s, p.client, c, m, input, rnd');
    SealGoes(p.s, c.keys.SendHalf(), m, rnd);
    SealGoes(p.s, c.keys.SendHalf(), m, rnd');
    hide ClientStep, ClientPacket, ClientNext, Seal, Flat, Inv, ClientInstall;
  }

  lemma ClientFirstIsLine(p: Parties, w: World, rnd: bytes)
    requires Inv(p, w) && !ClientSending(w.client.pc)
    ensures var t := ClientStep(p.s, p.client, w.client, w.s2c, rnd);
            t.Some? && t.value.wrote.Some? ==> t.value.wrote.value.Line? && w.cSent == []
  {
    var c := w.client;
    if ClientReceiving(c.pc) {
      ClientReceiveTurn(p.s, p.client, c, w.s2c, rnd);
    } else if c.pc.CVersionOut? || c.pc.CVersionIn? {
      ClientGreetTurn(p.s, p.client, c, w.s2c, rnd);
      if c.pc.CVersionOut? {
        FirstClientStep(p, |w.cSent|, w.cGot);
      }
    } else {
      ClientEnded(p.s, p.client, c, w.s2c, rnd);
    }
  }

  lemma ClientSamePadding(p: Parties, w: World, rnd: bytes, input: bytes, padding: nat -> bytes)
    requires Inv(p, w) && Padded(ClientMove(p, w, rnd).cSent, padding)
    ensures ClientStep(p.s, p.client, w.client, input, rnd)
         == ClientStep(p.s, p.client, w.client, input, padding(Count(w.cSent)))
    ensures var t := ClientStep(p.s, p.client, w.client, w.s2c, rnd);
            t.Some? && t.value.wrote.Some? ==> (t.value.wrote.value.Framed? <==> |w.cSent| >= 1)
  {
    hide *;
    var rnd' := padding(Count(w.cSent));
    if ClientSending(w.client.pc) {
      ClientSendWrites(p, w, input, rnd, rnd');
      ClientWrites(p, w, rnd);
      CountIs(w.cSent);
      var t := ClientStep(p.s, p.client, w.client, w.s2c, rnd);
      if t.value.wrote.Some? {
        ItemsIs(t.value.wrote.value);
        PaddedAt(ClientMove(p, w, rnd).cSent, padding, |w.cSent|);
      }
    } else {
      ClientPaddingOnlyForSending(p.s, p.client, w.client, input, rnd, rnd');
      ClientFirstIsLine(p, w, rnd);
    }
  }

  lemma ItemsIs(item: Item)
    ensures Items(Some(item)) == [item]
  {
  }

  lemma ClientAdvances(p: Parties, w: World, rnd: bytes, rest: bytes, a: Spot<Client>)
    requires ClientThere(p, w, a, rest)
    requires var t := ClientStep(p.s, p.client, w.client, w.s2c, rnd);
             t.Some? && t.value.wrote.Some? ==> (t.value.wrote.value.Framed? <==> |w.cSent| >= 1)
    ensures var t := ClientStep(p.s, p.client, w.client, w.s2c, rnd);
            t.Some? ==> t.value.used <= |a.input| && ClientThere(p, ClientMove(p, w, rnd), Advanced(p.s, a, t), rest)
  {
    hide ClientStep, Flat;
    var t := ClientStep(p.s, p.client, w.client, w.s2c, rnd);
    if t.Some? {
      FlatConcat(p.s, w.cSent, Items(t.value.wrote));
      assert (w.s2c + rest)[t.value.used..] == w.s2c[t.value.used..] + rest;
    }
  }

  lemma ClientMoveIsStep(p: Parties, u: CC.Setup, w: World, rnd: bytes, rest: bytes, a: Spot<Client>)
    requires Inv(p, w) && u.s == p.s && u.cfg == p.client && ClientThere(p, w, a, rest)
    requires Padded(ClientMove(p, w, rnd).cSent, u.padding)
    ensures ClientMove(p, w, rnd) == w || ClientThere(p, ClientMove(p, w, rnd), CC.Onward(u, a), rest)
  {
    hide Inv, ClientStep, Flat, Advanced, ClientMove, Padded;
    var input := w.s2c + rest;
    assert input[..|w.s2c|] == w.s2c;
    ClientPrefix(p, w.client, input, |w.s2c|, rnd);
    ClientSamePadding(p, w, rnd, input, u.padding);
    ClientWrites(p, w, rnd);
    ClientAdvances(p, w, rnd, rest, a);
  }

  lemma {:induction false} ClientOfWorld(p: Parties, u: CC.Setup, w: World, moves: seq<Move>, n: nat, after: bytes)
    returns (n': nat)
    requires p.s.Commutes() && Inv(p, w) && u.s == p.s && u.cfg == p.client
    requires w.sSent <= RunMoves(p, w, moves).sSent
    requires ClientThere(p, w, CC.After(u, n), Flat(p.s, RunMoves(p, w, moves).sSent[|w.sSent|..]) + after)
    requires Padded(RunMoves(p, w, moves).cSent, u.padding)
    ensures ClientThere(p, RunMoves(p, w, moves), CC.After(u, n'), after)
    decreases |moves|
  {
    hide ClientMove, ServerMove, Inv, ClientThere, CC.After, CC.Onward;
    var end := RunMoves(p, w, moves);
    if moves == [] {
      NothingLeft(p.s, w);
      assert [] + after == after;
      return n;
    }
    var w' := Moved(p, w, moves[0]);
    var rest := Flat(p.s, end.sSent[|w.sSent|..]) + after;
    MoveGrows(p, w, moves[0]);
    HistoryGrows(p, w', moves[1..]);
    RunKeeps(p, w, [moves[0]]);
    OneMove(p, w, moves[0]);
    n' := n;
    match moves[0] {
      case ClientMoves(rnd) =>
        assert Padded(w'.cSent, u.padding);
        ClientMoveIsStep(p, u, w, rnd, rest, CC.After(u, n));
        SameServerHistory(p, w, rnd);
        if w' != w {
          CC.AfterOne(u, n);
          n' := n + 1;
        }
      case ServerMoves(rnd) => ServerWritesAhead(p, w, rnd, end.sSent, after, CC.After(u, n));
    }
    n' := ClientOfWorld(p, u, w', moves[1..], n', after);
  }

  lemma SameServerHistory(p: Parties, w: World, rnd: bytes)
    ensures ClientMove(p, w, rnd).sSent == w.sSent
  {
    hide ClientStep, Flat;
  }

  lemma ServerWritesAhead(p: Parties, w: World, rnd: bytes, all: seq<Item>, after: bytes, a: Spot<Client>)
    requires w.sSent <= ServerMove(p, w, rnd).sSent <= all && ClientThere(p, w, a, Flat(p.s, all[|w.sSent|..]) + after)
    ensures var w' := ServerMove(p, w, rnd); ClientThere(p, w', a, Flat(p.s, all[|w'.sSent|..]) + after)
  {
    hide ServerStep, Flat;
    var t := ServerStep(p.s, p.server, w.server, w.c2s, rnd);
    if t.Some? {
      RestSplits(p.s, all, w.sSent, t.value.wrote);
      var ahead := Flat(p.s, Items(t.value.wrote));
      var later := Flat(p.s, all[|w.sSent + Items(t.value.wrote)|..]);
      Regroup(w.s2c, ahead, later, after);
    }
  }

  // ---------------------------------------------------------------- the client's routine

  lemma {:induction false} ClientHalted(u: CC.Setup, n: nat, m: nat)
    requires CC.Onward(u, CC.After(u, n)) == CC.After(u, n) && n <= m
    ensures CC.After(u, m) == CC.After(u, n)
    decreases m - n
  {
    hide CC.After, CC.Onward;
    if n < m {
      CC.AfterOne(u, m - 1);
      ClientHalted(u, n, m - 1);
    }
  }

  lemma SameClientEnd(u: CC.Setup, n: nat, m: nat)
    requires CC.Onward(u, CC.After(u, n)) == CC.After(u, n) && CC.Onward(u, CC.After(u, m)) == CC.After(u, m)
    ensures CC.After(u, n) == CC.After(u, m)
  {
    hide *;
    ClientHalted(u, if n <= m then n else m, if n <= m then m else n);
  }

  lemma ClientStuck(u: CC.Setup, a: Spot<Client>)
    requires a.party.pc.CAuthenticated? || exists e :: CC.GivesUp(u, a, e)
    ensures CC.Onward(u, a) == a
  {
    hide ClientStep, ScanFrom, Open;
    var c := a.party;
    if ClientDone(c.pc) {
      ClientEnded(u.s, u.cfg, c, a.input, u.padding(a.sends));
    } else if c.pc.CVersionIn? {
      ClientGreetTurn(u.s, u.cfg, c, a.input, u.padding(a.sends));
    } else {
      ClientReceiveTurn(u.s, u.cfg, c, a.input, u.padding(a.sends));
    }
  }

  lemma ClientWholeStart(p: Parties, u: CC.Setup, w: World, after: bytes)
    requires u.s == p.s && u.input == Flat(p.s, w.sSent) + after
    ensures ClientThere(p, WORLD_START, CC.After(u, 0), Flat(p.s, w.sSent[|WORLD_START.sSent|..]) + after)
  {
    hide ClientStep;
    assert w.sSent[0..] == w.sSent && [] + u.input == u.input;
    assert Flat(p.s, []) == [];
  }

  /**
   The client's routine, fed what an honest server writes in a finished handshake: it writes exactly what
   the client writes there, and is authenticated, refused or unable to ask, as the client is there.
   */
  lemma HonestClient(p: Parties, moves: seq<Move>, padding: nat -> bytes, n: nat, r: Result<()>, output: bytes)
    requires p.s.Commutes()
    requires Final(RunMoves(p, WORLD_START, moves)) && Padded(RunMoves(p, WORLD_START, moves).cSent, padding)
    requires CC.EndsWith(CC.Setup(p.s, p.client, padding, Flat(p.s, RunMoves(p, WORLD_START, moves).sSent)), n, r,
                         output)
    ensures var w := RunMoves(p, WORLD_START, moves);
            && output == Flat(p.s, w.cSent)
            && (if r.Ok? then w.client.pc.CAuthenticated? else w.client.pc == CFailed(r.error))
  {
    hide RunMoves, Final, Padded, CC.After, CC.Onward, Flat, CutOff;
    var u := CC.Setup(p.s, p.client, padding, Flat(p.s, RunMoves(p, WORLD_START, moves).sSent));
    assert u.input + [] == u.input;
    var n' := ClientAlone(p, u, moves, []);
    ClientStuck(u, CC.After(u, n));
    SameClientEnd(u, n, n');
  }

  /** A finished handshake's client is where the client alone comes to a halt. */
  lemma ClientAlone(p: Parties, u: CC.Setup, moves: seq<Move>, after: bytes) returns (n: nat)
    requires p.s.Commutes() && u.s == p.s && u.cfg == p.client
    requires u.input == Flat(p.s, RunMoves(p, WORLD_START, moves).sSent) + after
    requires Final(RunMoves(p, WORLD_START, moves)) && Padded(RunMoves(p, WORLD_START, moves).cSent, u.padding)
    ensures var w, a := RunMoves(p, WORLD_START, moves), CC.After(u, n);
            && a == Spot(w.client, after, Flat(p.s, w.cSent), Count(w.cSent)) && CC.Onward(u, a) == a
            && ClientDone(w.client.pc)
  {
    hide RunMoves, Inv, Padded, CC.After, CC.Onward, Flat, CutOff;
    var w := RunMoves(p, WORLD_START, moves);
    StartKeeps(p);
    RunKeeps(p, WORLD_START, moves);
    EndIsRead(p, w);
    ClientWholeStart(p, u, w, after);
    n := ClientOfWorld(p, u, WORLD_START, moves, 0, after);
    var a := CC.After(u, n);
    assert [] + after == after;
    if w.client.pc.CFailed? {
      assert CC.GivesUp(u, a, w.client.pc.error);
    }
    ClientStuck(u, a);
  }
}
