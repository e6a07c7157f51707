/**
 Every interleaving of the two programs: what holds in each reachable state, that some end
 can always go on, and where all runs end.
 */
module HandshakeRuns {
  import opened Bytes
  import opened Crypto
  import opened Transport
  import opened Version
  import opened Kex
  import opened Handshake
  import opened HandshakeProof

  // ---------------------------------------------------------------- one move

  lemma StreamFront(s: Suite, sent: seq<Item>, got: nat)
    requires got < |sent|
    ensures Flat(s, sent[got..]) == ItemBytes(s, sent[got]) + Flat(s, sent[got + 1..])
  {
    assert sent[got..][0] == sent[got] && sent[got..][1..] == sent[got + 1..];
  }

  lemma FlatEnd(s: Suite, sent: seq<Item>)
    ensures Flat(s, sent[|sent|..]) == []
  {
  }

  predicate ClientTaking(pc: ClientPc) { pc.CVersionIn? || ClientReceiving(pc) }
  predicate ServerTaking(pc: ServerPc) { pc.SVersionIn? || ServerReceiving(pc) }

  lemma ClientWaits(p: Parties, c: Client, rnd: bytes)
    requires ClientTaking(c.pc)
    ensures ClientStep(p.s, p.client, c, [], rnd) == None
  {
    hide Open, OwnVersion, ClientSends, ClientPacket, ClientHandles, Received, Consumed;
    ReceiveNothing(p.s, c.keys);
  }

  lemma ServerWaits(p: Parties, v: Server, rnd: bytes)
    requires ServerTaking(v.pc)
    ensures ServerStep(p.s, p.server, v, [], rnd) == None
  {
    hide Open, OwnVersion, ServerSends, ServerPacket, ServerHandles, Received, Consumed, KeysAfter;
    ReceiveNothing(p.s, v.keys);
  }

  lemma ClientVersionOutStep(p: Parties, c: Client, sent: seq<Item>, g: nat, input: bytes, rnd: bytes)
    requires ClientOk(p, c, sent, g) && c.pc.CVersionOut?
    ensures var t := ClientStep(p.s, p.client, c, input, rnd);
            && t.Some? && t.value.used == 0
            && ClientOk(p, t.value.state, sent + Items(t.value.wrote), g)
            && ClientRank(t.value.state.pc) < ClientRank(c.pc)
  {
    ClientGreetTurn(p.s, p.client, c, input, rnd);
    FirstClientItem(p);
    FirstClientStep(p, |sent|, g);
    hide ClientStep, IsCItem, OwnVersion, TheResult, ClientKeys, ClientAt, ClientRank, Granted, KexinitPayload, Ascii;
    assert sent == [] && sent + [Line(OwnVersion())] == [Line(OwnVersion())];
  }

  lemma FirstClientItem(p: Parties)
    ensures IsCItem(p, 0, Line(OwnVersion()))
  {
  }

  lemma FirstServerItem(p: Parties)
    ensures IsSItem(p, 0, Line(OwnVersion()))
  {
  }

  lemma FirstClientStep(p: Parties, n: nat, g: nat)
    requires ClientAt(p, CVersionOut, n, g)
    ensures n == 0 && g == 0 && ClientAt(p, CVersionIn, 1, 0)
    ensures ClientKeys(p, 1, 0) == ClientKeys(p, 0, 0) && ClientRank(CVersionIn) < ClientRank(CVersionOut)
  {
    hide CHalf, SHalf, TheResult;
  }

  lemma FirstServerStep(p: Parties, n: nat, g: nat)
    requires ServerAt(p, SVersionOut, n, g)
    ensures n == 0 && g == 0 && ServerAt(p, SVersionIn, 1, 0)
    ensures ServerKeys(p, 1, 0) == ServerKeys(p, 0, 0) && ServerRank(SVersionIn) < ServerRank(SVersionOut)
  {
    hide CHalf, SHalf, TheResult;
  }

  lemma ServerVersionOutStep(p: Parties, v: Server, sent: seq<Item>, g: nat, input: bytes, rnd: bytes)
    requires ServerOk(p, v, sent, g) && v.pc.SVersionOut?
    ensures var t := ServerStep(p.s, p.server, v, input, rnd);
            && t.Some? && t.value.used == 0
            && ServerOk(p, t.value.state, sent + Items(t.value.wrote), g)
            && ServerRank(t.value.state.pc) < ServerRank(v.pc)
  {
    ServerGreetTurn(p.s, p.server, v, input, rnd);
    FirstServerItem(p);
    FirstServerStep(p, |sent|, g);
    hide ServerStep, IsSItem, OwnVersion, TheResult, ServerKeys, ServerAt, ServerRank, Granted, KexinitPayload, Ascii;
    assert sent == [] && sent + [Line(OwnVersion())] == [Line(OwnVersion())];
  }

  lemma ClientWriteStep(p: Parties, c: Client, sent: seq<Item>, g: nat, input: bytes, rnd: bytes)
    requires ClientOk(p, c, sent, g) && (c.pc.CVersionOut? || ClientSending(c.pc))
    ensures var t := ClientStep(p.s, p.client, c, input, rnd);
            && t.Some? && t.value.used == 0
            && ClientOk(p, t.value.state, sent + Items(t.value.wrote), g)
            && ClientRank(t.value.state.pc) < ClientRank(c.pc)
  {
    hide ClientOk, ClientStep, ClientRank;
    if c.pc.CVersionOut? {
      ClientVersionOutStep(p, c, sent, g, input, rnd);
    } else {
      ClientSendStep(p, c, sent, g, input, rnd);
    }
  }

  lemma ServerWriteStep(p: Parties, v: Server, sent: seq<Item>, g: nat, input: bytes, rnd: bytes)
    requires ServerOk(p, v, sent, g) && (v.pc.SVersionOut? || ServerSending(v.pc))
    ensures var t := ServerStep(p.s, p.server, v, input, rnd);
            && t.Some? && t.value.used == 0
            && ServerOk(p, t.value.state, sent + Items(t.value.wrote), g)
            && ServerRank(t.value.state.pc) < ServerRank(v.pc)
  {
    hide ServerOk, ServerStep, ServerRank;
    if v.pc.SVersionOut? {
      ServerVersionOutStep(p, v, sent, g, input, rnd);
    } else {
      ServerSendStep(p, v, sent, g, input, rnd);
    }
  }

  lemma ClientTakeStep(p: Parties, c: Client, sent: seq<Item>, g: nat, item: Item, rest: bytes, rnd: bytes)
    requires p.s.Commutes() && ClientOk(p, c, sent, g) && ClientTaking(c.pc) && IsSItem(p, g, item)
    ensures var t := ClientStep(p.s, p.client, c, ItemBytes(p.s, item) + rest, rnd);
            && t.Some? && t.value.used == |ItemBytes(p.s, item)| > 0 && t.value.wrote == None
            && ClientOk(p, t.value.state, sent, g + 1)
            && ClientRank(t.value.state.pc) < ClientRank(c.pc)
  {
    if c.pc.CVersionIn? {
      hide ClientStep, ClientRank, ItemBytes, OwnVersion, IsCItem, ClientKeys;
      ClientVersionStep(p, c, sent, rest, rnd);
    } else {
      hide ClientOk, ClientStep, ClientRank, ItemBytes, IsSItem;
      ClientRecvStep(p, c, sent, g, item, rest, rnd);
    }
  }

  lemma ServerTakeStep(p: Parties, v: Server, sent: seq<Item>, g: nat, item: Item, rest: bytes, rnd: bytes)
    requires ServerOk(p, v, sent, g) && ServerTaking(v.pc) && IsCItem(p, g, item) && g <= 5
    ensures var t := ServerStep(p.s, p.server, v, ItemBytes(p.s, item) + rest, rnd);
            && t.Some? && t.value.used == |ItemBytes(p.s, item)| > 0 && t.value.wrote == None
            && ServerOk(p, t.value.state, sent, g + 1)
            && ServerRank(t.value.state.pc) < ServerRank(v.pc)
  {
    if v.pc.SVersionIn? {
      hide ServerStep, ServerRank, ItemBytes, OwnVersion, IsSItem, ServerKeys;
      ServerVersionStep(p, v, sent, rest, rnd);
    } else {
      hide ServerOk, ServerStep, ServerRank, ItemBytes, IsCItem;
      ServerRecvStep(p, v, sent, g, item, rest, rnd);
    }
  }

  predicate ClientDone(pc: ClientPc) { pc.CAuthenticated? || pc.CFailed? }
  predicate ServerDone(pc: ServerPc) { pc.SSession? || pc.SFailed? }

  /** A client move keeps the invariant; it changes nothing only if the client waits or has ended. */
  lemma ClientMoveKeeps(p: Parties, w: World, rnd: bytes)
    requires p.s.Commutes() && Inv(p, w)
    ensures var w' := ClientMove(p, w, rnd);
            && Inv(p, w') && w'.server == w.server
            && (w' == w || ClientRank(w'.client.pc) < ClientRank(w.client.pc))
            && (w' == w ==> ClientDone(w.client.pc) || (ClientTaking(w.client.pc) && w.cGot == |w.sSent|))
  {
    hide ClientOk, ServerOk, ClientStep, ClientRank, ItemBytes, IsSItem;
    var c, n := w.client, |w.cSent|;
    if ClientDone(c.pc) {
      ClientEnded(p.s, p.client, c, w.s2c, rnd);
    } else if ClientTaking(c.pc) {
      if w.cGot == |w.sSent| {
        FlatEnd(p.s, w.sSent);
        ClientWaits(p, c, rnd);
      } else {
        StreamFront(p.s, w.sSent, w.cGot);
        ServerItemAt(p, w, w.cGot);
        ClientTakeStep(p, c, w.cSent, w.cGot, w.sSent[w.cGot], Flat(p.s, w.sSent[w.cGot + 1..]), rnd);
        assert w.cSent + [] == w.cSent;
        assert w.c2s + Flat(p.s, []) == w.c2s;
      }
    } else {
      ClientWriteStep(p, c, w.cSent, w.cGot, w.s2c, rnd);
      var t := ClientStep(p.s, p.client, c, w.s2c, rnd).value;
      if t.wrote.Some? {
        StreamGrows(p.s, w.cSent, w.sGot, t.wrote.value);
      } else {
        assert w.cSent + [] == w.cSent;
        assert w.c2s + Flat(p.s, []) == w.c2s;
      }
    }
  }

  lemma ServerMoveKeeps(p: Parties, w: World, rnd: bytes)
    requires Inv(p, w)
    ensures var w' := ServerMove(p, w, rnd);
            && Inv(p, w') && w'.client == w.client
            && (w' == w || ServerRank(w'.server.pc) < ServerRank(w.server.pc))
            && (w' == w ==> ServerDone(w.server.pc) || (ServerTaking(w.server.pc) && w.sGot == |w.cSent|))
  {
    hide ClientOk, ServerOk, ServerStep, ServerRank, ItemBytes, IsCItem;
    var v, n := w.server, |w.sSent|;
    if ServerDone(v.pc) {
      ServerEnded(p.s, p.server, v, w.c2s, rnd);
    } else if ServerTaking(v.pc) {
      if w.sGot == |w.cSent| {
        FlatEnd(p.s, w.cSent);
        ServerWaits(p, v, rnd);
      } else {
        StreamFront(p.s, w.cSent, w.sGot);
        ClientItemAt(p, w, w.sGot);
        ServerTakeStep(p, v, w.sSent, w.sGot, w.cSent[w.sGot], Flat(p.s, w.cSent[w.sGot + 1..]), rnd);
        assert w.sSent + [] == w.sSent;
        assert w.s2c + Flat(p.s, []) == w.s2c;
      }
    } else {
      ServerWriteStep(p, v, w.sSent, w.sGot, w.c2s, rnd);
      var t := ServerStep(p.s, p.server, v, w.c2s, rnd).value;
      if t.wrote.Some? {
        StreamGrows(p.s, w.sSent, w.cGot, t.wrote.value);
      } else {
        assert w.sSent + [] == w.sSent;
        assert w.s2c + Flat(p.s, []) == w.s2c;
      }
    }
  }

  lemma ClientEnded(s: Suite, cfg: ClientConfig, c: Client, input: bytes, rnd: bytes)
    requires ClientDone(c.pc)
    ensures ClientStep(s, cfg, c, input, rnd) == None
  {
    hide Receive, OwnVersion, ClientSends, ClientPacket, ClientHandles, Received, Consumed, ScanFrom;
  }

  lemma ServerEnded(s: Suite, cfg: ServerConfig, v: Server, input: bytes, rnd: bytes)
    requires ServerDone(v.pc)
    ensures ServerStep(s, cfg, v, input, rnd) == None
  {
    hide Receive, OwnVersion, ServerSends, ServerPacket, ServerHandles, Received, Consumed, ScanFrom, KeysAfter;
  }

  lemma ServerItemAt(p: Parties, w: World, i: nat)
    requires Inv(p, w) && i < |w.sSent|
    ensures IsSItem(p, i, w.sSent[i])
  {
    hide ClientOk, IsSItem;
  }

  lemma ClientItemAt(p: Parties, w: World, i: nat)
    requires Inv(p, w) && i < |w.cSent|
    ensures IsCItem(p, i, w.cSent[i]) && i <= 5
  {
    hide ServerOk, IsCItem, ClientAt, ClientKeys, OwnVersion;
    ClientCounts(p, w.client.pc, |w.cSent|, w.cGot);
  }

  lemma ClientCounts(p: Parties, pc: ClientPc, n: nat, g: nat)
    requires ClientAt(p, pc, n, g)
    ensures n <= 6 && g <= 6 && (n >= 4 ==> g >= 4) && (n < 4 ==> g <= 4)
    ensures pc.CFailed? ==> (pc.error == REFUSED && !Granted(p)) || (pc.error == TOO_LARGE && !Fits(p))
    ensures pc.CAuthenticated? ==> Granted(p)
    ensures ClientDone(pc) ==> n >= 4
  {
    hide Granted, Fits;
  }

  lemma ServerCounts(p: Parties, pc: ServerPc, n: nat, g: nat)
    requires ServerAt(p, pc, n, g)
    ensures n <= 6 && g <= 6 && (g >= 4 ==> n >= 4) && (g < 4 ==> n <= 4)
    ensures !pc.SFailed? && (pc.SSession? ==> Granted(p))
    ensures pc.SSession? || pc.SAuthIn? ==> g >= 4
  {
    hide Granted;
  }

  // ---------------------------------------------------------------- all runs

  lemma StartKeeps(p: Parties)
    ensures Inv(p, WORLD_START)
  {
  }

  lemma {:induction false} RunKeeps(p: Parties, w: World, moves: seq<Move>)
    requires p.s.Commutes() && Inv(p, w)
    ensures Inv(p, RunMoves(p, w, moves))
    decreases |moves|
  {
    hide Inv, ClientMove, ServerMove;
    if moves != [] {
      match moves[0] {
        case ClientMoves(rnd) => ClientMoveKeeps(p, w, rnd);
        case ServerMoves(rnd) => ServerMoveKeeps(p, w, rnd);
      }
      RunKeeps(p, Moved(p, w, moves[0]), moves[1..]);
    }
  }

  /**
   In every reachable state no check of either program has failed: the server never stops, and
   the client stops only because its credentials are refused or too long for one packet.
   */
  lemma NoCheckFails(p: Parties, moves: seq<Move>)
    requires p.s.Commutes()
    ensures var w := RunMoves(p, WORLD_START, moves);
            && !w.server.pc.SFailed?
            && (w.client.pc.CFailed? ==>
                  || (w.client.pc.error == REFUSED && !Granted(p))
                  || (w.client.pc.error == TOO_LARGE && !Fits(p)))
            && (w.client.pc.CAuthenticated? || w.server.pc.SSession? ==> Granted(p))
  {
    hide ClientMove, ServerMove, Fits, Granted, OwnVersion, IsCItem, IsSItem, ClientKeys, ServerKeys, ClientAt,
      ServerAt;
    StartKeeps(p);
    RunKeeps(p, WORLD_START, moves);
    var w := RunMoves(p, WORLD_START, moves);
    ClientCounts(p, w.client.pc, |w.cSent|, w.cGot);
    ServerCounts(p, w.server.pc, |w.sSent|, w.sGot);
  }

  /**
   Whatever an end is about to take off its stream was sent under exactly the half it will be
   received with: same key epoch, same sequence number, same keystream position.
   */
  lemma ReceivedAsSent(p: Parties, moves: seq<Move>)
    requires p.s.Commutes()
    ensures var w := RunMoves(p, WORLD_START, moves);
            && (ClientReceiving(w.client.pc) && w.cGot < |w.sSent| ==>
                  w.sSent[w.cGot].Framed? && w.client.keys.RecvHalf() == w.sSent[w.cGot].half)
            && (ServerReceiving(w.server.pc) && w.sGot < |w.cSent| ==>
                  w.cSent[w.sGot].Framed? && w.server.keys.RecvHalf() == w.cSent[w.sGot].half)
  {
    hide Inv, ClientMove, ServerMove, ClientReceiving, ServerReceiving;
    StartKeeps(p);
    RunKeeps(p, WORLD_START, moves);
    var w := RunMoves(p, WORLD_START, moves);
    if ClientReceiving(w.client.pc) && w.cGot < |w.sSent| {
      ClientReceivesAsSent(p, w);
    }
    if ServerReceiving(w.server.pc) && w.sGot < |w.cSent| {
      ServerReceivesAsSent(p, w);
    }
  }

  lemma ClientReceivesAsSent(p: Parties, w: World)
    requires Inv(p, w) && ClientReceiving(w.client.pc) && w.cGot < |w.sSent|
    ensures w.sSent[w.cGot].Framed? && w.client.keys.RecvHalf() == w.sSent[w.cGot].half
  {
    ServerItemAt(p, w, w.cGot);
    hide ServerOk, IsCItem, OwnVersion, SHalf, SMsg, ClientKeys, Seal, ClientAt, ClientReceiving;
    ClientTakes(p, w.client.pc, |w.cSent|, w.cGot);
    ClientKeysAfterRecv(p, |w.cSent|, w.cGot);
  }

  lemma ServerReceivesAsSent(p: Parties, w: World)
    requires Inv(p, w) && ServerReceiving(w.server.pc) && w.sGot < |w.cSent|
    ensures w.cSent[w.sGot].Framed? && w.server.keys.RecvHalf() == w.cSent[w.sGot].half
  {
    ClientItemAt(p, w, w.sGot);
    hide ClientOk, IsSItem, OwnVersion, CHalf, CMsg, ServerKeys, Seal, ServerAt, ServerReceiving;
    ServerTakes(p, w.server.pc, |w.sSent|, w.sGot);
    ServerKeysAfterRecv(p, |w.sSent|, w.sGot);
  }

  // ---------------------------------------------------------------- progress

  /** Where a run ends: in a session, after a refusal, or with a request too long to be sent. */
  predicate Final(w: World) {
    || (w.client.pc.CAuthenticated? && w.server.pc.SSession?)
    || (w.client.pc == CFailed(REFUSED) && w.server.pc == SAuthIn(1))
    || (w.client.pc == CFailed(TOO_LARGE) && w.server.pc == SAuthIn(0))
  }

  function Rank(w: World): nat { ClientRank(w.client.pc) + ServerRank(w.server.pc) }

  /** The two ends never wait for each other. */
  lemma NoDeadlock(p: Parties, c: ClientPc, v: ServerPc, cn: nat, cg: nat, sn: nat, sg: nat)
    requires ClientAt(p, c, cn, cg) && ServerAt(p, v, sn, sg)
    requires sg <= cn && cg <= sn
    requires ClientDone(c) || (ClientTaking(c) && cg == sn)
    requires ServerDone(v) || (ServerTaking(v) && sg == cn)
    ensures || (c.CAuthenticated? && v.SSession?)
            || (c == CFailed(REFUSED) && v == SAuthIn(1))
            || (c == CFailed(TOO_LARGE) && v == SAuthIn(0))
  {
    hide Granted, Fits;
  }

  lemma SomeoneMoves(p: Parties, w: World, rnd: bytes, rnd': bytes)
    requires p.s.Commutes() && Inv(p, w) && !Final(w)
    ensures ClientMove(p, w, rnd) != w || ServerMove(p, w, rnd') != w
  {
    hide ClientMove, ServerMove, ClientAt, ServerAt, ClientTaking, ServerTaking, ClientDone, ServerDone, ClientRank,
      ServerRank, IsCItem, IsSItem, ClientKeys, ServerKeys, OwnVersion;
    ClientMoveKeeps(p, w, rnd);
    ServerMoveKeeps(p, w, rnd');
    if ClientMove(p, w, rnd) == w && ServerMove(p, w, rnd') == w {
      NoDeadlock(p, w.client.pc, w.server.pc, |w.cSent|, w.cGot, |w.sSent|, w.sGot);
    }
  }

  /** Every move that changes anything lowers the rank, so a run changes state at most 24 times. */
  lemma MovesLowerRank(p: Parties, w: World, m: Move)
    requires p.s.Commutes() && Inv(p, w)
    ensures Moved(p, w, m) == w || Rank(Moved(p, w, m)) < Rank(w)
    ensures Rank(w) <= 24
  {
    hide ClientMove, ServerMove, Inv;
    match m
    case ClientMoves(rnd) => ClientMoveKeeps(p, w, rnd);
    case ServerMoves(rnd) => ServerMoveKeeps(p, w, rnd);
  }

  /** From every reachable state both ends can be brought to the end of the handshake, whatever padding is drawn. */
  lemma {:induction false} Completes(p: Parties, w: World, rnd: bytes) returns (moves: seq<Move>)
    requires p.s.Commutes() && Inv(p, w)
    ensures Final(RunMoves(p, w, moves)) && |moves| <= Rank(w)
    decreases Rank(w)
  {
    hide ClientMove, ServerMove, Inv, Final, Rank;
    if Final(w) {
      return [];
    }
    SomeoneMoves(p, w, rnd, rnd);
    var m := if ClientMove(p, w, rnd) != w then ClientMoves(rnd) else ServerMoves(rnd);
    MovesLowerRank(p, w, m);
    RunKeeps(p, w, [m]);
    var w' := Moved(p, w, m);
    assert [m][1..] == [] && RunMoves(p, w', []) == w';
    var rest := Completes(p, w', rnd);
    moves := [m] + rest;
    assert moves[1..] == rest;
  }

  // ---------------------------------------------------------------- key agreement

  predicate SameKey(a: Half, b: Half) {
    && a.cipher.Some? && b.cipher.Some? && a.mac.Some?
    && a.cipher.value.key == b.cipher.value.key && a.cipher.value.iv == b.cipher.value.iv && a.mac == b.mac
  }

  lemma {:induction false} CHalfKey(p: Parties, i: nat)
    requires i >= 4
    ensures SameKey(CHalf(p, i), CHalf(p, 4))
    decreases i
  {
    hide CMsg, TheResult, SessionKey;
    if i > 4 {
      CHalfKey(p, i - 1);
    }
  }

  lemma {:induction false} SHalfKey(p: Parties, i: nat)
    requires i >= 4
    ensures SameKey(SHalf(p, i), SHalf(p, 4))
    decreases i
  {
    hide SMsg, TheResult, SessionKey;
    if i > 4 {
      SHalfKey(p, i - 1);
    }
  }

  /** Once both ends are encrypted, each sends with the keys the other receives with, under one session id. */
  lemma KeysAgree(p: Parties, moves: seq<Move>)
    requires p.s.Commutes()
    ensures var w := RunMoves(p, WORLD_START, moves);
            w.client.keys.IsEncrypted() && w.server.keys.IsEncrypted() ==>
              && SameKey(w.client.keys.SendHalf(), w.server.keys.RecvHalf())
              && SameKey(w.server.keys.SendHalf(), w.client.keys.RecvHalf())
              && w.client.keys.sessionId == w.server.keys.sessionId == Some(TheResult(p).hash)
  {
    StartKeeps(p);
    RunKeeps(p, WORLD_START, moves);
    var w := RunMoves(p, WORLD_START, moves);
    hide ClientMove, ServerMove, IsCItem, IsSItem, OwnVersion, CHalf, SHalf, TheResult, ClientAt, ServerAt;
    if w.client.keys.IsEncrypted() && w.server.keys.IsEncrypted() {
      var cn, cg, sn, sg := |w.cSent|, w.cGot, |w.sSent|, w.sGot;
      EncryptedCounts(p, w);
      CHalfKey(p, cn);
      CHalfKey(p, sg);
      SHalfKey(p, sn);
      SHalfKey(p, cg);
    }
  }

  lemma EncryptedCounts(p: Parties, w: World)
    requires Inv(p, w)
    ensures w.client.keys.IsEncrypted() <==> |w.cSent| >= 4
    ensures w.server.keys.IsEncrypted() <==> w.sGot >= 4
    ensures |w.cSent| >= 4 ==> w.cGot >= 4
    ensures w.sGot >= 4 ==> |w.sSent| >= 4
  {
    hide IsCItem, IsSItem, OwnVersion, CHalf, SHalf, TheResult, ClientAt, ServerAt;
    ClientCounts(p, w.client.pc, |w.cSent|, w.cGot);
    ServerCounts(p, w.server.pc, |w.sSent|, w.sGot);
    HalfShapes(p, |w.cSent|, w.cGot);
    HalfShapes(p, |w.sSent|, w.sGot);
  }

  /** At the end of every run both ends are encrypted. */
  lemma FinalIsEncrypted(p: Parties, w: World)
    requires Inv(p, w) && Final(w)
    ensures w.client.keys.IsEncrypted() && w.server.keys.IsEncrypted()
  {
    hide IsCItem, IsSItem, OwnVersion, ClientKeys, ServerKeys, ClientAt, ServerAt;
    ClientCounts(p, w.client.pc, |w.cSent|, w.cGot);
    ServerCounts(p, w.server.pc, |w.sSent|, w.sGot);
    EncryptedCounts(p, w);
  }

  /** So every run can be finished, in at most 24 further moves, with both ends encrypted under matching keys. */
  lemma EveryRunCanBeFinished(p: Parties, moves: seq<Move>, rnd: bytes) returns (more: seq<Move>)
    requires p.s.Commutes()
    ensures |more| <= 24
    ensures var w := RunMoves(p, RunMoves(p, WORLD_START, moves), more);
            && Final(w) && w.client.keys.IsEncrypted() && w.server.keys.IsEncrypted()
            && SameKey(w.client.keys.SendHalf(), w.server.keys.RecvHalf())
            && SameKey(w.server.keys.SendHalf(), w.client.keys.RecvHalf())
  {
    hide Inv, Final, SameKey, Moved, Rank;
    StartKeeps(p);
    RunKeeps(p, WORLD_START, moves);
    var w := RunMoves(p, WORLD_START, moves);
    more := Completes(p, w, rnd);
    MovesLowerRank(p, w, ClientMoves(rnd));
    RunKeeps(p, w, more);
    RunMovesConcat(p, WORLD_START, moves, more);
    FinalIsEncrypted(p, RunMoves(p, w, more));
    KeysAgree(p, moves + more);
  }

  lemma {:induction false} RunMovesConcat(p: Parties, w: World, a: seq<Move>, b: seq<Move>)
    ensures RunMoves(p, w, a + b) == RunMoves(p, RunMoves(p, w, a), b)
    decreases |a|
  {
    hide Moved;
    if a == [] {
      assert a + b == b;
    } else {
      assert (a + b)[1..] == a[1..] + b;
      RunMovesConcat(p, Moved(p, w, a[0]), a[1..], b);
    }
  }
}
