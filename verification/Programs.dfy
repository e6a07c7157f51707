/**
 The two programs on one connection: the client reads what the server writes, the server reads what the
 client writes, and a command goes through from the version lines to its output.
 */
module Programs {
  import opened Bytes
  import opened Wire
  import opened Packets
  import opened Crypto
  import opened Transport
  import opened Version
  import opened Kex
  import opened Auth
  import opened Channels
  import opened SftpHandler
  import opened H = Handshake
  import opened HandshakeProof
  import opened HandshakeRuns
  import opened HandshakeStreams
  import opened Session
  import opened Server
  import opened Traffic
  import opened Conduct
  import opened HonestRuns
  import opened ClientCommand
  import opened CommandRuns
  import SR = ServerRuns
  import SC = ServerConnection
  import CC = ClientConnection
  import Accounting
  import Fifo

  // ---------------------------------------------------------------- a handshake with given padding

  lemma PaddedAppend(items: seq<Item>, item: Option<Item>, padding: nat -> bytes)
    requires Padded(items, padding)
    requires item.Some? && item.value.Framed? ==> |items| >= 1 && item.value.rnd == padding(Count(items))
    ensures Padded(items + Items(item), padding)
  {
  }

  lemma ClientStaysPadded(p: Parties, w: World, padding: nat -> bytes)
    requires Inv(p, w) && Padded(w.cSent, padding)
    ensures Padded(ClientMove(p, w, padding(Count(w.cSent))).cSent, padding)
  {
    hide *;
    var rnd := padding(Count(w.cSent));
    var t := ClientStep(p.s, p.client, w.client, w.s2c, rnd);
    ClientWrites(p, w, rnd);
    if ClientSending(w.client.pc) {
      ClientSendWrites(p, w, w.s2c, rnd, rnd);
    } else {
      ClientFirstIsLine(p, w, rnd);
    }
    if t.Some? {
      PaddedAppend(w.cSent, t.value.wrote, padding);
    }
  }

  lemma ServerStaysPadded(p: Parties, w: World, padding: nat -> bytes)
    requires Inv(p, w) && Padded(w.sSent, padding)
    ensures Padded(ServerMove(p, w, padding(Count(w.sSent))).sSent, padding)
  {
    hide *;
    var rnd := padding(Count(w.sSent));
    var t := ServerStep(p.s, p.server, w.server, w.c2s, rnd);
    ServerWrites(p, w, rnd);
    if ServerSending(w.server.pc) {
      SendWrites(p, w, rnd);
      ItemsIs(t.value.wrote.value);
    } else {
      FirstIsLine(p, w, rnd);
    }
    if t.Some? {
      PaddedAppend(w.sSent, t.value.wrote, padding);
    }
  }

  /** Every handshake under way can be finished with the padding that the two programs will draw. */
  lemma {:induction false} PaddedFinish(p: Parties, w: World, cpad: nat -> bytes, spad: nat -> bytes)
    returns (moves: seq<Move>)
    requires p.s.Commutes() && Inv(p, w) && Padded(w.cSent, cpad) && Padded(w.sSent, spad)
    ensures var e := RunMoves(p, w, moves); Final(e) && Padded(e.cSent, cpad) && Padded(e.sSent, spad)
    decreases Rank(w)
  {
    hide ClientMove, ServerMove, Inv, Final, Rank, Padded;
    if Final(w) {
      return [];
    }
    var rnd, rnd' := cpad(Count(w.cSent)), spad(Count(w.sSent));
    SomeoneMoves(p, w, rnd, rnd');
    var m := if ClientMove(p, w, rnd) != w then ClientMoves(rnd) else ServerMoves(rnd');
    MovesLowerRank(p, w, m);
    RunKeeps(p, w, [m]);
    OneMove(p, w, m);
    var w' := Moved(p, w, m);
    if m.ClientMoves? {
      ClientStaysPadded(p, w, cpad);
      SameServerHistory(p, w, rnd);
    } else {
      ServerStaysPadded(p, w, spad);
      SameClientHistory(p, w, rnd');
    }
    var rest := PaddedFinish(p, w', cpad, spad);
    moves := [m] + rest;
    assert moves[1..] == rest;
  }

  // ---------------------------------------------------------------- each reads what the other writes

  /** What is still to come once `items` have been written. */
  function Ahead(s: Suite, all: bytes, items: seq<Item>): bytes
    requires Flat(s, items) <= all
  {
    all[|Flat(s, items)|..]
  }

  /** Both programs are where the handshake is, each with the rest of the other's bytes ahead of it. */
  predicate Both(p: Parties, us: SR.Setup, uc: CC.Setup, w: World, n: nat, k: nat) {
    && Flat(p.s, w.cSent) <= us.input && ServerThere(p, w, SR.After(us, n), Ahead(p.s, us.input, w.cSent))
    && Flat(p.s, w.sSent) <= uc.input && ClientThere(p, w, CC.After(uc, k), Ahead(p.s, uc.input, w.sSent))
  }

  /** Whatever a program has written on the way is the beginning of what the other one reads. */
  ghost predicate Joined(p: Parties, us: SR.Setup, uc: CC.Setup) {
    && us.s == p.s && us.cfg == p.server && uc.s == p.s && uc.cfg == p.client
    && (forall n :: SR.After(us, n).output <= uc.input)
    && (forall n :: CC.After(uc, n).output <= us.input)
  }

  lemma WrittenAhead(s: Suite, all: bytes, items: seq<Item>, item: Option<Item>, pending: bytes)
    requires Flat(s, items + Items(item)) <= all
    ensures Flat(s, items) <= all
    ensures pending + Ahead(s, all, items) == pending + Flat(s, Items(item)) + Ahead(s, all, items + Items(item))
  {
    FlatConcat(s, items, Items(item));
    hide Flat, Items;
    var a, b := Flat(s, items), Flat(s, Items(item));
    assert all[..|a + b|] == a + b;
    assert all[|a|..] == b + all[|a + b|..];
  }

  lemma ServerMovesBoth(p: Parties, us: SR.Setup, uc: CC.Setup, w: World, n: nat, k: nat, rnd: bytes) returns (n': nat)
    requires Inv(p, w) && Joined(p, us, uc) && Both(p, us, uc, w, n, k)
    requires Padded(ServerMove(p, w, rnd).sSent, us.env.padding)
    ensures Both(p, us, uc, ServerMove(p, w, rnd), n', k)
  {
    hide Inv, SR.After, CC.After, SR.Onward, Padded, Flat, ServerStep;
    var w' := ServerMove(p, w, rnd);
    if w' == w {
      return n;
    }
    ServerMoveIsStep(p, us, w, rnd, Ahead(p.s, us.input, w.cSent), SR.After(us, n));
    SR.AfterOne(us, n);
    n' := n + 1;
    assert SR.After(us, n').output == Flat(p.s, w'.sSent);
    var t := ServerStep(p.s, p.server, w.server, w.c2s, rnd).value;
    WrittenAhead(p.s, uc.input, w.sSent, t.wrote, w.s2c);
  }

  lemma ClientMovesBoth(p: Parties, us: SR.Setup, uc: CC.Setup, w: World, n: nat, k: nat, rnd: bytes) returns (k': nat)
    requires Inv(p, w) && Joined(p, us, uc) && Both(p, us, uc, w, n, k)
    requires Padded(ClientMove(p, w, rnd).cSent, uc.padding)
    ensures Both(p, us, uc, ClientMove(p, w, rnd), n, k')
  {
    hide Inv, SR.After, CC.After, CC.Onward, Padded, Flat, ClientStep;
    var w' := ClientMove(p, w, rnd);
    if w' == w {
      return k;
    }
    ClientMoveIsStep(p, uc, w, rnd, Ahead(p.s, uc.input, w.sSent), CC.After(uc, k));
    CC.AfterOne(uc, k);
    k' := k + 1;
    assert CC.After(uc, k').output == Flat(p.s, w'.cSent);
    var t := ClientStep(p.s, p.client, w.client, w.s2c, rnd).value;
    WrittenAhead(p.s, us.input, w.cSent, t.wrote, w.c2s);
  }

  /** The programs go where the handshake goes. */
  lemma {:induction false} BothFollow(p: Parties, us: SR.Setup, uc: CC.Setup, w: World, moves: seq<Move>, n: nat,
                                      k: nat)
    returns (n': nat, k': nat)
    requires p.s.Commutes() && Inv(p, w) && Joined(p, us, uc) && Both(p, us, uc, w, n, k)
    requires Padded(RunMoves(p, w, moves).cSent, uc.padding) && Padded(RunMoves(p, w, moves).sSent, us.env.padding)
    ensures Both(p, us, uc, RunMoves(p, w, moves), n', k')
    decreases |moves|
  {
    hide ClientMove, ServerMove, Inv, Both, Joined, Padded;
    if moves == [] {
      return n, k;
    }
    var w' := Moved(p, w, moves[0]);
    var end := RunMoves(p, w', moves[1..]);
    HistoryGrows(p, w', moves[1..]);
    PaddedPrefix(w'.cSent, end.cSent, uc.padding);
    PaddedPrefix(w'.sSent, end.sSent, us.env.padding);
    RunKeeps(p, w, [moves[0]]);
    OneMove(p, w, moves[0]);
    n', k' := n, k;
    match moves[0] {
      case ServerMoves(rnd) => n' := ServerMovesBoth(p, us, uc, w, n, k, rnd);
      case ClientMoves(rnd) => k' := ClientMovesBoth(p, us, uc, w, n, k, rnd);
    }
    n', k' := BothFollow(p, us, uc, w', moves[1..], n', k');
  }

  lemma PaddedPrefix(a: seq<Item>, b: seq<Item>, padding: nat -> bytes)
    requires a <= b && Padded(b, padding)
    ensures Padded(a, padding)
  {
  }

  // ---------------------------------------------------------------- what has been written stays written

  lemma ServerWritesOn(u: SR.Setup, a: Spot<H.Server>)
    ensures a.output <= SR.Onward(u, a).output
  {
    hide ServerStep, Flat;
  }

  lemma ClientWritesOn(u: CC.Setup, a: Spot<Client>)
    ensures a.output <= CC.Onward(u, a).output
  {
    hide ClientStep, Flat;
  }

  lemma {:induction false} ServerOutputGrows(u: SR.Setup, n: nat, m: nat)
    requires n <= m
    ensures SR.After(u, n).output <= SR.After(u, m).output
    decreases m - n
  {
    hide SR.After, SR.Onward;
    if n < m {
      ServerOutputGrows(u, n, m - 1);
      SR.AfterOne(u, m - 1);
      ServerWritesOn(u, SR.After(u, m - 1));
    }
  }

  lemma {:induction false} ClientOutputGrows(u: CC.Setup, n: nat, m: nat)
    requires n <= m
    ensures CC.After(u, n).output <= CC.After(u, m).output
    decreases m - n
  {
    hide CC.After, CC.Onward;
    if n < m {
      ClientOutputGrows(u, n, m - 1);
      CC.AfterOne(u, m - 1);
      ClientWritesOn(u, CC.After(u, m - 1));
    }
  }

  /** Nothing is written past the point where a program halts. */
  lemma ServerOutputUpTo(u: SR.Setup, n: nat, m: nat)
    requires SR.Onward(u, SR.After(u, m)) == SR.After(u, m)
    ensures SR.After(u, n).output <= SR.After(u, m).output
  {
    hide *;
    if n <= m {
      ServerOutputGrows(u, n, m);
    } else {
      ServerHalted(u, m, n);
    }
  }

  lemma ClientOutputUpTo(u: CC.Setup, n: nat, m: nat)
    requires CC.Onward(u, CC.After(u, m)) == CC.After(u, m)
    ensures CC.After(u, n).output <= CC.After(u, m).output
  {
    hide *;
    if n <= m {
      ClientOutputGrows(u, n, m);
    } else {
      ClientHalted(u, m, n);
    }
  }

  /** Where the server's handshake ends in a session, and that nothing of it gets lost. */
  lemma ServerEndsAt(u: SR.Setup, start: State, log: seq<Event>, r: Result<()>, z: Point) returns (m: nat, n: nat)
    requires Conforms(u.s, u.cfg, u.env, start, log, r, z) && Replay(u.s, u.env, u.input, log).Some?
    ensures m <= |log| && Replay(u.s, u.env, u.input, log[..m]).Some? && SR.Onward(u, SR.After(u, n)) == SR.After(u, n)
    ensures var link, a := Replay(u.s, u.env, u.input, log[..m]).value, SR.After(u, n);
            && Played(u.s, u.env, link, log[m..]) == Replay(u.s, u.env, u.input, log)
            && a.output <= Replay(u.s, u.env, u.input, log).value.output
            && if a.party.pc.SSession? then
                 && link == Link(a.party.keys, a.input, a.output, a.sends)
                 && Serves(u.env, Point(0, EMPTY_MANAGER, start), log[m..], r, z)
               else z == Point(0, EMPTY_MANAGER, start)
  {
    hide Steered, Serves, SR.After, SR.Onward, Replay, Conforms, Played, Open, CutOff;
    m, n := SR.SessionBeginsAsServerRun(u, start, log, r, z);
    ServerStuck(u, SR.After(u, n));
    ReplayGoesOn(u.s, u.env, u.input, log, m);
    OutputOnlyGrows(u.s, u.env, Replay(u.s, u.env, u.input, log[..m]).value, log[m..]);
  }

  /** The same for the client. */
  lemma ClientEndsAt(u: CC.Setup, n: nat, command: str, r: Result<()>, output: bytes, printed: bytes)
    requires CommandEnds(u, n, command, r, output, printed)
    ensures CC.Onward(u, CC.After(u, n)) == CC.After(u, n) && CC.After(u, n).output <= output
  {
    hide CC.After, CC.Onward, CutOff, Asked, Seal, Answer, Open, Listened;
    ClientStuck(u, CC.After(u, n));
    if CC.After(u, n).party.pc.CAuthenticated? {
      CommandWritesOn(u.s, u.padding, CC.After(u, n), command);
    }
  }

  lemma CommandWritesOn(s: Suite, padding: nat -> bytes, a: Spot<Client>, command: str)
    ensures a.output <= Commanded(s, padding, a, command).written
  {
    hide Seal, Answer, Open, Listened, CloseWire;
  }

  // ---------------------------------------------------------------- the end of the handshake

  /** Which end it is, is decided by the size and the truth of the client's credentials. */
  lemma FinalIs(p: Parties, w: World)
    requires Inv(p, w) && Final(w)
    ensures if !Fits(p) then w.client.pc == CFailed(TOO_LARGE) && w.server.pc.SAuthIn?
            else if !Granted(p) then w.client.pc == CFailed(REFUSED) && w.server.pc.SAuthIn?
            else w.client.pc.CAuthenticated? && w.server.pc.SSession?
  {
    hide Granted, ServerKeys, ClientKeys, IsSItem, OwnVersion, TheResult, KexinitPayload, Ascii, Seal, CHalf;
    if |w.cSent| == 6 {
      assert IsCItem(p, 5, w.cSent[5]);
      LoggedIn(p, w.cSent[5]);
    }
  }

  lemma LoggedIn(p: Parties, item: Item)
    requires IsCItem(p, 5, item)
    ensures Fits(p)
  {
    hide Seal, CHalf, AuthPayload, KexinitPayload, ServiceRequest, PasswordPayload, TheResult, PacketLength, Ascii;
    HalfShapes(p, 5, 5);
    SealGoes(p.s, CHalf(p, 5), item.packet, item.rnd);
  }

  lemma FinalKeys(p: Parties, w: World)
    requires Inv(p, w) && w.client.pc.CAuthenticated? && w.server.pc.SSession?
    ensures w.client.keys.SendHalf() == w.server.keys.RecvHalf() && w.server.keys.SendHalf() == w.client.keys.RecvHalf()
    ensures Protects(w.server.keys)
  {
    hide *;
    SixEach(p, w);
    HalfShapes(p, 6, 6);
    CHalfKey(p, 6);
    SHalfKey(p, 6);
    Maced(CHalf(p, 6), CHalf(p, 4));
    Maced(SHalf(p, 6), SHalf(p, 4));
    Halves(CHalf(p, 6), SHalf(p, 6), Some(TheResult(p).hash));
    Halves(SHalf(p, 6), CHalf(p, 6), Some(TheResult(p).hash));
  }

  lemma SixEach(p: Parties, w: World)
    requires Inv(p, w) && w.client.pc.CAuthenticated? && w.server.pc.SSession?
    ensures w.client.keys == KeysOf(CHalf(p, 6), SHalf(p, 6), Some(TheResult(p).hash))
    ensures w.server.keys == KeysOf(SHalf(p, 6), CHalf(p, 6), Some(TheResult(p).hash))
  {
    hide Granted, IsCItem, IsSItem, OwnVersion, TheResult, KexinitPayload, Ascii, CHalf, SHalf, KeysOf, Flat;
  }

  lemma Maced(a: Half, b: Half)
    requires SameKey(a, b)
    ensures a.mac.Some?
  {
  }

  lemma Halves(send: Half, recv: Half, session: Option<bytes>)
    requires send.cipher.Some? && recv.cipher.Some?
    ensures var k := KeysOf(send, recv, session);
            k.SendHalf() == send && k.RecvHalf() == recv && (send.mac.Some? && recv.mac.Some? ==> Protects(k))
  {
  }

  // ---------------------------------------------------------------- the command

  /** The client's output goes on with its first request, whatever happens next. */
  lemma CommandOpens(s: Suite, padding: nat -> bytes, a: Spot<Client>, command: str)
    ensures Seal(s, a.party.keys.SendHalf(), OpenPacket(), padding(a.sends)).Ok?
    ensures a.output + Seal(s, a.party.keys.SendHalf(), OpenPacket(), padding(a.sends)).value.wire
            <= Commanded(s, padding, a, command).written
  {
    hide Seal, Answer, Open, Listened, CloseWire, OpenPacket, ExecPacket, FitsPacket;
    OpenFits();
    SmallSeals(s, a.party.keys.SendHalf(), OpenPacket(), padding(a.sends));
  }

  lemma OpenFits()
    ensures FitsPacket(OpenPacket())
  {
  }

  /** Once the channel is confirmed, the request for the command goes out if it fits. */
  lemma CommandAsks(s: Suite, padding: nat -> bytes, a: Spot<Client>, command: str, c: Confirmation)
    requires Seal(s, a.party.keys.SendHalf(), OpenPacket(), padding(a.sends)).Ok?
    requires Answer(s, a.party.keys.RecvHalf(), a.input) == Ok(c) && a.party.keys.SendHalf().cipher.Some?
    ensures var f := Commanded(s, padding, a, command);
            var x := Seal(s, a.party.keys.SendHalf(), OpenPacket(), padding(a.sends)).value;
            var sealed := Seal(s, x.half, ExecPacket(c.remoteId, command), padding(a.sends + 1));
            var o := Open(s, a.party.keys.RecvHalf(), a.input);
            var heard := Listened(s, o.half, a.input[o.used..]);
            && (sealed.Ok? <==> FitsPacket(ExecPacket(c.remoteId, command)))
            && (sealed.Err? ==> f == Finish(Some(PACKET_TOO_LARGE), a.output + x.wire, []))
            && (sealed.Ok? ==>
                  && a.output + x.wire + sealed.value.wire <= f.written && f.printed == heard.printed
                  && (heard.end.Ok? ==> f.failure == None))
  {
    hide *;
    var h := a.party.keys.SendHalf();
    StaysCiphered(s, h, OpenPacket(), padding(a.sends));
    var x := Seal(s, h, OpenPacket(), padding(a.sends)).value;
    CipheredSeals(s, x.half, ExecPacket(c.remoteId, command), padding(a.sends + 1));
    var o := Open(s, a.party.keys.RecvHalf(), a.input);
    CommandedIsAsked(s, padding, a, command, c);
    AskedIs(s, padding, a.sends + 1, x.half, a.output + x.wire, Listened(s, o.half, a.input[o.used..]), c.remoteId,
            command);
  }

  lemma StaysCiphered(s: Suite, h: Half, p: Packet, rnd: bytes)
    requires h.cipher.Some? && Seal(s, h, p, rnd).Ok?
    ensures Seal(s, h, p, rnd).value.half.cipher.Some?
  {
    hide Seal, PacketLength;
    SealGoes(s, h, p, rnd);
  }

  lemma CipheredSeals(s: Suite, h: Half, p: Packet, rnd: bytes)
    requires h.cipher.Some?
    ensures var r := Seal(s, h, p, rnd); (r.Ok? <==> FitsPacket(p)) && (r.Err? ==> r.error == PACKET_TOO_LARGE)
  {
    hide Seal, PacketLength;
    SealGoes(s, h, p, rnd);
  }

  lemma CommandedIsAsked(s: Suite, padding: nat -> bytes, a: Spot<Client>, command: str, c: Confirmation)
    requires Seal(s, a.party.keys.SendHalf(), OpenPacket(), padding(a.sends)).Ok?
    requires Answer(s, a.party.keys.RecvHalf(), a.input) == Ok(c)
    ensures var x := Seal(s, a.party.keys.SendHalf(), OpenPacket(), padding(a.sends)).value;
            var o := Open(s, a.party.keys.RecvHalf(), a.input);
            Commanded(s, padding, a, command)
              == Asked(s, padding, a.sends + 1, x.half, a.output + x.wire, Listened(s, o.half, a.input[o.used..]),
                       c.remoteId, command)
  {
    hide Seal, Answer, Open, Listened, Asked, OpenPacket;
  }

  lemma AskedIs(s: Suite, padding: nat -> bytes, sends: nat, h: Half, written: bytes, heard: Hearing, id: u32,
                command: str)
    ensures var f := Asked(s, padding, sends, h, written, heard, id, command);
            var sealed := Seal(s, h, ExecPacket(id, command), padding(sends));
            && (sealed.Err? ==> f == Finish(Some(sealed.error), written, []))
            && (sealed.Ok? ==>
                  && written + sealed.value.wire <= f.written && f.printed == heard.printed
                  && (heard.end.Ok? ==> f.failure == None))
  {
    hide Seal, CloseWire, ExecPacket;
  }

  /** How a session for a command ends. */
  ghost predicate CommandDone(env: Env, st: State, command: str, events: seq<Event>, r: Result<()>, printed: bytes) {
    var w := env.outside(2);
    if !FitsPacket(ExecPacket(0, command)) then r == Err(PACKET_TOO_LARGE) && printed == []
    else
      && r.Ok? && printed == Hears(w.output).printed
      && CommandEvents(command, w.aftermath(st.disk), w.output) <= events
  }

  /** Client and server after authentication, each reading what the other writes. */
  lemma CommandExchanged(s: Suite, env: Env, padding: nat -> bytes, a: Spot<Client>, k: Link, st: State, command: str,
                         events: seq<Event>, r: Result<()>, z: Point, r': Result<()>, written: bytes, printed: bytes)
    requires Protects(k.keys) && a.party.keys.SendHalf() == k.keys.RecvHalf()
    requires a.party.keys.RecvHalf() == k.keys.SendHalf()
    requires Played(s, env, k, events).Some? && Serves(env, Point(0, EMPTY_MANAGER, st), events, r, z)
    requires k.output <= Played(s, env, k, events).value.output
    requires a.input == Played(s, env, k, events).value.output[|k.output|..]
    requires FinishesWith(Commanded(s, padding, a, command), r', written, printed)
    requires a.output <= written && k.input == written[|a.output|..]
    ensures CommandDone(env, st, command, events, r', printed)
  {
    hide Protects, Played, Serves, Commanded, Seal, Open, Answer, Listened, FitsPacket, OpenPacket, ExecPacket, Output,
      CommandEvents;
    HearsIs(env.outside(2).output);
    var h, rnd, rnd' := k.keys.RecvHalf(), padding(a.sends), padding(a.sends + 1);
    CommandOpens(s, padding, a, command);
    var x := Seal(s, h, OpenPacket(), rnd).value;
    assert k.input == x.wire + written[|a.output + x.wire|..];
    OpenServed(s, env, k, st, rnd, written[|a.output + x.wire|..], events, r, z);
    var c := Confirmation(0, DEFAULT_WINDOW_SIZE, DEFAULT_MAX_PACKET);
    Ciphered(k.keys);
    CommandAsks(s, padding, a, command, c);
    if FitsPacket(ExecPacket(0, command)) {
      var y := Seal(s, x.half, ExecPacket(0, command), rnd').value;
      var rest := written[|a.output + x.wire + y.wire|..];
      assert k.input == x.wire + y.wire + rest;
      RequestedSeals(s, h, command, rnd, rnd');
      CommandServed(s, env, k, st, command, rnd, rnd', rest, events, r, z);
    }
  }

  lemma Ciphered(k: Keys)
    requires Protects(k)
    ensures k.RecvHalf().cipher.Some?
  {
  }

  lemma RequestedSeals(s: Suite, h: Half, command: str, rnd: bytes, rnd': bytes)
    requires Seal(s, h, OpenPacket(), rnd).Ok?
    requires Seal(s, Seal(s, h, OpenPacket(), rnd).value.half, ExecPacket(0, command), rnd').Ok?
    ensures var x := Seal(s, h, OpenPacket(), rnd).value;
            && Fifo.Sealable(s, h, Requested(command, rnd, rnd'))
            && Fifo.Frames(s, h, Requested(command, rnd, rnd'))
                 == x.wire + Seal(s, x.half, ExecPacket(0, command), rnd').value.wire
  {
    hide Seal, OpenPacket, ExecPacket;
    var q := Requested(command, rnd, rnd');
    var x := Seal(s, h, OpenPacket(), rnd).value;
    assert q[1..] == [q[1]] && q[1..][1..] == [];
    assert Fifo.Sealable(s, x.half, q[1..]);
    RequestedFrames(s, h, command, rnd, rnd');
  }

  // ---------------------------------------------------------------- from the version lines to the output

  /** Two programs, each of which has read all that the other has written. */
  ghost predicate Connected(p: Parties, env: Env, padding: nat -> bytes, command: str, k: nat, r: Result<()>,
                            written: bytes,
                            printed: bytes, start: State, log: seq<Event>, r': Result<()>, written': bytes, z: Point) {
    && p.s.Commutes() && p.server.cookie == env.cookie && p.server.secret == env.secret
    && CommandEnds(CC.Setup(p.s, p.client, padding, written'), k, command, r, written, printed)
    && SC.Explains(p.s, p.server.db, env, written, start, log, r', written', z)
  }

  lemma ConnectedIsJoined(p: Parties, us: SR.Setup, uc: CC.Setup, command: str, k: nat, r: Result<()>, printed: bytes,
                          start: State, log: seq<Event>, r': Result<()>, z: Point)
    requires Connected(p, us.env, uc.padding, command, k, r, us.input, printed, start, log, r', uc.input, z)
    requires us == SR.Setup(p.s, p.server, us.env, us.input) && uc == CC.Setup(p.s, p.client, uc.padding, uc.input)
    ensures Joined(p, us, uc)
  {
    hide Conforms, Replay, Serves, Played, CommandEnds, SR.After, CC.After, SR.Onward, CC.Onward, Accounting.Accounts,
      Disciplined;
    var m, n := ServerEndsAt(us, start, log, r', z);
    ClientEndsAt(uc, k, command, r, us.input, printed);
    forall i ensures SR.After(us, i).output <= uc.input {
      ServerOutputUpTo(us, i, n);
    }
    forall i ensures CC.After(uc, i).output <= us.input {
      ClientOutputUpTo(uc, i, k);
    }
  }

  /** Where the two programs are when the handshake is over. */
  lemma HandshakeEnds(p: Parties, us: SR.Setup, uc: CC.Setup) returns (w: World, n: nat, k: nat)
    requires p.s.Commutes() && Joined(p, us, uc)
    ensures Inv(p, w) && Final(w)
    ensures Flat(p.s, w.cSent) <= us.input && Flat(p.s, w.sSent) <= uc.input
    ensures SR.After(us, n) == Spot(w.server, Ahead(p.s, us.input, w.cSent), Flat(p.s, w.sSent), Count(w.sSent))
    ensures CC.After(uc, k) == Spot(w.client, Ahead(p.s, uc.input, w.sSent), Flat(p.s, w.cSent), Count(w.cSent))
  {
    hide *;
    StartKeeps(p);
    StartsBoth(p, us, uc);
    var moves := PaddedFinish(p, WORLD_START, uc.padding, us.env.padding);
    RunKeeps(p, WORLD_START, moves);
    n, k := BothFollow(p, us, uc, WORLD_START, moves, 0, 0);
    w := RunMoves(p, WORLD_START, moves);
    EndIsRead(p, w);
    BothAtEnd(p, us, uc, w, n, k);
  }

  lemma BothAtEnd(p: Parties, us: SR.Setup, uc: CC.Setup, w: World, n: nat, k: nat)
    requires Both(p, us, uc, w, n, k) && w.c2s == [] && w.s2c == []
    ensures Flat(p.s, w.cSent) <= us.input && Flat(p.s, w.sSent) <= uc.input
    ensures SR.After(us, n) == Spot(w.server, Ahead(p.s, us.input, w.cSent), Flat(p.s, w.sSent), Count(w.sSent))
    ensures CC.After(uc, k) == Spot(w.client, Ahead(p.s, uc.input, w.sSent), Flat(p.s, w.cSent), Count(w.cSent))
  {
    hide SR.After, CC.After, Flat, Count, Ahead;
    assert [] + Ahead(p.s, us.input, w.cSent) == Ahead(p.s, us.input, w.cSent);
    assert [] + Ahead(p.s, uc.input, w.sSent) == Ahead(p.s, uc.input, w.sSent);
  }

  lemma StartsBoth(p: Parties, us: SR.Setup, uc: CC.Setup)
    requires Joined(p, us, uc)
    ensures Both(p, us, uc, WORLD_START, 0, 0)
    ensures Padded(WORLD_START.cSent, uc.padding) && Padded(WORLD_START.sSent, us.env.padding)
  {
    hide ServerStep, ClientStep;
    assert Flat(p.s, []) == [] && us.input[0..] == us.input && uc.input[0..] == uc.input;
    assert [] + us.input == us.input && [] + uc.input == uc.input;
  }

  lemma Parts(p: Parties, env: Env, padding: nat -> bytes, command: str, k: nat, r: Result<()>, written: bytes,
              printed: bytes, start: State, log: seq<Event>, r': Result<()>, written': bytes, z: Point)
    requires Connected(p, env, padding, command, k, r, written, printed, start, log, r', written', z)
    ensures p.s.Commutes() && CommandEnds(CC.Setup(p.s, p.client, padding, written'), k, command, r, written, printed)
    ensures Conforms(p.s, p.server, env, start, log, r', z)
    ensures Replay(p.s, env, written, log).Some? && Replay(p.s, env, written, log).value.output == written'
  {
    hide Conforms, Replay, CommandEnds, Accounting.Accounts, Disciplined, Suite.Commutes;
  }

  lemma DoneIsStuck(u: CC.Setup, a: Spot<Client>)
    requires a.party.pc.CAuthenticated? || a.party.pc.CFailed?
    ensures CC.Onward(u, a) == a
  {
    hide CC.Onward, CutOff;
    if a.party.pc.CFailed? {
      assert CC.GivesUp(u, a, a.party.pc.error);
    }
    ClientStuck(u, a);
  }

  lemma AheadIs(s: Suite, all: bytes, items: seq<Item>)
    requires Flat(s, items) <= all
    ensures Ahead(s, all, items) == all[|Flat(s, items)|..]
    ensures all == Flat(s, items) ==> Ahead(s, all, items) == []
  {
    hide Flat;
  }

  lemma FinishesCommand(u: CC.Setup, k: nat, command: str, r: Result<()>, written: bytes, printed: bytes)
    requires CommandEnds(u, k, command, r, written, printed) && CC.After(u, k).party.pc.CAuthenticated?
    ensures FinishesWith(Commanded(u.s, u.padding, CC.After(u, k), command), r, written, printed)
  {
    hide CC.After, Commanded, FinishesWith;
  }

  lemma GaveUp(u: CC.Setup, k: nat, command: str, r: Result<()>, written: bytes, printed: bytes, e: SshError)
    requires CommandEnds(u, k, command, r, written, printed) && CC.After(u, k).party.pc == CFailed(e)
    ensures r == Err(e) && printed == [] && written == CC.After(u, k).output
  {
    hide CC.After, Commanded, FinishesWith, CutOff;
  }

  /** A server with nothing left to read makes no further step. */
  lemma WaitsInVain(u: SR.Setup, a: Spot<H.Server>)
    requires a.party.pc.SAuthIn? && a.input == []
    ensures SR.Onward(u, a) == a
  {
    hide SR.Onward, CutOff;
    ClosedAtOnce(u.s, a.party.keys, ConnectionClosed);
    assert SR.StopsAt(u, a, ConnectionClosed);
    ServerStuck(u, a);
  }

  /**
   A client with a command and a server, each reading what the other writes, from the first byte on. The
   credentials decide whether there is a session; if there is, exactly that command is run, and what the
   client prints is what the command wrote.
   */
  lemma CommandEndToEnd(p: Parties, env: Env, padding: nat -> bytes, command: str, k: nat, r: Result<()>,
                        written: bytes,
                        printed: bytes, start: State, log: seq<Event>, r': Result<()>, written': bytes, z: Point)
    returns (m: nat)
    requires Connected(p, env, padding, command, k, r, written, printed, start, log, r', written', z)
    ensures if Fits(p) && Granted(p) then m <= |log| && CommandDone(env, start, command, log[m..], r, printed)
            else
              && r == Err(if Fits(p) then REFUSED else TOO_LARGE) && printed == []
              && z == Point(0, EMPTY_MANAGER, start)
  {
    hide *;
    var us, uc := SR.Setup(p.s, p.server, env, written), CC.Setup(p.s, p.client, padding, written');
    ConnectedIsJoined(p, us, uc, command, k, r, printed, start, log, r', z);
    Parts(p, env, padding, command, k, r, written, printed, start, log, r', written', z);
    var w, n1, k1 := HandshakeEnds(p, us, uc);
    FinalIs(p, w);
    var n;
    m, n := ServerEndsAt(us, start, log, r', z);
    ClientEndsAt(uc, k, command, r, written, printed);
    DoneIsStuck(uc, CC.After(uc, k1));
    SameClientEnd(uc, k, k1);
    AheadIs(p.s, written, w.cSent);
    AheadIs(p.s, written', w.sSent);
    if Fits(p) && Granted(p) {
      ServerStuck(us, SR.After(us, n1));
      SameServerEnd(us, n, n1);
      FinalKeys(p, w);
      FinishesCommand(uc, k, command, r, written, printed);
      CommandExchanged(p.s, env, padding, CC.After(uc, k), Replay(p.s, env, written, log[..m]).value, start, command,
                       log[m..], r', z, r, written, printed);
    } else {
      GaveUp(uc, k, command, r, written, printed, w.client.pc.error);
      WaitsInVain(us, SR.After(us, n1));
      SameServerEnd(us, n, n1);
    }
  }

  // ---------------------------------------------------------------- such connections exist

  /** All that the client writes: the handshake, and what goes out for the command. */
  function ClientBytes(p: Parties, w: World, padding: nat -> bytes, command: str, output: str): bytes {
    var written, n, h := Flat(p.s, w.cSent), Count(w.cSent), w.client.keys.SendHalf();
    if !w.client.pc.CAuthenticated? then written
    else
      match Seal(p.s, h, OpenPacket(), padding(n))
      case Err(_) => written
      case Ok(x) => Asked(p.s, padding, n + 1, x.half, written + x.wire, Hears(output), 0, command).written
  }

  /** An authenticated client that hears the command's output writes just that. */
  lemma CommandWrites(p: Parties, w: World, env: Env, padding: nat -> bytes, a: Spot<Client>, k: Link, st: State,
                      command: str, events: seq<Event>, r: Result<()>, z: Point, written: bytes)
    requires Protects(k.keys) && a.party.keys.SendHalf() == k.keys.RecvHalf()
    requires a.party.keys.RecvHalf() == k.keys.SendHalf()
    requires Played(p.s, env, k, events).Some? && Serves(env, Point(0, EMPTY_MANAGER, st), events, r, z)
    requires k.output <= Played(p.s, env, k, events).value.output
    requires a.input == Played(p.s, env, k, events).value.output[|k.output|..]
    requires a.party == w.client && a.output == Flat(p.s, w.cSent) && a.sends == Count(w.cSent)
    requires a.party.pc.CAuthenticated?
    requires written == ClientBytes(p, w, padding, command, env.outside(2).output)
    requires a.output <= written && k.input == written[|a.output|..]
    ensures Commanded(p.s, padding, a, command).written == written
  {
    hide Protects, Played, Serves, Commanded, Seal, Open, Answer, Listened, FitsPacket, OpenPacket, ExecPacket, Hears,
      Asked, Flat, Count;
    var s, h, rnd, rnd' := p.s, k.keys.RecvHalf(), padding(a.sends), padding(a.sends + 1);
    CommandOpens(s, padding, a, command);
    var x := Seal(s, h, OpenPacket(), rnd).value;
    AskedIs(s, padding, a.sends + 1, x.half, a.output + x.wire, Hears(env.outside(2).output), 0, command);
    assert k.input == x.wire + written[|a.output + x.wire|..];
    OpenServed(s, env, k, st, rnd, written[|a.output + x.wire|..], events, r, z);
    CommandedIsAsked(s, padding, a, command, Confirmation(0, DEFAULT_WINDOW_SIZE, DEFAULT_MAX_PACKET));
    var o := Open(s, a.party.keys.RecvHalf(), a.input);
    AskedIs(s, padding, a.sends + 1, x.half, a.output + x.wire, Listened(s, o.half, a.input[o.used..]), 0, command);
    var sealed := Seal(s, x.half, ExecPacket(0, command), rnd');
    if sealed.Ok? {
      var rest := written[|a.output + x.wire + sealed.value.wire|..];
      assert k.input == x.wire + sealed.value.wire + rest;
      RequestedSeals(s, h, command, rnd, rnd');
      CommandServed(s, env, k, st, command, rnd, rnd', rest, events, r, z);
    }
  }

  lemma ClientBytesGrow(p: Parties, w: World, padding: nat -> bytes, command: str, output: str)
    ensures Flat(p.s, w.cSent) <= ClientBytes(p, w, padding, command, output)
    ensures !w.client.pc.CAuthenticated? ==> ClientBytes(p, w, padding, command, output) == Flat(p.s, w.cSent)
  {
    hide Seal, Flat, OpenPacket, ExecPacket, Hears, CloseWire;
  }

  /** The server has been fed these bytes, the client what the server wrote: then these are what the client writes. */
  lemma ClientWroteThem(p: Parties, moves: seq<Move>, us: SR.Setup, uc: CC.Setup, command: str, start: State,
                        log: seq<Event>, r': Result<()>, z: Point, k: nat, r: Result<()>, output: bytes, printed: bytes)
    requires p.s.Commutes() && us.s == p.s && us.cfg == p.server && uc.s == p.s && uc.cfg == p.client
    requires Final(RunMoves(p, WORLD_START, moves)) && Padded(RunMoves(p, WORLD_START, moves).cSent, uc.padding)
    requires Padded(RunMoves(p, WORLD_START, moves).sSent, us.env.padding)
    requires us.input == ClientBytes(p, RunMoves(p, WORLD_START, moves), uc.padding, command, us.env.outside(2).output)
    requires Conforms(us.s, us.cfg, us.env, start, log, r', z) && Replay(us.s, us.env, us.input, log).Some?
    requires Replay(us.s, us.env, us.input, log).value.output == uc.input
    requires CommandEnds(uc, k, command, r, output, printed)
    ensures output == us.input
  {
    hide *;
    var w := RunMoves(p, WORLD_START, moves);
    StartKeeps(p);
    RunKeeps(p, WORLD_START, moves);
    FinalIs(p, w);
    ClientBytesGrow(p, w, uc.padding, command, us.env.outside(2).output);
    var after := us.input[|Flat(p.s, w.cSent)|..];
    assert us.input == Flat(p.s, w.cSent) + after;
    var n1 := ServerAlone(p, us, moves, after);
    var m, n := ServerEndsAt(us, start, log, r', z);
    SameServerEnd(us, n, n1);
    var reply := uc.input[|Flat(p.s, w.sSent)|..];
    assert uc.input == Flat(p.s, w.sSent) + reply;
    var k1 := ClientAlone(p, uc, moves, reply);
    ClientEndsAt(uc, k, command, r, output, printed);
    SameClientEnd(uc, k, k1);
    if w.client.pc.CAuthenticated? {
      FinalKeys(p, w);
      FinishesCommand(uc, k, command, r, output, printed);
      CommandWrites(p, w, us.env, uc.padding, CC.After(uc, k), Replay(p.s, us.env, us.input, log[..m]).value, start,
                    command, log[m..], r', z, us.input);
      WrittenIs(Commanded(p.s, uc.padding, CC.After(uc, k), command), r, output, printed);
    } else {
      GaveUp(uc, k, command, r, output, printed, w.client.pc.error);
    }
  }

  lemma WrittenIs(f: Finish, r: Result<()>, output: bytes, printed: bytes)
    requires FinishesWith(f, r, output, printed)
    ensures f.written == output
  {
  }

  /** The two programs run on each other's bytes. */
  method Converse(p: Parties, env: Env, padding: nat -> bytes, command: str, root: bytes, files: Disk, moves: seq<Move>)
    returns (r: Result<()>, written: bytes, printed: bytes, r': Result<()>, written': bytes, channels: Manager,
             state: State)
    requires p.s.Commutes() && p.server.cookie == env.cookie && p.server.secret == env.secret
    requires Final(RunMoves(p, WORLD_START, moves)) && Padded(RunMoves(p, WORLD_START, moves).cSent, padding)
    requires Padded(RunMoves(p, WORLD_START, moves).sSent, env.padding)
    ensures exists k, log, turn ::
      Connected(p, env, padding, command, k, r, written, printed, State(Handler(0, map[], map[], root), files), log,
                r', written', Point(turn, channels, state))
  {
    ghost var start := State(Handler(0, map[], map[], root), files);
    hide *;
    var input := ClientBytes(p, RunMoves(p, WORLD_START, moves), padding, command, env.outside(2).output);
    r', written', channels, state := SC.HandleConnection(p.s, p.server.db, env, input, root, files);
    ghost var log, turn :| SC.Explains(p.s, p.server.db, env, input, start, log, r', written',
                                       Point(turn, channels, state));
    ghost var us, uc := SR.Setup(p.s, p.server, env, input), CC.Setup(p.s, p.client, padding, written');
    r, written, printed := RunClientCommand(CC.Setup(p.s, p.client, padding, written'), command);
    ghost var k :| CommandEnds(uc, k, command, r, written, printed);
    Explained(p, env, input, start, log, r', written', Point(turn, channels, state));
    ClientWroteThem(p, moves, us, uc, command, start, log, r', Point(turn, channels, state), k, r, written, printed);
    Connects(p, env, padding, command, k, r, written, printed, start, log, r', written', Point(turn, channels, state));
  }

  lemma Explained(p: Parties, env: Env, input: bytes, start: State, log: seq<Event>, r: Result<()>, output: bytes,
                  z: Point)
    requires p.server.cookie == env.cookie && p.server.secret == env.secret
    requires SC.Explains(p.s, p.server.db, env, input, start, log, r, output, z)
    ensures Conforms(p.s, p.server, env, start, log, r, z)
    ensures Replay(p.s, env, input, log).Some? && Replay(p.s, env, input, log).value.output == output
  {
    hide Conforms, Replay, Accounting.Accounts, Disciplined;
  }

  lemma Connects(p: Parties, env: Env, padding: nat -> bytes, command: str, k: nat, r: Result<()>, written: bytes,
                 printed: bytes, start: State, log: seq<Event>, r': Result<()>, written': bytes, z: Point)
    requires p.s.Commutes() && p.server.cookie == env.cookie && p.server.secret == env.secret
    requires CommandEnds(CC.Setup(p.s, p.client, padding, written'), k, command, r, written, printed)
    requires SC.Explains(p.s, p.server.db, env, written, start, log, r', written', z)
    ensures Connected(p, env, padding, command, k, r, written, printed, start, log, r', written', z)
  {
    hide SC.Explains, CommandEnds, Suite.Commutes;
  }
}
