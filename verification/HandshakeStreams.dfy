/**
 The composed client and server over streams that deliver their bytes piece by piece: a program sees
 only what has arrived. Every such run is a run over whole streams, so what is proved of those holds here.
 */
module HandshakeStreams {
  import opened Bytes
  import opened Packets
  import opened Crypto
  import opened Transport
  import opened Version
  import opened Kex
  import opened Handshake
  import opened HandshakeProof
  import opened HandshakeRuns

  /** A world, and how much of either stream has arrived. */
  datatype Streams = Streams(w: World, atClient: nat, atServer: nat)

  predicate Sane(x: Streams) { x.atClient <= |x.w.s2c| && x.atServer <= |x.w.c2s| }

  datatype PartMove =
    | Moves(move: Move)     // one step of one program
    | ToClient(n: nat)      // up to n more bytes arrive
    | ToServer(n: nat)

  const STREAMS_START := Streams(WORLD_START, 0, 0)

  function Min(a: nat, b: nat): nat { if a < b then a else b }

  function ClientPart(p: Parties, x: Streams, rnd: bytes): Streams
    requires Sane(x)
  {
    match ClientStep(p.s, p.client, x.w.client, x.w.s2c[..x.atClient], rnd)
    case None => x
    case Some(t) =>
      var w := x.w;
      x.(w := w.(client := t.state, s2c := w.s2c[t.used..], c2s := w.c2s + Flat(p.s, Items(t.wrote)),
                 cSent := w.cSent + Items(t.wrote), cGot := if t.used > 0 then w.cGot + 1 else w.cGot),
         atClient := x.atClient - t.used)
  }

  function ServerPart(p: Parties, x: Streams, rnd: bytes): Streams
    requires Sane(x)
  {
    match ServerStep(p.s, p.server, x.w.server, x.w.c2s[..x.atServer], rnd)
    case None => x
    case Some(t) =>
      var w := x.w;
      x.(w := w.(server := t.state, c2s := w.c2s[t.used..], s2c := w.s2c + Flat(p.s, Items(t.wrote)),
                 sSent := w.sSent + Items(t.wrote), sGot := if t.used > 0 then w.sGot + 1 else w.sGot),
         atServer := x.atServer - t.used)
  }

  function MovedPart(p: Parties, x: Streams, m: PartMove): (x': Streams)
    requires Sane(x)
    ensures Sane(x')
  {
    match m
    case Moves(ClientMoves(rnd)) => ClientPart(p, x, rnd)
    case Moves(ServerMoves(rnd)) => ServerPart(p, x, rnd)
    case ToClient(n) => x.(atClient := Min(x.atClient + n, |x.w.s2c|))
    case ToServer(n) => x.(atServer := Min(x.atServer + n, |x.w.c2s|))
  }

  function RunParts(p: Parties, x: Streams, moves: seq<PartMove>): (x': Streams)
    requires Sane(x)
    ensures Sane(x')
    decreases |moves|
  {
    if moves == [] then x else RunParts(p, MovedPart(p, x, moves[0]), moves[1..])
  }

  // ---------------------------------------------------------------- a move on a part is a move on the whole

  lemma SliceOfPrefix(b: bytes, n: nat, i: nat, j: nat)
    requires i <= j <= n <= |b|
    ensures b[..n][i..j] == b[i..j]
  {
  }

  lemma PlaintextPrefix(s: Suite, h: Half, input: bytes, n: nat)
    requires n <= |input|
    ensures var part := Plaintext(s, h, input[..n]);
            (part.Stopped? && part.early.outcome.Starved?) || Plaintext(s, h, input) == part
  {
    hide FromBE32, Masked;
    var block := h.Block();
    if n >= block {
      assert input[..n][..block] == input[..block];
      var len := FromBE32(h.Through(s, 0, input[..block])[..4]);
      if block <= 4 + len <= n {
        SliceOfPrefix(input, n, block, 4 + len);
      }
    }
  }

  lemma OpenPrefix(s: Suite, h: Half, input: bytes, n: nat)
    requires n <= |input|
    ensures Open(s, h, input[..n]).outcome.Starved? || Open(s, h, input) == Open(s, h, input[..n])
  {
    PlaintextPrefix(s, h, input, n);
    hide Plaintext, Unframe, Masked;
    var part := Plaintext(s, h, input[..n]);
    if part.Got? && |part.full| + HMAC_SIZE <= n {
      var k := |part.full|;
      SliceOfPrefix(input, n, k, k + HMAC_SIZE);
    }
  }

  lemma ReceivePrefix(s: Suite, keys: Keys, input: bytes, n: nat)
    requires n <= |input|
    ensures Receive(s, keys, input[..n]).Waiting? || Receive(s, keys, input) == Receive(s, keys, input[..n])
  {
    OpenPrefix(s, keys.RecvHalf(), input, n);
    hide Open;
  }

  lemma {:induction false} ScanPrefix(input: bytes, n: nat, k: nat)
    requires k <= n <= |input|
    ensures ScanFrom(input[..n], k).Eof? || ScanFrom(input, k) == ScanFrom(input[..n], k)
    decreases n - k
  {
    if k < n {
      assert input[..n][..k + 1] == input[..k + 1];
      ScanPrefix(input, n, k + 1);
    }
  }

  lemma VersionPrefix(input: bytes, n: nat)
    requires n <= |input|
    ensures ScanFrom(input[..n], 0).Eof? ||
      (&& !ScanFrom(input, 0).Eof? && Received(input) == Received(input[..n])
       && (Received(input).Ok? ==> Consumed(input) == Consumed(input[..n])))
  {
    ScanPrefix(input, n, 0);
    hide ScanFrom, Checked;
    if ScanFrom(input, 0).Found? && ScanFrom(input[..n], 0).Found? {
      var end := ScanFrom(input, 0).end;
      assert input[..n][..end - 2] == input[..end - 2];
    }
  }

  lemma ClientPrefix(p: Parties, c: Client, input: bytes, n: nat, rnd: bytes)
    requires n <= |input|
    ensures var part := ClientStep(p.s, p.client, c, input[..n], rnd);
            part == None || (part == ClientStep(p.s, p.client, c, input, rnd) && part.value.used <= n)
  {
    hide ClientStep, Receive, Received, Consumed, ScanFrom, ClientPacket, ClientHandles, Seal, ClientNext, OwnVersion;
    if ClientSending(c.pc) {
      ClientSendTurn(p.s, p.client, c, ClientPacket(p.s, p.client, c.pc), input, rnd);
      ClientSendTurn(p.s, p.client, c, ClientPacket(p.s, p.client, c.pc), input[..n], rnd);
    } else if ClientReceiving(c.pc) {
      ReceivePrefix(p.s, c.keys, input, n);
      ClientReceiveTurn(p.s, p.client, c, input, rnd);
      ClientReceiveTurn(p.s, p.client, c, input[..n], rnd);
    } else if c.pc.CVersionOut? || c.pc.CVersionIn? {
      VersionPrefix(input, n);
      ClientGreetTurn(p.s, p.client, c, input, rnd);
      ClientGreetTurn(p.s, p.client, c, input[..n], rnd);
    } else {
      ClientEnded(p.s, p.client, c, input[..n], rnd);
    }
  }

  lemma ServerPrefix(p: Parties, v: Server, input: bytes, n: nat, rnd: bytes)
    requires n <= |input|
    ensures var part := ServerStep(p.s, p.server, v, input[..n], rnd);
            part == None || (part == ServerStep(p.s, p.server, v, input, rnd) && part.value.used <= n)
  {
    hide ServerStep, Receive, Received, Consumed, ScanFrom, ServerPacket, ServerHandles, Seal, ServerNext, OwnVersion,
      KeysAfter;
    if ServerSending(v.pc) {
      ServerSendTurn(p.s, p.server, v, ServerPacket(p.s, p.server, v), input, rnd);
      ServerSendTurn(p.s, p.server, v, ServerPacket(p.s, p.server, v), input[..n], rnd);
    } else if ServerReceiving(v.pc) {
      ReceivePrefix(p.s, v.keys, input, n);
      ServerReceiveTurn(p.s, p.server, v, input, rnd);
      ServerReceiveTurn(p.s, p.server, v, input[..n], rnd);
    } else if v.pc.SVersionOut? || v.pc.SVersionIn? {
      VersionPrefix(input, n);
      ServerGreetTurn(p.s, p.server, v, input, rnd);
      ServerGreetTurn(p.s, p.server, v, input[..n], rnd);
    } else {
      ServerEnded(p.s, p.server, v, input[..n], rnd);
    }
  }

  /** A move over parts is a move over the whole streams, or none; with everything arrived it is that move. */
  lemma PartIsMove(p: Parties, x: Streams, m: Move)
    requires Sane(x)
    ensures MovedPart(p, x, Moves(m)).w == x.w || MovedPart(p, x, Moves(m)).w == Moved(p, x.w, m)
    ensures x.atClient == |x.w.s2c| && x.atServer == |x.w.c2s| ==> MovedPart(p, x, Moves(m)).w == Moved(p, x.w, m)
  {
    hide ClientStep, ServerStep, Flat;
    match m {
      case ClientMoves(rnd) =>
        ClientPrefix(p, x.w.client, x.w.s2c, x.atClient, rnd);
        assert x.atClient == |x.w.s2c| ==> x.w.s2c[..x.atClient] == x.w.s2c;
      case ServerMoves(rnd) =>
        ServerPrefix(p, x.w.server, x.w.c2s, x.atServer, rnd);
        assert x.atServer == |x.w.c2s| ==> x.w.c2s[..x.atServer] == x.w.c2s;
    }
  }

  // ---------------------------------------------------------------- all runs

  /** Every run over streams cut anywhere is, but for the waiting, a run over whole streams. */
  lemma {:induction false} PartsAreWhole(p: Parties, x: Streams, moves: seq<PartMove>) returns (whole: seq<Move>)
    requires Sane(x)
    ensures RunParts(p, x, moves).w == RunMoves(p, x.w, whole)
    decreases |moves|
  {
    hide Moved;
    if moves == [] {
      return [];
    }
    var x' := MovedPart(p, x, moves[0]);
    var rest := PartsAreWhole(p, x', moves[1..]);
    if moves[0].Moves? {
      PartIsMove(p, x, moves[0].move);
    }
    hide MovedPart;
    if x'.w == x.w {
      whole := rest;
    } else {
      whole := [moves[0].move] + rest;
      assert whole[1..] == rest;
    }
  }

  /** So over such streams too no check fails, packets meet the keys they were sent with, and the keys agree. */
  lemma NothingFailsOverParts(p: Parties, moves: seq<PartMove>)
    requires p.s.Commutes()
    ensures var w := RunParts(p, STREAMS_START, moves).w;
            && !w.server.pc.SFailed?
            && (w.client.pc.CFailed? ==>
                  || (w.client.pc.error == REFUSED && !Granted(p))
                  || (w.client.pc.error == TOO_LARGE && !Fits(p)))
            && (ClientReceiving(w.client.pc) && w.cGot < |w.sSent| ==>
                  w.sSent[w.cGot].Framed? && w.client.keys.RecvHalf() == w.sSent[w.cGot].half)
            && (ServerReceiving(w.server.pc) && w.sGot < |w.cSent| ==>
                  w.cSent[w.sGot].Framed? && w.server.keys.RecvHalf() == w.cSent[w.sGot].half)
            && (w.client.keys.IsEncrypted() && w.server.keys.IsEncrypted() ==>
                  && SameKey(w.client.keys.SendHalf(), w.server.keys.RecvHalf())
                  && SameKey(w.server.keys.SendHalf(), w.client.keys.RecvHalf()))
  {
    hide RunParts, RunMoves, Granted, Fits, SameKey, ClientReceiving, ServerReceiving;
    var whole := PartsAreWhole(p, STREAMS_START, moves);
    NoCheckFails(p, whole);
    ReceivedAsSent(p, whole);
    KeysAgree(p, whole);
  }

  /** And every run can be finished: let everything arrive, and let someone move. */
  lemma {:induction false} PartsComplete(p: Parties, x: Streams, rnd: bytes) returns (more: seq<PartMove>)
    requires p.s.Commutes() && Sane(x) && Inv(p, x.w)
    ensures Final(RunParts(p, x, more).w) && |more| <= 3 * Rank(x.w)
    decreases Rank(x.w)
  {
    hide ClientMove, ServerMove, Inv, Final, Rank, ClientPart, ServerPart;
    if Final(x.w) {
      return [];
    }
    SomeoneMoves(p, x.w, rnd, rnd);
    var m := if ClientMove(p, x.w, rnd) != x.w then ClientMoves(rnd) else ServerMoves(rnd);
    MovesLowerRank(p, x.w, m);
    RunKeeps(p, x.w, [m]);
    var first := [ToClient(|x.w.s2c|), ToServer(|x.w.c2s|), Moves(m)];
    var arrived := Streams(x.w, |x.w.s2c|, |x.w.c2s|);
    PartIsMove(p, arrived, m);
    var x' := MovedPart(p, arrived, Moves(m));
    OneMove(p, x.w, m);
    var rest := PartsComplete(p, x', rnd);
    more := first + rest;
    ThreeParts(p, x, m, rest);
  }

  lemma OneMove(p: Parties, w: World, m: Move)
    ensures RunMoves(p, w, [m]) == Moved(p, w, m)
  {
    hide Moved;
    assert [m][1..] == [];
  }

  lemma ThreeParts(p: Parties, x: Streams, m: Move, rest: seq<PartMove>)
    requires Sane(x)
    ensures var arrived := Streams(x.w, |x.w.s2c|, |x.w.c2s|);
            RunParts(p, x, [ToClient(|x.w.s2c|), ToServer(|x.w.c2s|), Moves(m)] + rest)
            == RunParts(p, MovedPart(p, arrived, Moves(m)), rest)
  {
    hide ClientPart, ServerPart;
    var moves := [ToClient(|x.w.s2c|), ToServer(|x.w.c2s|), Moves(m)] + rest;
    var x1 := MovedPart(p, x, moves[0]);
    assert moves[1..][1..][1..] == rest;
    assert RunParts(p, x, moves) == RunParts(p, x1, moves[1..]);
    var x2 := MovedPart(p, x1, moves[1..][0]);
    assert x2 == Streams(x.w, |x.w.s2c|, |x.w.c2s|);
    assert RunParts(p, x1, moves[1..]) == RunParts(p, x2, moves[1..][1..]);
  }

  lemma EveryPartialRunCanBeFinished(p: Parties, moves: seq<PartMove>, rnd: bytes) returns (more: seq<PartMove>)
    requires p.s.Commutes()
    ensures |more| <= 72 && Final(RunParts(p, RunParts(p, STREAMS_START, moves), more).w)
  {
    hide RunParts, RunMoves, Inv, Final, Rank, Moved;
    StartKeeps(p);
    var x := RunParts(p, STREAMS_START, moves);
    var whole := PartsAreWhole(p, STREAMS_START, moves);
    RunKeeps(p, WORLD_START, whole);
    MovesLowerRank(p, x.w, ClientMoves(rnd));
    more := PartsComplete(p, x, rnd);
  }
}
