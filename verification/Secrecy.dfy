/**
 What is on the wire once the keys are installed: every packet enciphered bit by bit under the key of its
 direction, no part of the keystream used twice, and every packet under its own tag.
 */
module Secrecy {
  import opened Bytes
  import opened Packets
  import opened Crypto
  import opened Transport
  import opened Version
  import opened Kex
  import opened Auth
  import opened SftpHandler
  import opened Session
  import opened Server
  import opened Traffic
  import opened Conduct
  import Accounting
  import CommandRuns
  import SR = ServerRuns
  import SC = ServerConnection

  // ---------------------------------------------------------------- the keys of a session

  function ToClient(s: Suite, r: KexResult, pos: nat): Cipher {
    Cipher(s.sha256(KeyInput(r, 'D')), s.sha256(KeyInput(r, 'B'))[..16], pos)
  }

  function ToServer(s: Suite, r: KexResult, pos: nat): Cipher {
    Cipher(s.sha256(KeyInput(r, 'C')), s.sha256(KeyInput(r, 'A'))[..16], pos)
  }

  /** The server's keys, `pos` bytes into the keystream towards the client. */
  predicate Keyed(s: Suite, r: KexResult, k: Keys, pos: nat) {
    && k.SendHalf().cipher == Some(ToClient(s, r, pos)) && k.sendMac == Some(s.sha256(KeyInput(r, 'F')))
    && k.RecvHalf().cipher.Some? && k.recvMac == Some(s.sha256(KeyInput(r, 'E')))
    && k.RecvHalf().cipher == Some(ToServer(s, r, k.RecvHalf().cipher.value.pos))
  }

  /** The length of a packet under encryption, without its tag. */
  function Length(p: Packet): nat { 4 + PacketLength(|p.payload|, 16) }

  /** How many bytes the packets sent in `log[i..j]` take, without their tags. */
  function Enciphered(log: seq<Event>, i: nat, j: nat): nat
    requires i <= j <= |log|
    decreases j
  {
    if i == j then 0
    else Enciphered(log, i, j - 1) + (if log[j - 1].Sent? then Length(log[j - 1].packet) else 0)
  }

  lemma InstallingKeys(s: Suite, env: Env, k: Link, r: KexResult)
    ensures Transfer(s, env, k, Installed(r)).Some? && Keyed(s, r, Transfer(s, env, k, Installed(r)).value.keys, 0)
  {
    hide ServerInstall, ClientInstall, KeyInput;
    InstalledKeys(s, k.keys, r);
  }

  lemma SendingKeyed(s: Suite, env: Env, r: KexResult, k: Link, pos: nat, p: Packet, secure: bool)
    requires Keyed(s, r, k.keys, pos) && Transfer(s, env, k, Sent(p, secure)).Some?
    ensures Keyed(s, r, Transfer(s, env, k, Sent(p, secure)).value.keys, pos + Length(p))
  {
    hide Seal, Keyed, PacketLength;
    SealGoes(s, k.keys.SendHalf(), p, env.padding(k.sends));
    NextKeyed(s, r, k.keys, pos, Length(p));
    Ciphered(s, r, k.keys, pos);
  }

  lemma Ciphered(s: Suite, r: KexResult, k: Keys, pos: nat)
    requires Keyed(s, r, k, pos)
    ensures k.SendHalf().Block() == 16 && k.SendHalf().cipher.Some?
  {
    hide KeyInput;
  }

  lemma NextKeyed(s: Suite, r: KexResult, k: Keys, pos: nat, n: nat)
    requires Keyed(s, r, k, pos)
    ensures Keyed(s, r, k.WithSend(k.SendHalf().Next(n)), pos + n)
  {
    hide KeyInput;
  }

  lemma ReceivingKeyed(s: Suite, r: KexResult, k: Link, pos: nat, got: Result<Packet>)
    requires Keyed(s, r, k.keys, pos) && Obtains(s, k, got).Some?
    ensures Keyed(s, r, Obtains(s, k, got).value.keys, pos)
  {
    OpenKeepsKey(s, k.keys.RecvHalf(), k.input);
    hide Open, KeyInput;
  }

  /** A receive moves a half on and leaves its keys alone. */
  lemma OpenKeepsKey(s: Suite, h: Half, input: bytes)
    ensures var h' := Open(s, h, input).half;
            && h'.mac == h.mac && (h.cipher.None? ==> h'.cipher == None)
            && (h.cipher.Some? ==>
                  && h'.cipher.Some? && h'.cipher.value.key == h.cipher.value.key
                  && h'.cipher.value.iv == h.cipher.value.iv)
  {
    hide Unframe, FromBE32, Masked;
  }

  lemma StepKeyed(s: Suite, env: Env, r: KexResult, k: Link, pos: nat, e: Event)
    requires Keyed(s, r, k.keys, pos) && Transfer(s, env, k, e).Some? && !e.Installed?
    ensures Keyed(s, r, Transfer(s, env, k, e).value.keys, pos + if e.Sent? then Length(e.packet) else 0)
  {
    hide Keyed, Delivers, Obtains, Received, Consumed, OwnVersion, ServerInstall, Length;
    match e {
      case Sent(p, secure) => SendingKeyed(s, env, r, k, pos, p, secure);
      case Recvd(p, secure) => ReceivingKeyed(s, r, k, pos, Ok(p));
      case Lost(error) => ReceivingKeyed(s, r, k, pos, Err(error));
      case _ =>
    }
  }

  /** After the keys are installed they stay, and the keystream moves on with what is sent. */
  lemma {:induction false} KeyedAt(s: Suite, env: Env, input: bytes, log: seq<Event>, i: nat, j: nat)
    requires i < j <= |log| && log[i].Installed? && forall n :: i < n < j ==> !log[n].Installed?
    requires Replay(s, env, input, log[..j]).Some?
    ensures Keyed(s, log[i].result, Replay(s, env, input, log[..j]).value.keys, Enciphered(log, i + 1, j))
    decreases j
  {
    hide Transfer, Keyed;
    var e, before := log[j - 1], log[..j][..j - 1];
    assert before == log[..j - 1] && log[..j][j - 1] == e;
    var k := Replay(s, env, input, before).value;
    if j == i + 1 {
      InstallingKeys(s, env, k, e.result);
    } else {
      KeyedAt(s, env, input, log, i, j - 1);
      StepKeyed(s, env, log[i].result, k, Enciphered(log, i + 1, j - 1), e);
    }
  }

  /** The sequence number is the number of packets sent so far. */
  lemma {:induction false} SendsAreNumbered(s: Suite, env: Env, input: bytes, log: seq<Event>)
    requires Replay(s, env, input, log).Some?
    ensures var k := Replay(s, env, input, log).value; k.keys.sendSeq == k.sends % TWO_32
    decreases |log|
  {
    hide Transfer;
    if log != [] {
      var n := |log| - 1;
      SendsAreNumbered(s, env, input, log[..n]);
      NumberedOn(s, env, Replay(s, env, input, log[..n]).value, log[n]);
    }
  }

  lemma NumberedOn(s: Suite, env: Env, k: Link, e: Event)
    requires k.keys.sendSeq == k.sends % TWO_32 && Transfer(s, env, k, e).Some?
    ensures var k' := Transfer(s, env, k, e).value; k'.keys.sendSeq == k'.sends % TWO_32
  {
    hide Seal, Open, SessionKey, PacketLength, Received, Consumed, OwnVersion;
    if e.Sent? {
      SealGoes(s, k.keys.SendHalf(), e.packet, env.padding(k.sends));
      WrapCounts(k.sends);
    }
  }

  lemma {:induction false} OutputIsPrefix(s: Suite, env: Env, input: bytes, log: seq<Event>, m: nat)
    requires m <= |log| && Replay(s, env, input, log).Some?
    ensures Replay(s, env, input, log[..m]).Some?
    ensures Replay(s, env, input, log[..m]).value.output <= Replay(s, env, input, log).value.output
  {
    hide Replay, CommandRuns.Played;
    SR.ReplayPrefix(s, env, input, log, m);
    CommandRuns.ReplayGoesOn(s, env, input, log, m);
    CommandRuns.OutputOnlyGrows(s, env, Replay(s, env, input, log[..m]).value, log[m..]);
  }

  // ---------------------------------------------------------------- what is sent

  lemma SendCarries(s: Suite, env: Env, r: KexResult, k: Link, pos: nat, p: Packet, secure: bool)
    requires Keyed(s, r, k.keys, pos) && Transfer(s, env, k, Sent(p, secure)).Some?
    ensures var k', data := Transfer(s, env, k, Sent(p, secure)).value, Frame(p, 16, env.padding(k.sends));
            && data.Ok? && |data.value| == Length(p) && k.output <= k'.output
            && var wire, n := k'.output[|k.output|..], |data.value|;
            && |wire| == n + 32 && Enciphers(s, ToClient(s, r, pos), data.value, wire[..n])
            && wire[n..] == s.hmac(s.sha256(KeyInput(r, 'F')), BE32(k.keys.sendSeq) + data.value)
  {
    var h, rnd := k.keys.SendHalf(), env.padding(k.sends);
    SealIs(s, h, p, rnd);
    SealGoes(s, h, p, rnd);
    hide Seal, KeyInput, PacketLength, Enciphers, Frame;
    var k' := Transfer(s, env, k, Sent(p, secure)).value;
    assert k'.output[|k.output|..] == Seal(s, h, p, rnd).value.wire;
  }

  /**
   On any connection, the bytes written for a packet after the keys are installed are: its frame, a bit changed
   exactly where the keystream of the session's key towards the client has one, and then the tag over the
   frame under the number of packets sent before. The keystream starts where all packets since the
   installation have left it.
   */
  lemma SentIsEnciphered(s: Suite, db: Db, env: Env, input: bytes, start: State, log: seq<Event>, r: Result<()>,
                         output: bytes, z: Point, i: nat, j: nat)
    requires SC.Explains(s, db, env, input, start, log, r, output, z)
    requires i < j < |log| && log[i].Installed? && log[j].Sent?
    ensures Replay(s, env, input, log[..j]).Some? && Replay(s, env, input, log[..j + 1]).Some?
    ensures var k, k' := Replay(s, env, input, log[..j]).value, Replay(s, env, input, log[..j + 1]).value;
            var key, frame := log[i].result, Frame(log[j].packet, 16, env.padding(k.sends));
            && k.output <= k'.output <= output && frame.Ok? && |frame.value| == Length(log[j].packet)
            && var wire, n := k'.output[|k.output|..], |frame.value|;
            && |wire| == n + 32
            && Enciphers(s, ToClient(s, key, Enciphered(log, i + 1, j)), frame.value, wire[..n])
            && wire[n..] == s.hmac(s.sha256(KeyInput(key, 'F')), BE32(k.sends % TWO_32) + frame.value)
  {
    hide *;
    Replays(s, db, env, input, start, log, r, output, z);
    Once(db, log, i);
    OutputIsPrefix(s, env, input, log, j);
    OutputIsPrefix(s, env, input, log, j + 1);
    var k := Replay(s, env, input, log[..j]).value;
    ReplayAppend(s, env, input, log[..j], log[j]);
    assert log[..j] + [log[j]] == log[..j + 1];
    KeyedAt(s, env, input, log, i, j);
    SendsAreNumbered(s, env, input, log[..j]);
    SendCarries(s, env, log[i].result, k, Enciphered(log, i + 1, j), log[j].packet, log[j].secure);
  }

  lemma Replays(s: Suite, db: Db, env: Env, input: bytes, start: State, log: seq<Event>, r: Result<()>,
                output: bytes, z: Point)
    requires SC.Explains(s, db, env, input, start, log, r, output, z)
    ensures Disciplined(db, log)
    ensures Replay(s, env, input, log).Some? && Replay(s, env, input, log).value.output == output
  {
    hide Disciplined, Conforms, Replay, Accounting.Accounts;
  }

  lemma Once(db: Db, log: seq<Event>, i: nat)
    requires Disciplined(db, log) && i < |log| && log[i].Installed?
    ensures forall n :: i < n < |log| ==> !log[n].Installed?
  {
    hide Earns;
  }

  /** So no part of the keystream is used for two packets. */
  lemma {:induction false} KeystreamIsNotReused(log: seq<Event>, i: nat, j: nat, n: nat)
    requires i <= j < n <= |log| && log[j].Sent?
    ensures Enciphered(log, i, j) + Length(log[j].packet) <= Enciphered(log, i, n)
    decreases n
  {
    hide Length;
    if j < n - 1 {
      KeystreamIsNotReused(log, i, j, n - 1);
    }
  }

  // ---------------------------------------------------------------- what is received

  /**
   A packet received after the keys are installed lay in front of the server as a frame under the session's key
   towards the server, and with the tag that only the holder of its MAC key can make.
   */
  lemma ReceivedIsTagged(s: Suite, db: Db, env: Env, input: bytes, start: State, log: seq<Event>, r: Result<()>,
                         output: bytes, z: Point, i: nat, j: nat) returns (frame: bytes)
    requires SC.Explains(s, db, env, input, start, log, r, output, z)
    requires i < j < |log| && log[i].Installed? && log[j].Recvd?
    ensures Replay(s, env, input, log[..j]).Some? && Unframe(frame) == Ok(log[j].packet)
    ensures var k, key := Replay(s, env, input, log[..j]).value, log[i].result;
            && k.keys.ciphers.Some? && |k.input| >= |frame| + 32
            && Enciphers(s, ToServer(s, key, k.keys.ciphers.value.decrypt.pos), frame, k.input[..|frame|])
            && k.input[|frame|..|frame| + 32]
                 == s.hmac(s.sha256(KeyInput(key, 'E')), BE32(k.keys.recvSeq) + frame)
  {
    hide *;
    Replays(s, db, env, input, start, log, r, output, z);
    Once(db, log, i);
    OutputIsPrefix(s, env, input, log, j);
    OutputIsPrefix(s, env, input, log, j + 1);
    var k := Replay(s, env, input, log[..j]).value;
    ReplayAppend(s, env, input, log[..j], log[j]);
    assert log[..j] + [log[j]] == log[..j + 1];
    KeyedAt(s, env, input, log, i, j);
    frame := ReceiveArrives(s, env, log[i].result, k, Enciphered(log, i + 1, j), log[j].packet, log[j].secure);
  }

  lemma ReceiveArrives(s: Suite, env: Env, r: KexResult, k: Link, pos: nat, p: Packet, secure: bool)
    returns (frame: bytes)
    requires Keyed(s, r, k.keys, pos) && Transfer(s, env, k, Recvd(p, secure)).Some?
    ensures Unframe(frame) == Ok(p) && k.keys.ciphers.Some? && |k.input| >= |frame| + 32
    ensures Enciphers(s, ToServer(s, r, k.keys.ciphers.value.decrypt.pos), frame, k.input[..|frame|])
    ensures k.input[|frame|..|frame| + 32] == s.hmac(s.sha256(KeyInput(r, 'E')), BE32(k.keys.recvSeq) + frame)
  {
    hide Open, KeyInput, Unframe, Enciphers, FromBE32;
    var h := k.keys.RecvHalf();
    frame := OpensArrived(s, h, k.input);
    var wire :| wire <= k.input && Carries(s, h, frame, wire);
    assert wire[..|frame|] == k.input[..|frame|] && wire[|frame|..] == k.input[|frame|..|frame| + 32];
  }
}
