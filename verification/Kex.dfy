/**
 src/transport/kex.rs: the exchange hash of section 8 of RFC 4253, the two `complete`
 operations, the KEXINIT payload, and the six keys both ends derive from the result.
 */
module Kex {
  import opened Bytes
  import opened Wire
  import opened Mpint
  import opened Crypto
  import opened Transport

  datatype Inputs = Inputs(
    clientVersion: str, serverVersion: str, clientKexinit: bytes, serverKexinit: bytes,
    hostKey: bytes, clientPub: bytes, serverPub: bytes)
  {
    function Fields(): seq<bytes> {
      [clientVersion, serverVersion, clientKexinit, serverKexinit, hostKey, clientPub, serverPub]
    }
  }

  datatype KexResult = KexResult(secret: bytes, hash: bytes)

  /** The bytes that are hashed. */
  function Transcript(k: Inputs, secret: bytes): bytes {
    EncString(k.clientVersion) + EncString(k.serverVersion) + EncString(k.clientKexinit)
    + EncString(k.serverKexinit) + EncString(k.hostKey) + EncString(k.clientPub)
    + EncString(k.serverPub) + EncMpint(secret)
  }

  function ExchangeHash(s: Suite, k: Inputs, secret: bytes): Digest { s.sha256(Transcript(k, secret)) }

  method ComputeExchangeHash(s: Suite, k: Inputs, secret: bytes) returns (hash: bytes)
    ensures hash == ExchangeHash(s, k, secret)
  {
    hide EncString, MpintBody;
    var buf := new Buffer();
    buf.WriteString(k.clientVersion);
    buf.WriteString(k.serverVersion);
    buf.WriteString(k.clientKexinit);
    buf.WriteString(k.serverKexinit);
    buf.WriteString(k.hostKey);
    buf.WriteString(k.clientPub);
    buf.WriteString(k.serverPub);
    buf.WriteMpint(secret);
    assert buf.data == Transcript(k, secret);
    hash := s.sha256(buf.data);
  }

  // ---------------------------------------------------------------- unique decodability

  function EncStrings(fields: seq<bytes>): bytes {
    if fields == [] then [] else EncString(fields[0]) + EncStrings(fields[1..])
  }

  predicate ShortFields(fields: seq<bytes>) {
    forall i :: 0 <= i < |fields| ==> |fields[i]| < TWO_32
  }

  lemma {:induction false} EncStringsInjective(a: seq<bytes>, b: seq<bytes>, x: bytes, y: bytes)
    requires |a| == |b| && ShortFields(a) && ShortFields(b)
    requires EncStrings(a) + x == EncStrings(b) + y
    ensures a == b && x == y
    decreases |a|
  {
    hide EncString;
    if a == [] {
      assert EncStrings(a) + x == x && EncStrings(b) + y == y;
    } else {
      assert EncStrings(a) + x == EncString(a[0]) + (EncStrings(a[1..]) + x);
      assert EncStrings(b) + y == EncString(b[0]) + (EncStrings(b[1..]) + y);
      EncStringPrefixFree(a[0], b[0], EncStrings(a[1..]) + x, EncStrings(b[1..]) + y);
      EncStringsInjective(a[1..], b[1..], x, y);
      assert a == [a[0]] + a[1..] && b == [b[0]] + b[1..];
    }
  }

  lemma {:induction false} EncStringsAppend(fields: seq<bytes>, last: bytes)
    ensures EncStrings(fields + [last]) == EncStrings(fields) + EncString(last)
    decreases |fields|
  {
    hide EncString;
    if fields == [] {
      assert fields + [last] == [last] && [last][1..] == [];
    } else {
      EncStringsAppend(fields[1..], last);
      assert (fields + [last])[1..] == fields[1..] + [last];
    }
  }

  lemma TranscriptIsFieldList(k: Inputs, secret: bytes)
    ensures Transcript(k, secret) == EncStrings(k.Fields() + [MpintBody(secret)])
  {
    hide EncString;
    var f := k.Fields() + [MpintBody(secret)];
    assert f[..0] == [];
    forall i | 0 <= i < 8
      ensures EncStrings(f[..i + 1]) == EncStrings(f[..i]) + EncString(f[i])
    {
      EncStringsAppend(f[..i], f[i]);
      assert f[..i] + [f[i]] == f[..i + 1];
    }
    assert f[..8] == f;
    assert f[0] == k.clientVersion && f[1] == k.serverVersion && f[2] == k.clientKexinit;
    assert f[3] == k.serverKexinit && f[4] == k.hostKey && f[5] == k.clientPub && f[6] == k.serverPub;
    assert EncStrings(f[..1]) == EncString(f[0]);
    assert EncStrings(f[..2]) == EncString(f[0]) + EncString(f[1]);
    assert EncStrings(f[..3]) == EncString(f[0]) + EncString(f[1]) + EncString(f[2]);
    assert EncStrings(f[..4]) == EncStrings(f[..3]) + EncString(f[3]);
    assert EncStrings(f[..5]) == EncStrings(f[..4]) + EncString(f[4]);
    assert EncStrings(f[..6]) == EncStrings(f[..5]) + EncString(f[5]);
    assert EncStrings(f[..7]) == EncStrings(f[..6]) + EncString(f[6]);
    assert EncStrings(f[..8]) == EncStrings(f[..7]) + EncString(f[7]);
  }

  /** Strings taken off the front, one after the other. */
  function TakeStrings(b: bytes, n: nat): Result<Parsed<seq<bytes>>> {
    if n == 0 then Ok(Parsed([], b))
    else
      var first :- TakeString(b);
      var others :- TakeStrings(first.rest, n - 1);
      Ok(Parsed([first.value] + others.value, others.rest))
  }

  lemma {:induction false} TakeStringsInverts(fields: seq<bytes>, rest: bytes)
    requires forall i :: 0 <= i < |fields| ==> Readable(fields[i])
    ensures TakeStrings(EncStrings(fields) + rest, |fields|) == Ok(Parsed(fields, rest))
    decreases |fields|
  {
    hide EncString, TakeString;
    if fields == [] {
      assert [] + rest == rest;
    } else {
      var b := EncStrings(fields[1..]) + rest;
      assert EncStrings(fields) + rest == EncString(fields[0]) + b;
      TakeStringIff(EncStrings(fields) + rest, fields[0], b);
      TakeStringsInverts(fields[1..], rest);
      assert fields == [fields[0]] + fields[1..];
    }
  }

  lemma {:induction false} EncStringsConcat(a: seq<bytes>, b: seq<bytes>)
    ensures EncStrings(a + b) == EncStrings(a) + EncStrings(b)
    decreases |a|
  {
    hide EncString;
    if a == [] {
      assert a + b == b;
    } else {
      EncStringsConcat(a[1..], b);
      assert (a + b)[1..] == a[1..] + b;
    }
  }

  /** Read string by string, a transcript is V_C, V_S, I_C, I_S, K_S, Q_C, Q_S, and what is left is K. */
  lemma TranscriptReadsBack(k: Inputs, secret: bytes)
    requires forall i :: 0 <= i < 7 ==> Readable(k.Fields()[i])
    ensures TakeStrings(Transcript(k, secret), 7)
         == Ok(Parsed([k.clientVersion, k.serverVersion, k.clientKexinit, k.serverKexinit, k.hostKey, k.clientPub,
                       k.serverPub], EncMpint(secret)))
  {
    hide EncString, TakeStrings;
    TranscriptIsFieldList(k, secret);
    EncStringsConcat(k.Fields(), [MpintBody(secret)]);
    assert [MpintBody(secret)][1..] == [];
    assert EncStrings([MpintBody(secret)]) == EncMpint(secret);
    TakeStringsInverts(k.Fields(), EncMpint(secret));
  }

  /** Two transcripts are equal iff the seven strings are equal and the secrets are the same integer. */
  lemma TranscriptsEqualIff(a: Inputs, x: bytes, b: Inputs, y: bytes)
    requires ShortFields(a.Fields()) && ShortFields(b.Fields())
    requires |MpintBody(x)| < TWO_32 && |MpintBody(y)| < TWO_32
    ensures Transcript(a, x) == Transcript(b, y) <==> a == b && Unsigned(x) == Unsigned(y)
  {
    hide EncString;
    TranscriptIsFieldList(a, x);
    TranscriptIsFieldList(b, y);
    BodyEqualIff(x, y);
    if Transcript(a, x) == Transcript(b, y) {
      var f, g := a.Fields() + [MpintBody(x)], b.Fields() + [MpintBody(y)];
      assert EncStrings(f) + [] == EncStrings(f) && EncStrings(g) + [] == EncStrings(g);
      EncStringsInjective(f, g, [], []);
      assert forall i :: 0 <= i < 8 ==> f[i] == g[i];
      assert a.clientVersion == f[0] && b.clientVersion == g[0];
      assert f[1] == a.serverVersion && f[2] == a.clientKexinit && f[3] == a.serverKexinit;
      assert f[4] == a.hostKey && f[5] == a.clientPub && f[6] == a.serverPub && f[7] == MpintBody(x);
    }
  }

  // ---------------------------------------------------------------- the two ends

  function ClientResult(s: Suite, secret: bytes, k: Inputs): KexResult {
    var shared := s.sharedSecret(secret, k.serverPub);
    KexResult(shared, ExchangeHash(s, k, shared))
  }

  function ServerResult(s: Suite, secret: bytes, k: Inputs): KexResult {
    var shared := s.sharedSecret(secret, k.clientPub);
    KexResult(shared, ExchangeHash(s, k, shared))
  }

  /** Both ends compute the same secret and hash when each got the other's public key. */
  lemma ResultsAgree(s: Suite, a: bytes, b: bytes, k: Inputs)
    requires s.Commutes()
    requires k.clientPub == s.publicKey(a) && k.serverPub == s.publicKey(b)
    ensures ClientResult(s, a, k) == ServerResult(s, b, k)
  {
    assert s.sharedSecret(a, s.publicKey(b)) == s.sharedSecret(b, s.publicKey(a));
  }

  class KexClient {
    var secret: Option<bytes>
    const clientPub: bytes

    constructor (s: Suite, random: bytes)
      ensures secret == Some(random) && clientPub == s.publicKey(random)
    {
      secret, clientPub := Some(random), s.publicKey(random);
    }

    /** Takes the secret out of its field: a second call fails. */
    method Complete(s: Suite, serverPub: bytes, clientVersion: str, serverVersion: str,
                    clientKexinit: bytes, serverKexinit: bytes, hostKey: bytes) returns (r: Result<KexResult>)
      modifies this
      ensures secret == None
      ensures r == if old(secret).None? then Err(KeyExchange("Key exchange already completed"))
                   else Ok(ClientResult(s, old(secret).value, Inputs(
                     clientVersion, serverVersion, clientKexinit, serverKexinit, hostKey, clientPub, serverPub)))
    {
      if secret.None? {
        return Err(KeyExchange("Key exchange already completed"));
      }
      var own := secret.value;
      secret := None;
      var shared := s.sharedSecret(own, serverPub);
      var hash := ComputeExchangeHash(s, Inputs(
        clientVersion, serverVersion, clientKexinit, serverKexinit, hostKey, clientPub, serverPub), shared);
      r := Ok(KexResult(shared, hash));
    }
  }

  class KexServer {
    var secret: Option<bytes>
    const serverPub: bytes

    constructor (s: Suite, random: bytes)
      ensures secret == Some(random) && serverPub == s.publicKey(random)
    {
      secret, serverPub := Some(random), s.publicKey(random);
    }

    method Complete(s: Suite, clientPub: bytes, clientVersion: str, serverVersion: str,
                    clientKexinit: bytes, serverKexinit: bytes, hostKey: bytes) returns (r: Result<KexResult>)
      modifies this
      ensures secret == None
      ensures r == if old(secret).None? then Err(KeyExchange("Key exchange already completed"))
                   else Ok(ServerResult(s, old(secret).value, Inputs(
                     clientVersion, serverVersion, clientKexinit, serverKexinit, hostKey, clientPub, serverPub)))
    {
      if secret.None? {
        return Err(KeyExchange("Key exchange already completed"));
      }
      var own := secret.value;
      secret := None;
      var shared := s.sharedSecret(own, clientPub);
      var hash := ComputeExchangeHash(s, Inputs(
        clientVersion, serverVersion, clientKexinit, serverKexinit, hostKey, clientPub, serverPub), shared);
      r := Ok(KexResult(shared, hash));
    }
  }

  // ---------------------------------------------------------------- the derived keys

  /** One key of section 7.2 of RFC 4253, the session id being the exchange hash. */
  function SessionKey(s: Suite, r: KexResult, letter: char, needed: nat): (key: bytes)
    requires letter < 128 as char
    ensures |key| == needed
  {
    DerivedKey(s, KeySeed(r.secret, r.hash, letter as byte, r.hash), needed)
  }

  function ClientToServer(s: Suite, r: KexResult): Cipher {
    Cipher(SessionKey(s, r, 'C', 32), SessionKey(s, r, 'A', 16), 0)
  }

  function ServerToClient(s: Suite, r: KexResult): Cipher {
    Cipher(SessionKey(s, r, 'D', 32), SessionKey(s, r, 'B', 16), 0)
  }

  /** The client's keys after it sent NEWKEYS. */
  function ClientInstall(s: Suite, keys: Keys, r: KexResult): Keys {
    keys.(sessionId := Some(r.hash), ciphers := Some(CipherPair(ClientToServer(s, r), ServerToClient(s, r))),
          sendMac := Some(SessionKey(s, r, 'E', 32)), recvMac := Some(SessionKey(s, r, 'F', 32)))
  }

  /** The server's keys after it received NEWKEYS. */
  function ServerInstall(s: Suite, keys: Keys, r: KexResult): Keys {
    keys.(sessionId := Some(r.hash), ciphers := Some(CipherPair(ServerToClient(s, r), ClientToServer(s, r))),
          sendMac := Some(SessionKey(s, r, 'F', 32)), recvMac := Some(SessionKey(s, r, 'E', 32)))
  }

  /** What is hashed for the key with this letter, the session id being the exchange hash. */
  function KeyInput(r: KexResult, letter: char): bytes
    requires letter < 128 as char
  {
    EncMpint(r.secret) + r.hash + ([letter as byte] + r.hash)
  }

  lemma SessionKeyIs(s: Suite, r: KexResult, letter: char)
    requires letter < 128 as char
    ensures SessionKey(s, r, letter, 32) == s.sha256(KeyInput(r, letter))
    ensures SessionKey(s, r, letter, 16) == s.sha256(KeyInput(r, letter))[..16]
  {
    hide DerivedKey, EncMpint;
    DerivedBlock(s, r.secret, r.hash, letter as byte, r.hash, 0);
    DerivedPrefix(s, KeySeed(r.secret, r.hash, letter as byte, r.hash), 16, 32);
    assert SessionKey(s, r, letter, 32)[0..] == SessionKey(s, r, letter, 32);
  }

  /** Each direction has a cipher and a MAC key of its own, under the letters of section 7.2 of RFC 4253. */
  lemma InstalledKeys(s: Suite, keys: Keys, r: KexResult)
    ensures var c, v := ClientInstall(s, keys, r), ServerInstall(s, keys, r);
            var toServer := Cipher(s.sha256(KeyInput(r, 'C')), s.sha256(KeyInput(r, 'A'))[..16], 0);
            var toClient := Cipher(s.sha256(KeyInput(r, 'D')), s.sha256(KeyInput(r, 'B'))[..16], 0);
            && c.SendHalf() == Half(keys.sendSeq, Some(toServer), Some(s.sha256(KeyInput(r, 'E'))))
            && c.RecvHalf() == Half(keys.recvSeq, Some(toClient), Some(s.sha256(KeyInput(r, 'F'))))
            && v.SendHalf() == Half(keys.sendSeq, Some(toClient), Some(s.sha256(KeyInput(r, 'F'))))
            && v.RecvHalf() == Half(keys.recvSeq, Some(toServer), Some(s.sha256(KeyInput(r, 'E'))))
            && c.sessionId == Some(r.hash) == v.sessionId
  {
    hide SessionKey, KeyInput;
    SessionKeyIs(s, r, 'A');
    SessionKeyIs(s, r, 'B');
    SessionKeyIs(s, r, 'C');
    SessionKeyIs(s, r, 'D');
    SessionKeyIs(s, r, 'E');
    SessionKeyIs(s, r, 'F');
  }

  lemma InputsDiffer(r: KexResult, x: char, y: char)
    requires x < 128 as char && y < 128 as char && x != y
    ensures KeyInput(r, x) != KeyInput(r, y)
  {
    hide EncMpint;
    var n := |EncMpint(r.secret) + r.hash|;
    assert KeyInput(r, x)[n] == x as byte && KeyInput(r, y)[n] == y as byte;
  }

  ghost predicate Collide(s: Suite, a: bytes, b: bytes) { a != b && s.sha256(a) == s.sha256(b) }

  /** Two of the four 32-byte keys of a session are equal only if the hash function has that very collision. */
  lemma KeysDiffer(s: Suite, keys: Keys, r: KexResult)
    ensures var v := ServerInstall(s, keys, r);
            var send, recv := v.SendHalf(), v.RecvHalf();
            && (send.cipher.value.key == recv.cipher.value.key ==> Collide(s, KeyInput(r, 'D'), KeyInput(r, 'C')))
            && (send.mac == recv.mac ==> Collide(s, KeyInput(r, 'F'), KeyInput(r, 'E')))
            && (Some(send.cipher.value.key) == send.mac ==> Collide(s, KeyInput(r, 'D'), KeyInput(r, 'F')))
            && (Some(recv.cipher.value.key) == recv.mac ==> Collide(s, KeyInput(r, 'C'), KeyInput(r, 'E')))
            && (Some(send.cipher.value.key) == recv.mac ==> Collide(s, KeyInput(r, 'D'), KeyInput(r, 'E')))
            && (Some(recv.cipher.value.key) == send.mac ==> Collide(s, KeyInput(r, 'C'), KeyInput(r, 'F')))
  {
    hide ServerInstall, ClientInstall, KeyInput;
    InstalledKeys(s, keys, r);
    InputsDiffer(r, 'D', 'C');
    InputsDiffer(r, 'F', 'E');
    InputsDiffer(r, 'D', 'F');
    InputsDiffer(r, 'C', 'E');
    InputsDiffer(r, 'D', 'E');
    InputsDiffer(r, 'C', 'F');
  }

  // ---------------------------------------------------------------- KEXINIT

  function KexAlgorithms(): seq<str> { [Ascii("curve25519-sha256")] }
  function HostKeyAlgorithms(): seq<str> { [Ascii("ssh-ed25519"), Ascii("rsa-sha2-256")] }
  function EncryptionAlgorithms(): seq<str> { [Ascii("aes256-ctr"), Ascii("aes128-ctr")] }
  function MacAlgorithms(): seq<str> { [Ascii("hmac-sha2-256")] }
  function CompressionAlgorithms(): seq<str> { [Ascii("none")] }

  /** The KEXINIT payload behind its message type, for a given random cookie. */
  function KexinitPayload(cookie: bytes): bytes {
    Draw(cookie, 16) + EncNameList(KexAlgorithms()) + EncNameList(HostKeyAlgorithms())
    + EncNameList(EncryptionAlgorithms()) + EncNameList(EncryptionAlgorithms())
    + EncNameList(MacAlgorithms()) + EncNameList(MacAlgorithms())
    + EncNameList(CompressionAlgorithms()) + EncNameList(CompressionAlgorithms())
    + EncNameList([]) + EncNameList([]) + EncBool(false) + BE32(0)
  }

  method BuildKexinitPayload(cookie: bytes) returns (payload: bytes)
    ensures payload == KexinitPayload(cookie)
  {
    hide EncNameList, Draw, BE32;
    var buf := new Buffer();
    buf.WriteAll(Draw(cookie, 16));
    assert buf.data == Draw(cookie, 16);
    buf.WriteNameList(KexAlgorithms());
    buf.WriteNameList(HostKeyAlgorithms());
    buf.WriteNameList(EncryptionAlgorithms());
    buf.WriteNameList(EncryptionAlgorithms());
    buf.WriteNameList(MacAlgorithms());
    buf.WriteNameList(MacAlgorithms());
    buf.WriteNameList(CompressionAlgorithms());
    buf.WriteNameList(CompressionAlgorithms());
    buf.WriteNameList([]);
    buf.WriteNameList([]);
    buf.WriteBool(false);
    buf.WriteU32(0);
    payload := buf.data;
  }

  lemma KexinitLength(cookie: bytes)
    ensures |KexinitPayload(cookie)| == 178
  {
    hide EncString, Ascii, Draw, BE32;
    assert |Join(KexAlgorithms())| == 17;
    assert |Join(MacAlgorithms())| == 13 && |Join(CompressionAlgorithms())| == 4;
    var h, e := HostKeyAlgorithms(), EncryptionAlgorithms();
    assert h[1..] == [h[1]] && e[1..] == [e[1]];
    assert |Join(h)| == 24 && |Join(e)| == 21;
  }

  /** The ten lists of a KEXINIT, as they lie on the wire. */
  function KexinitLists(): (f: seq<bytes>)
    ensures |f| == 10
  {
    hide ValidUtf8, Ascii;
    [Ascii("curve25519-sha256"), Ascii("ssh-ed25519,rsa-sha2-256"),
     Ascii("aes256-ctr,aes128-ctr"), Ascii("aes256-ctr,aes128-ctr"), Ascii("hmac-sha2-256"), Ascii("hmac-sha2-256"),
     Ascii("none"), Ascii("none"), [], []]
  }

  lemma JoinTwo(x: string, y: string)
    ensures Join([Ascii(x), Ascii(y)]) == Ascii(x + "," + y)
  {
    var names := [Ascii(x), Ascii(y)];
    assert names[1..] == [names[1]];
  }

  lemma PairsAreJoined()
    ensures Join(HostKeyAlgorithms()) == Ascii("ssh-ed25519,rsa-sha2-256")
    ensures Join(EncryptionAlgorithms()) == Ascii("aes256-ctr,aes128-ctr")
  {
    hide Ascii, ValidUtf8, Join;
    JoinTwo("ssh-ed25519", "rsa-sha2-256");
    JoinTwo("aes256-ctr", "aes128-ctr");
    assert "ssh-ed25519" + "," + "rsa-sha2-256" == "ssh-ed25519,rsa-sha2-256";
    assert "aes256-ctr" + "," + "aes128-ctr" == "aes256-ctr,aes128-ctr";
  }

  lemma ListsAreJoined()
    ensures Join(KexAlgorithms()) == KexinitLists()[0] && Join(HostKeyAlgorithms()) == KexinitLists()[1]
    ensures Join(EncryptionAlgorithms()) == KexinitLists()[2] == KexinitLists()[3]
    ensures Join(MacAlgorithms()) == KexinitLists()[4] == KexinitLists()[5]
    ensures Join(CompressionAlgorithms()) == KexinitLists()[6] == KexinitLists()[7]
    ensures Join([]) == [] == KexinitLists()[8] == KexinitLists()[9]
  {
    hide Ascii, ValidUtf8, HostKeyAlgorithms, EncryptionAlgorithms;
    PairsAreJoined();
  }

  lemma Chain(h: bytes, f: seq<bytes>, rest: bytes, tail: bytes)
    requires |f| == 10
    ensures h + EncString(f[0]) + EncString(f[1]) + EncString(f[2]) + EncString(f[3]) + EncString(f[4])
              + EncString(f[5]) + EncString(f[6]) + EncString(f[7]) + EncString(f[8]) + EncString(f[9]) + rest + tail
         == h + (EncStrings(f) + (rest + tail))
  {
    hide EncString;
    var b := h + EncString(f[0]) + EncString(f[1]) + EncString(f[2]) + EncString(f[3]) + EncString(f[4]);
    Five(h, f[..5]);
    Five(b, f[5..]);
    EncStringsConcat(f[..5], f[5..]);
    assert f[..5] + f[5..] == f;
  }

  lemma Five(h: bytes, f: seq<bytes>)
    requires |f| == 5
    ensures h + EncString(f[0]) + EncString(f[1]) + EncString(f[2]) + EncString(f[3]) + EncString(f[4])
         == h + EncStrings(f)
  {
    hide EncString;
    var f1 := f[1..];
    var f2 := f1[1..];
    var f3 := f2[1..];
    var f4 := f3[1..];
    assert f4 == [f[4]] && f4[1..] == [];
    assert EncStrings(f4) == EncString(f[4]);
    assert EncStrings(f3) == EncString(f[3]) + EncString(f[4]);
    assert EncStrings(f2) == EncString(f[2]) + EncStrings(f3);
    assert EncStrings(f1) == EncString(f[1]) + EncStrings(f2);
  }

  lemma KexinitIsChain(cookie: bytes)
    ensures KexinitPayload(cookie) == Draw(cookie, 16) + (EncStrings(KexinitLists()) + (EncBool(false) + BE32(0)))
  {
    ListsAreJoined();
    Chain(Draw(cookie, 16), KexinitLists(), EncBool(false), BE32(0));
    hide Draw, Join, Ascii, EncString, EncStrings, EncBool, BE32, KexinitLists, ValidUtf8;
  }

  lemma ListsAreShort(f: seq<bytes>)
    requires f == KexinitLists()
    ensures forall i :: 0 <= i < 10 ==> Readable(f[i])
  {
    hide Ascii, ValidUtf8;
    assert |f[0]| == 17 && |f[1]| == 24 && |f[2]| == 21 && |f[3]| == 21 && |f[4]| == 13;
    assert |f[5]| == 13 && |f[6]| == 4 && |f[7]| == 4 && |f[8]| == 0 && |f[9]| == 0;
  }

  /** A KEXINIT behind its cookie reads as those lists, no guess following, and a reserved zero. */
  lemma KexinitReadsBack(cookie: bytes)
    ensures KexinitPayload(cookie)[..16] == Draw(cookie, 16)
    ensures TakeStrings(KexinitPayload(cookie)[16..], 10) == Ok(Parsed(KexinitLists(), EncBool(false) + BE32(0)))
  {
    var end := EncBool(false) + BE32(0);
    hide *;
    KexinitIsChain(cookie);
    ListsAreShort(KexinitLists());
    var h, rest := Draw(cookie, 16), EncStrings(KexinitLists()) + end;
    assert (h + rest)[..16] == h && (h + rest)[16..] == rest;
    TakeStringsInverts(KexinitLists(), end);
  }
}
