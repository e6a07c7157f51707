/**
 `send_packet` and `recv_packet` of src/transport/io.rs over the `SessionKeys` of
 src/session/mod.rs. One direction of a connection is a `Half`: a wrapping sequence
 number, a keystream position and a MAC key. `Seal` and `Open` are what sending and
 receiving do to the two ends of it.
 */
module Transport {
  import opened Bytes
  import opened Wire
  import opened Packets
  import opened Crypto

  datatype Half = Half(seqNo: u32, cipher: Option<Cipher>, mac: Option<bytes>) {
    function Block(): nat { if cipher.Some? then AES_BLOCK_SIZE else PLAIN_BLOCK_SIZE }

    /** The half after `n` more bytes went through the cipher. */
    function Passed(n: nat): Half {
      if cipher.Some? then this.(cipher := Some(cipher.value.Advance(n))) else this
    }

    /** The half after a whole packet of `n` bytes. */
    function Next(n: nat): Half { Passed(n).(seqNo := WrapInc(seqNo)) }

    /** `data` through the keystream, `skip` bytes on. */
    function Through(s: Suite, skip: nat, data: bytes): (r: bytes)
      ensures |r| == |data|
    {
      if cipher.Some? then Masked(s, cipher.value.Advance(skip), data) else data
    }

    function Tag(s: Suite, data: bytes): bytes {
      if mac.Some? then s.hmac(mac.value, BE32(seqNo) + data) else []
    }
  }

  datatype Sealed = Sealed(wire: bytes, half: Half)

  /** What one `send_packet` writes, and the sending half afterwards. */
  function Seal(s: Suite, h: Half, p: Packet, rnd: bytes): Result<Sealed> {
    var data :- Frame(p, h.Block(), rnd);
    Ok(Sealed(h.Through(s, 0, data) + h.Tag(s, data), h.Next(|data|)))
  }

  datatype Outcome =
    | Accepted(packet: Packet)
    | Starved(atStart: bool) // the stream is too short: read_exact waits, or fails at its end
    | Rejected(error: SshError)

  datatype Opened = Opened(outcome: Outcome, half: Half, used: nat)

  /** What one `recv_packet` makes of the bytes in front of it. */
  function Open(s: Suite, h: Half, input: bytes): (o: Opened)
    ensures o.used <= |input|
  {
    match Plaintext(s, h, input)
    case Got(full) => OpenBody(s, h, input, full)
    case Stopped(o) => o
  }

  datatype Plain = Got(full: bytes) | Stopped(early: Opened)

  /** The first half of a receive: the first block is decrypted for the length, then the rest. */
  function Plaintext(s: Suite, h: Half, input: bytes): (r: Plain)
    ensures r.Got? ==> |r.full| <= |input|
    ensures r.Stopped? ==> r.early.used <= |input|
  {
    var block := h.Block();
    if |input| < block then Stopped(Opened(Starved(true), h, |input|))
    else
      var first := h.Through(s, 0, input[..block]);
      var len := FromBE32(first[..4]);
      if len > MAX_PACKET_SIZE then
        Stopped(Opened(Rejected(InvalidPacket("Packet length too large")), h.Passed(block), block))
      else if 4 + len < block then Stopped(Opened(Rejected(Panic), h.Passed(block), block))
      else if |input| < 4 + len then Stopped(Opened(Starved(false), h.Passed(block), |input|))
      else Got(first + h.Through(s, block, input[block..4 + len]))
  }

  /** The second half of a receive: `full` has been decrypted from the front of `input`. */
  function OpenBody(s: Suite, h: Half, input: bytes, full: bytes): (o: Opened)
    requires |full| <= |input|
    ensures o.used <= |input|
  {
    var next := h.Next(|full|);
    if h.mac.None? then Opened(Delivered(full), next, |full|)
    else if |input| < |full| + HMAC_SIZE then Opened(Starved(false), next, |input|)
    else if h.Tag(s, full) != input[|full|..|full| + HMAC_SIZE] then
      Opened(Rejected(MacMismatch), next, |full| + HMAC_SIZE)
    else Opened(Delivered(full), next, |full| + HMAC_SIZE)
  }

  function Delivered(full: bytes): Outcome {
    match Unframe(full)
    case Ok(p) => Accepted(p)
    case Err(e) => Rejected(e)
  }

  // ---------------------------------------------------------------- one packet

  lemma ThroughTwice(s: Suite, h: Half, skip: nat, data: bytes)
    ensures h.Through(s, skip, h.Through(s, skip, data)) == data
  {
    if h.cipher.Some? {
      MaskedTwice(s, h.cipher.value.Advance(skip), data);
    }
  }

  lemma ThroughSplit(s: Suite, h: Half, data: bytes, n: nat)
    requires n <= |data|
    ensures h.Through(s, 0, data)[..n] == h.Through(s, 0, data[..n])
    ensures h.Through(s, 0, data)[n..] == h.Through(s, n, data[n..])
  {
    if h.cipher.Some? {
      var c := h.cipher.value;
      MaskedSplit(s, c.Advance(0), data, n);
      assert c.Advance(0).Advance(n) == c.Advance(n);
    }
  }

  /** Facts about the plaintext of a sealed packet that the receiver relies on. */
  lemma SealedPlaintext(h: Half, p: Packet, rnd: bytes)
    requires Frame(p, h.Block(), rnd).Ok?
    ensures var data := Frame(p, h.Block(), rnd).value;
            var len := PacketLength(|p.payload|, h.Block());
            && h.Block() <= len <= MAX_PACKET_SIZE && |data| == 4 + len
            && FromBE32(data[..4]) == len && Unframe(data) == Ok(p)
  {
    var data := Frame(p, h.Block(), rnd).value;
    var len := PacketLength(|p.payload|, h.Block());
    PacketLengthRoundsUp(|p.payload|, h.Block());
    BE32Inverse(len);
    assert data[..4] == BE32(len);
    UnframeInvertsFrame(p, h.Block(), rnd, []);
    assert data + [] == data;
  }

  /** The front of a sealed packet decrypts to the front of its plaintext. */
  lemma FirstBlock(s: Suite, h: Half, data: bytes, input: bytes)
    requires |data| >= h.Block() && |input| >= h.Block() && 4 <= h.Block()
    requires input[..h.Block()] == h.Through(s, 0, data)[..h.Block()]
    ensures h.Through(s, 0, input[..h.Block()]) == data[..h.Block()]
    ensures h.Through(s, 0, input[..h.Block()])[..4] == data[..4]
  {
    ThroughSplit(s, h, data, h.Block());
    ThroughTwice(s, h, 0, data[..h.Block()]);
  }

  /** Decrypting the first block and then the rest recovers what was encrypted in one piece. */
  lemma TwoPieces(s: Suite, h: Half, data: bytes, n: nat)
    requires n <= |data|
    ensures var wire := h.Through(s, 0, data);
            h.Through(s, 0, wire[..n]) + h.Through(s, n, wire[n..]) == data
  {
    ThroughSplit(s, h, data, n);
    ThroughTwice(s, h, 0, data[..n]);
    ThroughTwice(s, h, n, data[n..]);
  }

  lemma PlaintextInverts(s: Suite, h: Half, p: Packet, rnd: bytes, data: bytes, input: bytes)
    requires Frame(p, h.Block(), rnd) == Ok(data)
    requires |input| >= |data| && input[..|data|] == h.Through(s, 0, data)
    ensures Plaintext(s, h, input) == Got(data)
  {
    hide Frame, Unframe, FromBE32, Masked;
    var block := h.Block();
    var body := h.Through(s, 0, data);
    SealedPlaintext(h, p, rnd);
    assert input[..block] == body[..block];
    FirstBlock(s, h, data, input);
    TwoPieces(s, h, data, block);
    assert input[block..|data|] == body[block..];
  }

  /** A receiver whose half equals the sender's gets the packet, and both halves stay equal. */
  lemma OpenInvertsSeal(s: Suite, h: Half, p: Packet, rnd: bytes, rest: bytes)
    requires Seal(s, h, p, rnd).Ok?
    ensures var sealed := Seal(s, h, p, rnd).value;
            Open(s, h, sealed.wire + rest) == Opened(Accepted(p), sealed.half, |sealed.wire|)
  {
    hide Frame, Unframe, Plaintext, Masked;
    var data := Frame(p, h.Block(), rnd).value;
    var body, tag := h.Through(s, 0, data), h.Tag(s, data);
    var input := body + tag + rest;
    assert input[..|data|] == body;
    PlaintextInverts(s, h, p, rnd, data, input);
    SealedPlaintext(h, p, rnd);
    assert input[|data|..|data| + |tag|] == tag;
  }

  /** While a packet is only partly there the receiver waits: it never fails and never delivers. */
  lemma OpenWaits(s: Suite, h: Half, p: Packet, rnd: bytes, n: nat)
    requires Seal(s, h, p, rnd).Ok?
    requires n < |Seal(s, h, p, rnd).value.wire|
    ensures Open(s, h, Seal(s, h, p, rnd).value.wire[..n]).outcome.Starved?
  {
    var data := Frame(p, h.Block(), rnd).value;
    var wire := Seal(s, h, p, rnd).value.wire;
    SealedPlaintext(h, p, rnd);
    if n >= h.Block() {
      assert wire[..n][..h.Block()] == h.Through(s, 0, data)[..h.Block()];
      FirstBlock(s, h, data, wire[..n]);
    }
  }

  /** A stream that ends inside a packet's first block counts as closed; one that ends later is an error. */
  lemma CutShort(s: Suite, h: Half, p: Packet, rnd: bytes, n: nat)
    requires Seal(s, h, p, rnd).Ok? && n < |Seal(s, h, p, rnd).value.wire|
    ensures Returned(Open(s, h, Seal(s, h, p, rnd).value.wire[..n]).outcome)
         == Err(if n < (if h.cipher.Some? then 16 else 8) then ConnectionClosed else Io)
  {
    hide Frame, Unframe, FromBE32, Masked;
    var data, wire := Frame(p, h.Block(), rnd).value, Seal(s, h, p, rnd).value.wire;
    SealedPlaintext(h, p, rnd);
    if n >= h.Block() {
      assert wire[..n][..h.Block()] == h.Through(s, 0, data)[..h.Block()];
      FirstBlock(s, h, data, wire[..n]);
    }
  }

  /** A whole packet under any other tag than its own is refused, and nothing of it is delivered. */
  lemma ForgedIsRejected(s: Suite, h: Half, data: bytes, tag: bytes, rest: bytes)
    requires |data| >= h.Block() && |data| == 4 + FromBE32(data[..4]) <= 4 + MAX_PACKET_SIZE
    requires h.mac.Some? && |tag| == HMAC_SIZE && tag != s.hmac(h.mac.value, BE32(h.seqNo) + data)
    ensures Open(s, h, h.Through(s, 0, data) + tag + rest).outcome == Rejected(MacMismatch)
  {
    hide Masked, FromBE32, Unframe;
    var block, body := h.Block(), h.Through(s, 0, data);
    var input := body + tag + rest;
    assert input[..block] == body[..block];
    FirstBlock(s, h, data, input);
    TwoPieces(s, h, data, block);
    assert input[block..|data|] == body[block..];
    assert Plaintext(s, h, input) == Got(data);
    assert input[|data|..|data| + HMAC_SIZE] == tag;
  }

  const PACKET_TOO_LARGE := InvalidPacket("Packet too large")

  /** Sealing fails only for payloads over the limit, and moves the half on by the size of the packet. */
  lemma SealGoes(s: Suite, h: Half, m: Packet, rnd: bytes)
    ensures Seal(s, h, m, rnd).Ok? <==> |m.payload| <= (if h.cipher.Some? then 34986 else 34994)
    ensures Seal(s, h, m, rnd).Ok? ==> Seal(s, h, m, rnd).value.half == h.Next(4 + PacketLength(|m.payload|, h.Block()))
    ensures Seal(s, h, m, rnd).Err? ==> Seal(s, h, m, rnd).error == PACKET_TOO_LARGE
  {
    PayloadLimits(m, rnd);
  }

  /** What a half makes of a packet on the wire: enciphered if there is a cipher, then the tag if there is a key. */
  ghost predicate Carries(s: Suite, h: Half, data: bytes, wire: bytes) {
    && |wire| == |data| + (if h.mac.Some? then HMAC_SIZE else 0)
    && (h.cipher.Some? ==> Enciphers(s, h.cipher.value, data, wire[..|data|]))
    && (h.cipher.None? ==> wire[..|data|] == data)
    && (h.mac.Some? ==> wire[|data|..] == s.hmac(h.mac.value, BE32(h.seqNo) + data))
  }

  lemma CarriesIff(s: Suite, h: Half, data: bytes, wire: bytes)
    ensures Carries(s, h, data, wire) <==> wire == h.Through(s, 0, data) + h.Tag(s, data)
  {
    hide Enciphers, Masked;
    if h.cipher.Some? && |wire| >= |data| {
      var c := h.cipher.value;
      assert c.Advance(0) == c;
      MaskedIff(s, c, data, wire[..|data|]);
    }
    var body, tag := h.Through(s, 0, data), h.Tag(s, data);
    assert (body + tag)[..|data|] == body && (body + tag)[|data|..] == tag;
    if Carries(s, h, data, wire) {
      assert wire == wire[..|data|] + wire[|data|..];
    }
  }

  /** What is sent is the packet's frame, carried by the half; the next one is carried further on. */
  lemma SealIs(s: Suite, h: Half, p: Packet, rnd: bytes)
    requires Seal(s, h, p, rnd).Ok?
    ensures var x, block := Seal(s, h, p, rnd).value, if h.cipher.Some? then 16 else 8;
            && Frame(p, block, rnd).Ok? && Carries(s, h, Frame(p, block, rnd).value, x.wire)
            && x.half.seqNo == (h.seqNo + 1) % TWO_32 && x.half.mac == h.mac
            && x.half.cipher == (if h.cipher.None? then None
                                 else Some(h.cipher.value.(pos := h.cipher.value.pos + |Frame(p, block, rnd).value|)))
  {
    hide Frame, Carries;
    var data := Frame(p, h.Block(), rnd).value;
    CarriesIff(s, h, data, Seal(s, h, p, rnd).value.wire);
  }

  /** A whole packet of `data` lies in front of the receiver. */
  ghost predicate Arrives(s: Suite, h: Half, data: bytes, input: bytes) {
    && |data| >= (if h.cipher.Some? then 16 else 8) && |data| == 4 + FromBE32(data[..4]) <= 4 + MAX_PACKET_SIZE
    && exists wire :: wire <= input && Carries(s, h, data, wire)
  }

  lemma ArrivesOpens(s: Suite, h: Half, data: bytes, input: bytes, wire: bytes)
    requires |data| >= h.Block() && |data| == 4 + FromBE32(data[..4]) <= 4 + MAX_PACKET_SIZE
    requires wire <= input && Carries(s, h, data, wire)
    ensures Open(s, h, input) == Opened(Delivered(data), h.Next(|data|), |wire|)
  {
    hide Masked, FromBE32, Unframe;
    CarriesIff(s, h, data, wire);
    var block := h.Block();
    var body := h.Through(s, 0, data);
    assert wire[..|data|] == body;
    assert input[..block] == body[..block];
    FirstBlock(s, h, data, input);
    TwoPieces(s, h, data, block);
    assert input[block..|data|] == body[block..];
    assert Plaintext(s, h, input) == Got(data);
    assert input[|data|..|wire|] == wire[|data|..];
  }

  lemma OpensArrived(s: Suite, h: Half, input: bytes) returns (data: bytes)
    requires Open(s, h, input).outcome.Accepted?
    ensures Arrives(s, h, data, input) && Unframe(data) == Ok(Open(s, h, input).outcome.packet)
  {
    hide Masked, FromBE32, Unframe, Carries;
    data := Plaintext(s, h, input).full;
    var block := h.Block();
    var n := |data|;
    var body := input[..n];
    assert body[..block] == input[..block] && body[block..] == input[block..n];
    PlaintextIsMasked(s, h, input);
    ThroughTwice(s, h, 0, body);
    var tag := if h.mac.Some? then input[n..n + HMAC_SIZE] else [];
    var wire := body + tag;
    assert wire == input[..|wire|];
    CarriesIff(s, h, data, wire);
  }

  lemma PlaintextIsMasked(s: Suite, h: Half, input: bytes)
    requires Plaintext(s, h, input).Got?
    ensures var data := Plaintext(s, h, input).full;
            && |data| <= |input| && data == h.Through(s, 0, input[..|data|])
            && |data| >= h.Block() && |data| == 4 + FromBE32(data[..4]) <= 4 + MAX_PACKET_SIZE
  {
    hide Masked, FromBE32;
    var block, data := h.Block(), Plaintext(s, h, input).full;
    var body := input[..|data|];
    assert body[..block] == input[..block] && body[block..] == input[block..|data|];
    ThroughSplit(s, h, body, block);
    assert h.Through(s, 0, body) == h.Through(s, 0, body)[..block] + h.Through(s, 0, body)[block..];
    assert data[..4] == h.Through(s, 0, input[..block])[..4];
  }

  /** A packet is accepted exactly if its frame lies in front of the receiver, with the tag it must have. */
  lemma OpensIff(s: Suite, h: Half, input: bytes, p: Packet)
    ensures Open(s, h, input).outcome == Accepted(p)
            <==> exists data :: Arrives(s, h, data, input) && Unframe(data) == Ok(p)
  {
    hide Open, Unframe, FromBE32, Carries;
    if Open(s, h, input).outcome == Accepted(p) {
      var data := OpensArrived(s, h, input);
    }
    if data :| Arrives(s, h, data, input) && Unframe(data) == Ok(p) {
      var wire :| wire <= input && Carries(s, h, data, wire);
      ArrivesOpens(s, h, data, input, wire);
    }
  }

  /** A packet is never accepted without taking bytes off the stream. */
  lemma AcceptedUses(s: Suite, h: Half, input: bytes)
    requires Open(s, h, input).outcome.Accepted?
    ensures Open(s, h, input).used > 0
  {
    hide Unframe, FromBE32, Masked;
  }

  // ---------------------------------------------------------------- session keys

  datatype CipherPair = CipherPair(encrypt: Cipher, decrypt: Cipher)

  datatype Keys = Keys(
    sendSeq: u32, recvSeq: u32, sessionId: Option<bytes>, ciphers: Option<CipherPair>,
    sendMac: Option<bytes>, recvMac: Option<bytes>)
  {
    predicate IsEncrypted() { ciphers.Some? }

    function SendHalf(): Half {
      Half(sendSeq, if ciphers.Some? then Some(ciphers.value.encrypt) else None, sendMac)
    }

    function RecvHalf(): Half {
      Half(recvSeq, if ciphers.Some? then Some(ciphers.value.decrypt) else None, recvMac)
    }

    function WithSend(h: Half): Keys {
      var k := this.(sendSeq := h.seqNo);
      if ciphers.Some? && h.cipher.Some? then k.(ciphers := Some(ciphers.value.(encrypt := h.cipher.value))) else k
    }

    function WithRecv(h: Half): Keys {
      var k := this.(recvSeq := h.seqNo);
      if ciphers.Some? && h.cipher.Some? then k.(ciphers := Some(ciphers.value.(decrypt := h.cipher.value))) else k
    }
  }

  const FRESH_KEYS := Keys(0, 0, None, None, None, None)

  class ByteStream {
    var data: bytes

    constructor ()
      ensures data == []
    {
      data := [];
    }

    method WriteAll(b: bytes)
      modifies this
      ensures data == old(data) + b
    {
      data := data + b;
    }

    /** Exactly `n` bytes, or nothing when the stream ends first. */
    method ReadExact(n: nat) returns (r: Option<bytes>)
      modifies this
      ensures if |old(data)| < n then r == None && data == []
              else r == Some(old(data)[..n]) && data == old(data)[n..]
    {
      if |data| < n {
        r, data := None, [];
      } else {
        r, data := Some(data[..n]), data[n..];
      }
    }
  }

  datatype CipherRefs = CipherRefs(encrypt: AesCipher, decrypt: AesCipher)

  class SessionKeys {
    var sendSeq: u32
    var recvSeq: u32
    var sessionId: Option<bytes>
    var ciphers: Option<CipherRefs>
    var sendMacKey: Option<bytes>
    var recvMacKey: Option<bytes>

    ghost function Repr(): set<object> reads this {
      if ciphers.Some? then {this, ciphers.value.encrypt, ciphers.value.decrypt} else {this}
    }

    ghost predicate Valid() reads this {
      ciphers.Some? ==> ciphers.value.encrypt != ciphers.value.decrypt
    }

    ghost function Value(): Keys reads this, Repr() {
      var pair := if ciphers.Some?
        then Some(CipherPair(ciphers.value.encrypt.Value(), ciphers.value.decrypt.Value())) else None;
      Keys(sendSeq, recvSeq, sessionId, pair, sendMacKey, recvMacKey)
    }

    constructor ()
      ensures Valid() && fresh(Repr()) && Value() == FRESH_KEYS
    {
      sendSeq, recvSeq := 0, 0;
      sessionId, ciphers, sendMacKey, recvMacKey := None, None, None, None;
    }

    predicate IsEncrypted() reads this { ciphers.Some? }

    method NextSendSeq() returns (n: u32)
      requires Valid()
      modifies this`sendSeq
      ensures Valid() && n == old(sendSeq) && sendSeq == WrapInc(n)
    {
      n := sendSeq;
      sendSeq := WrapInc(sendSeq);
    }

    method NextRecvSeq() returns (n: u32)
      requires Valid()
      modifies this`recvSeq
      ensures Valid() && n == old(recvSeq) && recvSeq == WrapInc(n)
    {
      n := recvSeq;
      recvSeq := WrapInc(recvSeq);
    }

    /** The fields set once NEWKEYS has been exchanged. */
    method Install(session: bytes, encrypt: Cipher, decrypt: Cipher, sendMac: bytes, recvMac: bytes)
      requires Valid()
      modifies this
      ensures Valid() && fresh(Repr() - {this})
      ensures Value() == old(Value()).(sessionId := Some(session), ciphers := Some(CipherPair(encrypt, decrypt)),
                                       sendMac := Some(sendMac), recvMac := Some(recvMac))
    {
      var e := new AesCipher(encrypt);
      var d := new AesCipher(decrypt);
      sessionId, ciphers := Some(session), Some(CipherRefs(e, d));
      sendMacKey, recvMacKey := Some(sendMac), Some(recvMac);
    }
  }

  function ArrayOf(b: bytes): (f: nat --> byte)
    ensures forall i :: 0 <= i < |b| ==> f.requires(i) && f(i) == b[i]
  {
    i requires 0 <= i < |b| => b[i]
  }

  method SendPacket(s: Suite, writer: ByteStream, packet: Packet, keys: SessionKeys, rnd: bytes)
    returns (r: Result<()>)
    requires keys.Valid()
    modifies writer, keys, keys.Repr()
    ensures keys.Valid() && keys.Repr() == old(keys.Repr())
    ensures match Seal(s, old(keys.Value()).SendHalf(), packet, rnd)
            case Ok(sealed) =>
              && r == Ok(())
              && writer.data == old(writer.data) + sealed.wire
              && keys.Value() == old(keys.Value()).WithSend(sealed.half)
            case Err(e) =>
              r == Err(e) && writer.data == old(writer.data) && keys.Value() == old(keys.Value())
  {
    hide Frame, Masked, BE32;
    var blockSize := if keys.IsEncrypted() then AES_BLOCK_SIZE else 8;
    var plain :- Serialize(packet, blockSize, rnd);
    var seqNo := keys.NextSendSeq();
    var mac := None;
    if keys.sendMacKey.Some? {
      mac := Some(s.hmac(keys.sendMacKey.value, BE32(seqNo) + plain));
    }
    var data := Encrypt(s, keys, plain);
    writer.WriteAll(data);
    if mac.Some? {
      writer.WriteAll(mac.value);
    }
    r := Ok(());
  }

  /** Encrypts a packet in place, if encryption is on. */
  method Encrypt(s: Suite, keys: SessionKeys, b: bytes) returns (data: bytes)
    requires keys.Valid()
    modifies keys.Repr() - {keys}
    ensures keys.Repr() == old(keys.Repr())
    ensures data == old(keys.Value()).SendHalf().Through(s, 0, b)
    ensures keys.Value() == old(keys.Value()).WithSend(old(keys.Value()).SendHalf().Passed(|b|))
  {
    hide Masked;
    var buf := new byte[|b|](ArrayOf(b));
    assert buf[..] == b;
    if keys.ciphers.Some? {
      keys.ciphers.value.encrypt.Apply(s, buf);
    }
    data := buf[..];
  }

  /** Decrypts the next bytes in place, if decryption is on. */
  method Decrypt(s: Suite, keys: SessionKeys, b: bytes) returns (plain: bytes)
    requires keys.Valid()
    modifies keys.Repr() - {keys}
    ensures keys.Repr() == old(keys.Repr())
    ensures plain == old(keys.Value()).RecvHalf().Through(s, 0, b)
    ensures keys.Value() == old(keys.Value()).WithRecv(old(keys.Value()).RecvHalf().Passed(|b|))
  {
    var data := new byte[|b|](ArrayOf(b));
    assert data[..] == b;
    if keys.ciphers.Some? {
      keys.ciphers.value.decrypt.Apply(s, data);
    }
    plain := data[..];
  }

  /** The end of a receive, once the packet itself has been read and decrypted. */
  method VerifyAndDeserialize(s: Suite, reader: ByteStream, keys: SessionKeys, fullData: bytes)
    returns (r: Result<Packet>)
    requires keys.Valid()
    modifies reader, keys`recvSeq
    ensures keys.Valid() && keys.Repr() == old(keys.Repr())
    ensures keys.Value() == old(keys.Value()).(recvSeq := WrapInc(old(keys.recvSeq)))
    ensures keys.recvMacKey.None? ==> r == Unframe(fullData) && reader.data == old(reader.data)
    ensures keys.recvMacKey.Some? && |old(reader.data)| < HMAC_SIZE ==> r == Err(Io) && reader.data == []
    ensures keys.recvMacKey.Some? && |old(reader.data)| >= HMAC_SIZE ==>
              && reader.data == old(reader.data)[HMAC_SIZE..]
              && var tag := s.hmac(keys.recvMacKey.value, BE32(old(keys.recvSeq)) + fullData);
                 r == if tag == old(reader.data)[..HMAC_SIZE]
                      then Unframe(fullData) else Err(MacMismatch)
  {
    var seqNo := keys.NextRecvSeq();
    if keys.recvMacKey.Some? {
      var macBuf := reader.ReadExact(HMAC_SIZE);
      if macBuf.None? {
        return Err(Io);
      }
      if s.hmac(keys.recvMacKey.value, BE32(seqNo) + fullData) != macBuf.value {
        return Err(MacMismatch);
      }
    }
    r := Deserialize(fullData);
  }

  /** The result `recv_packet` returns for each outcome. */
  function Returned(o: Outcome): Result<Packet> {
    match o
    case Accepted(p) => Ok(p)
    case Starved(atStart) => Err(if atStart then ConnectionClosed else Io)
    case Rejected(e) => Err(e)
  }

  method RecvPlaintext(s: Suite, reader: ByteStream, keys: SessionKeys) returns (r: Result<bytes>)
    requires keys.Valid()
    modifies reader, keys.Repr() - {keys}
    ensures keys.Repr() == old(keys.Repr())
    ensures match Plaintext(s, old(keys.Value()).RecvHalf(), old(reader.data))
            case Got(full) =>
              && r == Ok(full)
              && reader.data == old(reader.data)[|full|..]
              && keys.Value() == old(keys.Value()).WithRecv(old(keys.Value()).RecvHalf().Passed(|full|))
            case Stopped(o) =>
              && r.Err? && Err(r.error) == Returned(o.outcome)
              && reader.data == old(reader.data)[o.used..]
              && keys.Value() == old(keys.Value()).WithRecv(o.half)
  {
    hide FromBE32;
    ghost var h, input := keys.Value().RecvHalf(), reader.data;
    var blockSize := if keys.IsEncrypted() then AES_BLOCK_SIZE else 8;
    var firstBlock := reader.ReadExact(blockSize);
    if firstBlock.None? {
      return Err(ConnectionClosed);
    }
    var first := Decrypt(s, keys, firstBlock.value);
    var packetLength := FromBE32(first[..4]);
    if packetLength > MAX_PACKET_SIZE {
      return Err(InvalidPacket("Packet length too large"));
    }
    var total := 4 + packetLength;
    if total < blockSize {
      return Err(Panic);
    }
    var remaining := total - blockSize;
    var rest := [];
    if remaining > 0 {
      var more := reader.ReadExact(remaining);
      if more.None? {
        return Err(Io);
      }
      rest := Decrypt(s, keys, more.value);
    }
    assert input[blockSize..][..remaining] == input[blockSize..total];
    r := Ok(first + rest);
  }

  method RecvPacket(s: Suite, reader: ByteStream, keys: SessionKeys) returns (r: Result<Packet>)
    requires keys.Valid()
    modifies reader, keys, keys.Repr()
    ensures keys.Valid() && keys.Repr() == old(keys.Repr())
    ensures var o := Open(s, old(keys.Value()).RecvHalf(), old(reader.data));
            && r == Returned(o.outcome)
            && reader.data == old(reader.data)[o.used..]
            && keys.Value() == old(keys.Value()).WithRecv(o.half)
  {
    hide Unframe, Masked, FromBE32;
    ghost var input := reader.data;
    var fullData :- RecvPlaintext(s, reader, keys);
    ghost var n := |fullData|;
    r := VerifyAndDeserialize(s, reader, keys, fullData);
    assert |input| >= n + HMAC_SIZE ==> input[n..][..HMAC_SIZE] == input[n..n + HMAC_SIZE];
  }
}
