/**
 The binary packet format (section 6 of RFC 4253) as `SshPacket::serialize` and
 `SshPacket::deserialize` build and take it apart.
 */
module Packets {
  import opened Bytes
  import opened Wire

  const MIN_PADDING: nat := 4
  const AES_BLOCK_SIZE: nat := 16
  const PLAIN_BLOCK_SIZE: nat := 8

  datatype Packet = Packet(msgType: byte, payload: bytes)

  function Max(a: nat, b: nat): nat { if a < b then b else a }

  /** Padding chosen for a payload of `n` bytes behind the message type. */
  function PaddingLength(n: nat, blockSize: nat): nat
    requires blockSize > 0
  {
    var remainder := (6 + n) % blockSize;
    if remainder == 0 then MIN_PADDING else MIN_PADDING + (blockSize - remainder)
  }

  function PacketLength(n: nat, blockSize: nat): nat
    requires blockSize > 0
  {
    2 + n + PaddingLength(n, blockSize)
  }

  /** The bytes of a packet, `rnd` being the random source the padding is drawn from. */
  function Frame(p: Packet, blockSize: nat, rnd: bytes): Result<bytes> {
    var block := Max(blockSize, 8);
    var padding := PaddingLength(|p.payload|, block);
    var len := PacketLength(|p.payload|, block);
    if len > MAX_PACKET_SIZE then Err(InvalidPacket("Packet too large"))
    else Ok(BE32(len) + [padding % 256, p.msgType] + p.payload + Draw(rnd, padding))
  }

  method Serialize(p: Packet, blockSize: nat, rnd: bytes) returns (r: Result<bytes>)
    ensures r == Frame(p, blockSize, rnd)
  {
    var block := Max(blockSize, 8);
    var payloadLen := 1 + |p.payload|;
    var minPacketLen := 1 + payloadLen + MIN_PADDING;
    var remainder := minPacketLen % block;
    var paddingLen := if remainder == 0 then MIN_PADDING else MIN_PADDING + (block - remainder);
    var packetLength := 1 + payloadLen + paddingLen;
    if packetLength > MAX_PACKET_SIZE {
      return Err(InvalidPacket("Packet too large"));
    }
    var buf := new Buffer();
    buf.WriteU32(packetLength);
    buf.WriteU8(paddingLen % 256);
    buf.WriteU8(p.msgType);
    buf.WriteAll(p.payload);
    buf.WriteAll(Draw(rnd, paddingLen));
    assert buf.data == BE32(packetLength) + [paddingLen % 256, p.msgType] + p.payload + Draw(rnd, paddingLen);
    r := Ok(buf.data);
  }

  /** What `deserialize` makes of any byte string. */
  function Unframe(data: bytes): Result<Packet> {
    if |data| < 6 then Err(InvalidPacket("Packet too short"))
    else
      var len := FromBE32(data[..4]);
      var padding := data[4];
      if len > MAX_PACKET_SIZE then Err(InvalidPacket("Packet length too large"))
      else if |data| < 4 + len then Err(InvalidPacket("Incomplete packet data"))
      else if padding >= len then Err(InvalidPacket("Invalid padding length"))
      else if len - 1 - padding == 0 then Err(InvalidPacket("Empty payload"))
      else Ok(Packet(data[5], data[6..4 + len - padding]))
  }

  method Deserialize(data: bytes) returns (r: Result<Packet>)
    ensures r == Unframe(data)
  {
    hide FromBE32;
    if |data| < 6 {
      return Err(InvalidPacket("Packet too short"));
    }
    var cursor := new Cursor(data);
    var lengthField := cursor.ReadU32();
    var packetLength := lengthField.value;
    if packetLength > MAX_PACKET_SIZE {
      return Err(InvalidPacket("Packet length too large"));
    }
    if |data| < 4 + packetLength {
      return Err(InvalidPacket("Incomplete packet data"));
    }
    var paddingField := cursor.ReadU8();
    var paddingLength := paddingField.value;
    if paddingLength >= packetLength {
      return Err(InvalidPacket("Invalid padding length"));
    }
    var payloadLength := packetLength - 1 - paddingLength;
    if payloadLength == 0 {
      return Err(InvalidPacket("Empty payload"));
    }
    var msgType := cursor.ReadU8();
    assert cursor.Rest() == data[6..];
    var payload := cursor.ReadExact(payloadLength - 1);
    assert payload.value == data[6..4 + packetLength - paddingLength];
    r := Ok(Packet(msgType.value, payload.value));
  }

  // ---------------------------------------------------------------- properties

  /** The least multiple of `m` that is at least `n`. */
  predicate IsRoundedUp(n: nat, m: nat, r: nat) { m > 0 && n <= r < n + m && r % m == 0 }

  lemma NextMultiple(n: nat, m: nat)
    requires m > 0
    ensures n % m != 0 ==> (n + (m - n % m)) % m == 0
  {
    if n % m != 0 {
      var q := n / m;
      assert n + (m - n % m) == (q + 1) * m;
      MultipleMod(q + 1, m);
    }
  }

  lemma {:induction false} MultipleMod(q: nat, m: nat)
    requires m > 0
    ensures (q * m) % m == 0
  {
    var x := q * m;
    var d, r := x / m, x % m;
    assert x == d * m + r;
    Distribute(q, d, m);
    if q != d {
      FactorAtLeast(q - d, m);
    }
  }

  /** `packet_length`, without its own four bytes, is 6 + |payload| rounded up to the block. */
  lemma PacketLengthRoundsUp(n: nat, blockSize: nat)
    requires blockSize >= 8
    ensures IsRoundedUp(6 + n, blockSize, PacketLength(n, blockSize))
    ensures blockSize <= PacketLength(n, blockSize)
  {
    NextMultiple(6 + n, blockSize);
    var len := PacketLength(n, blockSize);
    if len < blockSize {
      SmallMod(len, blockSize);
    }
  }

  lemma SmallMod(x: nat, m: nat)
    requires 0 < x < m
    ensures x % m == x
  {
  }

  /** Serialising succeeds iff the rounded length is within the limit; then the padding is legal. */
  lemma FrameShape(p: Packet, blockSize: nat, rnd: bytes, rounded: nat)
    requires 8 <= blockSize <= 252
    requires IsRoundedUp(6 + |p.payload|, blockSize, rounded)
    ensures Frame(p, blockSize, rnd).Ok? <==> rounded <= MAX_PACKET_SIZE
    ensures Frame(p, blockSize, rnd).Ok? ==>
              var data := Frame(p, blockSize, rnd).value;
              && |data| == 4 + rounded
              && data[..4] == BE32(rounded)
              && 4 <= data[4] == rounded - 2 - |p.payload| <= 255
              && blockSize <= rounded
  {
    PacketLengthRoundsUp(|p.payload|, blockSize);
    RoundedUnique(6 + |p.payload|, blockSize, rounded, PacketLength(|p.payload|, blockSize));
    if Frame(p, blockSize, rnd).Ok? {
      assert Frame(p, blockSize, rnd).value[..4] == BE32(rounded);
    }
  }

  lemma RoundedUnique(n: nat, m: nat, r: nat, s: nat)
    requires IsRoundedUp(n, m, r) && IsRoundedUp(n, m, s)
    ensures r == s
  {
    var a, b := r / m, s / m;
    assert r == a * m && s == b * m;
    assert r - s == (a - b) * m;
    if a != b {
      FactorAtLeast(a - b, m);
      assert false;
    }
  }

  lemma FactorAtLeast(k: int, m: int)
    requires k != 0 && m > 0
    ensures k * m >= m || k * m <= -m
  {
  }

  lemma Distribute(a: int, b: int, m: int)
    ensures (a - b) * m == a * m - b * m
  {
  }

  /** The payload limits of the two block sizes in use. */
  lemma PayloadLimits(p: Packet, rnd: bytes)
    ensures Frame(p, PLAIN_BLOCK_SIZE, rnd).Ok? <==> |p.payload| <= 34994
    ensures Frame(p, AES_BLOCK_SIZE, rnd).Ok? <==> |p.payload| <= 34986
  {
  }

  /**
   Deserialising undoes serialising, whatever the padding holds and whatever follows, exactly when the
   padding length fits its one byte; for block sizes up to 252 it always does.
   */
  lemma UnframeInvertsFrame(p: Packet, blockSize: nat, rnd: bytes, trailing: bytes)
    requires Frame(p, blockSize, rnd).Ok?
    ensures Unframe(Frame(p, blockSize, rnd).value + trailing) == Ok(p)
            <==> PaddingLength(|p.payload|, Max(blockSize, 8)) <= 255
    ensures blockSize <= 252 ==> PaddingLength(|p.payload|, Max(blockSize, 8)) <= 255
  {
    var block := Max(blockSize, 8);
    var padding, len := PaddingLength(|p.payload|, block), PacketLength(|p.payload|, block);
    PaddingBound(|p.payload|, block);
    assert Frame(p, blockSize, rnd).value == BE32(len) + [padding % 256, p.msgType] + p.payload + Draw(rnd, padding);
    hide BE32, Unframe, Draw, PaddingLength, PacketLength, Frame;
    UnframePieces(p, padding, len, Draw(rnd, padding), trailing);
  }

  lemma PaddingBound(n: nat, block: nat)
    requires 8 <= block
    ensures block <= 252 ==> PaddingLength(n, block) <= 255
    ensures PacketLength(n, block) == 2 + n + PaddingLength(n, block)
  {
  }

  /** A padding byte that has wrapped makes the payload longer, or the packet malformed. */
  lemma UnframePieces(p: Packet, padding: nat, len: nat, fill: bytes, trailing: bytes)
    requires |fill| == padding && len == 2 + |p.payload| + padding && len <= MAX_PACKET_SIZE
    ensures Unframe(BE32(len) + [padding % 256, p.msgType] + p.payload + fill + trailing) == Ok(p) <==> padding <= 255
  {
    BE32Inverse(len);
    Pieces(BE32(len), padding % 256, p.msgType, p.payload, fill, trailing);
    hide BE32, FromBE32;
  }

  lemma Pieces(length: bytes, padding: byte, msgType: byte, payload: bytes, fill: bytes, trailing: bytes)
    requires |length| == 4
    ensures var data := length + [padding, msgType] + payload + fill + trailing;
            && |data| == 6 + |payload| + |fill| + |trailing| && data[..4] == length
            && data[4] == padding && data[5] == msgType && data[6..6 + |payload|] == payload
  {
  }

  /** Above 252 the padding byte wraps: with block size 253, a payload of 248 bytes comes back as 504. */
  lemma PaddingByteWraps(p: Packet, rnd: bytes)
    requires |p.payload| == 248
    ensures var f := Frame(p, 253, rnd);
            f.Ok? && Unframe(f.value).Ok? && Unframe(f.value) != Ok(p)
  {
    var f := Frame(p, 253, rnd).value;
    var len := PacketLength(248, 253);
    assert PaddingLength(248, 253) == 256;
    BE32Inverse(len);
    assert f[..4] == BE32(len);
    assert f[4] == 0;
    assert |Unframe(f).value.payload| == 504;
  }

  /** A packet is read off exactly its own layout: length, padding length, type, payload, and that much padding. */
  lemma UnframesIff(data: bytes, p: Packet)
    ensures Unframe(data) == Ok(p)
            <==> && |data| >= 6 && 2 + |p.payload| + data[4] <= MAX_PACKET_SIZE
                 && |data| >= 6 + |p.payload| + data[4]
                 && data[..6 + |p.payload|] == BE32(2 + |p.payload| + data[4]) + [data[4], p.msgType] + p.payload
  {
    hide BE32, FromBE32;
    if |data| >= 6 {
      var len, n := FromBE32(data[..4]), |p.payload|;
      FromBE32Inverse(data[..4]);
      var want := BE32((2 + n + data[4]) % TWO_32) + [data[4], p.msgType] + p.payload;
      assert want[..4] == BE32((2 + n + data[4]) % TWO_32) && want[5] == p.msgType && want[6..] == p.payload;
      if Unframe(data) == Ok(p) {
        assert n == len - 2 - data[4];
        assert data[..6 + n] == data[..4] + [data[4], data[5]] + data[6..6 + n];
      }
      if 2 + n + data[4] <= MAX_PACKET_SIZE && |data| >= 6 + n + data[4] && data[..6 + n] == want {
        BE32Inverse(2 + n + data[4]);
        assert data[..4] == data[..6 + n][..4] && data[5] == data[..6 + n][5] && data[6..6 + n] == data[..6 + n][6..];
        assert len == 2 + n + data[4];
      }
    }
  }
}
