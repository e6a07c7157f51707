/**
 Bytes, fixed-width big-endian integers, UTF-8 validity and the error type: the
 vocabulary every other module is written in.
 */
module Bytes {
  type byte = i: int | 0 <= i < 256
  type bytes = seq<byte>

  const TWO_32: nat := 0x1_0000_0000
  const TWO_64: nat := 0x1_0000_0000_0000_0000

  type u32 = i: int | 0 <= i < TWO_32
  type u64 = i: int | 0 <= i < TWO_64

  /** Rust's wrapping_add(1) on u32. */
  function WrapInc(n: u32): u32 { (n + 1) % TWO_32 }

  datatype Option<+T> = None | Some(value: T)

  datatype SshError =
    | ConnectionClosed
    | Io
    | Protocol(reason: string)
    | KeyExchange(reason: string)
    | AuthFailed(reason: string)
    | Channel(reason: string)
    | Sftp(reason: string)
    | Encryption(reason: string)
    | MacMismatch
    | InvalidPacket(reason: string)
    | Panic // an arithmetic overflow, which ends the connection

  datatype Result<+T> = Ok(value: T) | Err(error: SshError) {
    predicate IsFailure() { Err? }
    function PropagateFailure<U>(): Result<U> requires Err? { Err(error) }
    function Extract(): T requires Ok? { value }
  }

  // ---------------------------------------------------------------- integers

  function BE32(n: u32): (b: bytes)
    ensures |b| == 4
  {
    [n / 256 / 256 / 256, n / 256 / 256 % 256, n / 256 % 256, n % 256]
  }

  function FromBE32(b: bytes): u32
    requires |b| == 4
  {
    ((b[0] as int * 256 + b[1] as int) * 256 + b[2] as int) * 256 + b[3] as int
  }

  lemma BE32Inverse(n: u32)
    ensures FromBE32(BE32(n)) == n
  {
  }

  lemma BE32Injective(m: u32, n: u32)
    requires BE32(m) == BE32(n)
    ensures m == n
  {
    BE32Inverse(m);
    BE32Inverse(n);
  }

  /** Every four bytes are the encoding of the number they are read as. */
  lemma FromBE32Inverse(b: bytes)
    requires |b| == 4
    ensures BE32(FromBE32(b)) == b
  {
    var n := FromBE32(b);
    assert n / 256 == (b[0] as int * 256 + b[1] as int) * 256 + b[2] as int;
    assert n / 256 / 256 == b[0] as int * 256 + b[1] as int;
  }

  function BE64(n: u64): (b: bytes)
    ensures |b| == 8
  {
    BE32(n / TWO_32) + BE32(n % TWO_32)
  }

  function FromBE64(b: bytes): u64
    requires |b| == 8
  {
    FromBE32(b[..4]) * TWO_32 + FromBE32(b[4..])
  }

  lemma BE64Inverse(n: u64)
    ensures FromBE64(BE64(n)) == n
  {
    BE32Inverse(n / TWO_32);
    BE32Inverse(n % TWO_32);
    assert BE64(n)[..4] == BE32(n / TWO_32) && BE64(n)[4..] == BE32(n % TWO_32);
  }

  // ---------------------------------------------------------------- exclusive or

  /** Bitwise exclusive or of the low `width` bits, least significant bit first. */
  function XorBits(a: nat, b: nat, width: nat): (r: nat)
    decreases width
  {
    if width == 0 then 0 else (a + b) % 2 + 2 * XorBits(a / 2, b / 2, width - 1)
  }

  lemma {:induction false} XorBitsRange(a: nat, b: nat, width: nat)
    ensures XorBits(a, b, width) < Pow2(width)
    decreases width
  {
    if width > 0 {
      XorBitsRange(a / 2, b / 2, width - 1);
    }
  }

  lemma LowBitOfSum(a: nat, b: nat, r: nat)
    ensures ((a + b) % 2 + 2 * r + b) % 2 == a % 2
    ensures ((a + b) % 2 + 2 * r) / 2 == r
  {
  }

  lemma {:induction false} XorBitsInvolution(a: nat, b: nat, width: nat)
    requires a < Pow2(width)
    ensures XorBits(XorBits(a, b, width), b, width) == a
    decreases width
  {
    if width > 0 {
      var r := XorBits(a / 2, b / 2, width - 1);
      LowBitOfSum(a, b, r);
      assert XorBits(a, b, width) == (a + b) % 2 + 2 * r;
      XorBitsInvolution(a / 2, b / 2, width - 1);
    }
  }

  function Pow2(n: nat): (r: nat)
    ensures r > 0
  {
    if n == 0 then 1 else 2 * Pow2(n - 1)
  }

  function Xor(a: byte, b: byte): byte
  {
    XorBitsRange(a, b, 8);
    assert Pow2(8) == 256;
    XorBits(a, b, 8)
  }

  lemma XorInvolution(a: byte, b: byte)
    ensures Xor(Xor(a, b), b) == a
  {
    assert Pow2(8) == 256;
    XorBitsInvolution(a, b, 8);
  }

  /** Bit number `j`, counted from the least significant one. */
  function BitOf(n: nat, j: nat): (b: nat)
    ensures b == 0 || b == 1
  {
    if j == 0 then n % 2 else BitOf(n / 2, j - 1)
  }

  lemma LowBits(a: nat, b: nat, r: nat)
    ensures ((a + b) % 2 + 2 * r) % 2 == (a % 2 + b % 2) % 2
  {
  }

  lemma {:induction false} XorBitsAt(a: nat, b: nat, width: nat, j: nat)
    requires j < width
    ensures BitOf(XorBits(a, b, width), j) == (BitOf(a, j) + BitOf(b, j)) % 2
    decreases width
  {
    var r := XorBits(a / 2, b / 2, width - 1);
    LowBitOfSum(a, b, r);
    assert XorBits(a, b, width) == (a + b) % 2 + 2 * r;
    if j > 0 {
      XorBitsAt(a / 2, b / 2, width - 1, j - 1);
    } else {
      LowBits(a, b, r);
    }
  }

  /** Each bit of an exclusive or differs from that of one side exactly where the other side has a bit. */
  lemma XorBit(a: byte, b: byte, j: nat)
    requires j < 8
    ensures BitOf(Xor(a, b), j) != BitOf(a, j) <==> BitOf(b, j) == 1
  {
    XorBitsAt(a, b, 8, j);
  }

  lemma {:induction false} SameBits(a: nat, b: nat, width: nat)
    requires a < Pow2(width) && b < Pow2(width)
    requires forall j :: 0 <= j < width ==> BitOf(a, j) == BitOf(b, j)
    ensures a == b
    decreases width
  {
    if width > 0 {
      assert BitOf(a, 0) == BitOf(b, 0);
      forall j | 0 <= j < width - 1 ensures BitOf(a / 2, j) == BitOf(b / 2, j) {
        assert BitOf(a, j + 1) == BitOf(b, j + 1);
      }
      SameBits(a / 2, b / 2, width - 1);
    }
  }

  // ---------------------------------------------------------------- text

  predicate Continuation(b: byte) { 0x80 <= b < 0xC0 }

  /** Length of the well-formed UTF-8 scalar `s` starts with, or 0 if there is none. */
  function ScalarLength(s: bytes): (n: nat)
    requires s != []
    ensures n <= |s|
  {
    var b := s[0];
    if b < 0x80 then 1
    else if 0xC2 <= b < 0xE0 then
      if |s| >= 2 && Continuation(s[1]) then 2 else 0
    else if 0xE0 <= b < 0xF0 then
      if |s| >= 3 && Continuation(s[1]) && Continuation(s[2])
         && (b == 0xE0 ==> s[1] >= 0xA0) && (b == 0xED ==> s[1] < 0xA0) then 3 else 0
    else if 0xF0 <= b < 0xF5 then
      if |s| >= 4 && Continuation(s[1]) && Continuation(s[2]) && Continuation(s[3])
         && (b == 0xF0 ==> s[1] >= 0x90) && (b == 0xF4 ==> s[1] < 0x90) then 4 else 0
    else 0
  }

  predicate ValidUtf8(s: bytes)
    decreases |s|
  {
    s == [] || (ScalarLength(s) > 0 && ValidUtf8(s[ScalarLength(s)..]))
  }

  /** A Rust string: its UTF-8 bytes. */
  type str = s: bytes | ValidUtf8(s) witness []

  lemma {:induction false} Utf8Concat(a: bytes, b: bytes)
    requires ValidUtf8(a) && ValidUtf8(b)
    ensures ValidUtf8(a + b)
    decreases |a|
  {
    if a == [] {
      assert a + b == b;
    } else {
      var n := ScalarLength(a);
      SameScalar(a, b);
      hide ScalarLength;
      Utf8Concat(a[n..], b);
      assert (a + b)[n..] == a[n..] + b;
    }
  }

  /** The first scalar of a string does not depend on what follows. */
  lemma SameScalar(a: bytes, b: bytes)
    requires a != [] && ScalarLength(a) > 0
    ensures ScalarLength(a + b) == ScalarLength(a)
  {
  }

  lemma {:induction false} AsciiIsUtf8(s: bytes)
    requires forall i :: 0 <= i < |s| ==> s[i] < 0x80
    ensures ValidUtf8(s)
    decreases |s|
  {
    if s != [] {
      AsciiIsUtf8(s[1..]);
    }
  }

  /** The bytes of an ASCII literal; any other character would become a question mark. */
  function Ascii(s: string): (b: str)
    ensures |b| == |s|
    ensures forall i :: 0 <= i < |s| ==> b[i] == if s[i] < 128 as char then s[i] as int else 63
  {
    var b: bytes := seq(|s|, i requires 0 <= i < |s| => if s[i] < 128 as char then s[i] as byte else 63);
    AsciiIsUtf8(b);
    b
  }

  lemma WrapCounts(n: nat)
    ensures WrapInc(n % TWO_32) == (n + 1) % TWO_32
  {
  }

  lemma WrapAgain(n: nat, i: nat)
    ensures (n + i) % TWO_32 == (n + (i + TWO_32)) % TWO_32
  {
  }

  lemma WrapApart(n: nat, i: nat, j: nat)
    requires i < j < i + TWO_32
    ensures (n + i) % TWO_32 != (n + j) % TWO_32
  {
  }

  lemma WrapShift(n: u32, i: nat)
    ensures (WrapInc(n) + i) % TWO_32 == (n + (i + 1)) % TWO_32
  {
  }

  /** `n` bytes of the random source, zero once it runs out: covers every byte string. */
  function Draw(rnd: bytes, n: nat): (b: bytes)
    ensures |b| == n
    ensures |rnd| == n ==> b == rnd
  {
    seq(n, i => if 0 <= i < |rnd| then rnd[i] else 0)
  }
}
