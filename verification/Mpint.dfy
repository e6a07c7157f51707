/**
 Multi-precision integers (section 5 of RFC 4251) as src/packet/codec.rs and
 src/crypto/mod.rs encode them, against their meaning as two's-complement numbers.
 */
module Mpint {
  import opened Bytes

  function Pow256(n: nat): (r: nat)
    ensures r > 0
  {
    if n == 0 then 1 else 256 * Pow256(n - 1)
  }

  /** The unsigned big-endian value of a byte string. */
  function Unsigned(b: bytes): (v: nat)
    decreases |b|
  {
    if b == [] then 0 else 256 * Unsigned(b[..|b| - 1]) + b[|b| - 1]
  }

  /** The fixed-width readers read the unsigned value, most significant byte first. */
  lemma BE32IsUnsigned(b: bytes)
    requires |b| == 4
    ensures FromBE32(b) == Unsigned(b) && BE32(FromBE32(b)) == b
  {
    FourBytes(b);
    FromBE32Inverse(b);
  }

  lemma BE64IsUnsigned(b: bytes)
    requires |b| == 8
    ensures FromBE64(b) == Unsigned(b) && BE64(FromBE64(b)) == b
  {
    hide FromBE32, BE32, Unsigned;
    var hi, lo := b[..4], b[4..];
    BE32IsUnsigned(hi);
    BE32IsUnsigned(lo);
    UnsignedConcat(hi, lo);
    assert b == hi + lo;
    assert Pow256(4) == TWO_32;
    var n := FromBE64(b);
    assert n / TWO_32 == FromBE32(hi) && n % TWO_32 == FromBE32(lo);
  }

  lemma FourBytes(b: bytes)
    requires |b| == 4
    ensures FromBE32(b) == Unsigned(b)
  {
    assert b[..3][..2] == b[..2] && b[..2][..1] == b[..1] && b[..1][..0] == [];
    assert Unsigned(b[..1]) == b[0];
    assert Unsigned(b[..2]) == b[0] as int * 256 + b[1] as int;
  }

  lemma {:induction false} UnsignedConcat(a: bytes, b: bytes)
    ensures Unsigned(a + b) == Unsigned(a) * Pow256(|b|) + Unsigned(b)
    decreases |b|
  {
    if b == [] {
      assert a + b == a;
    } else {
      var n := |b| - 1;
      UnsignedConcat(a, b[..n]);
      assert (a + b)[..|a + b| - 1] == a + b[..n];
      Scaled(Unsigned(a), Pow256(n), Unsigned(b[..n]));
    }
  }

  lemma Scaled(x: nat, y: nat, z: nat)
    ensures 256 * (x * y + z) == x * (256 * y) + 256 * z
  {
  }

  /** The two's-complement big-endian value of a byte string. */
  function Signed(b: bytes): int {
    if b != [] && b[0] >= 0x80 then Unsigned(b) - Pow256(|b|) else Unsigned(b)
  }

  function FirstNonZero(b: bytes): (k: nat)
    ensures k <= |b|
    ensures k < |b| ==> b[k] != 0
    ensures forall i :: 0 <= i < k ==> b[i] == 0
  {
    if b == [] || b[0] != 0 then 0 else 1 + FirstNonZero(b[1..])
  }

  /** The input without leading zeros; the single byte 0 when nothing else is left. */
  function Strip(val: bytes): (r: bytes)
    ensures r != []
    ensures r[0] == 0 ==> r == [0]
  {
    var k := FirstNonZero(val);
    if k < |val| then val[k..] else [0]
  }

  /** The bytes behind the length field. */
  function MpintBody(val: bytes): (r: bytes)
    ensures r != []
  {
    var s := Strip(val);
    if s[0] >= 0x80 then [0] + s else s
  }

  lemma {:induction false} LeadingZero(s: bytes)
    ensures Unsigned([0] + s) == Unsigned(s)
    decreases |s|
  {
    if s != [] {
      LeadingZero(s[..|s| - 1]);
      assert ([0] + s)[..|s|] == [0] + s[..|s| - 1];
    } else {
      assert ([0] + s)[..0] == [];
    }
  }

  lemma {:induction false} StripKeepsValue(val: bytes)
    ensures Unsigned(Strip(val)) == Unsigned(val)
    decreases |val|
  {
    if val != [] && val[0] == 0 {
      StripKeepsValue(val[1..]);
      LeadingZero(val[1..]);
      assert val == [0] + val[1..];
      assert FirstNonZero(val) == 1 + FirstNonZero(val[1..]);
      if FirstNonZero(val) < |val| {
        assert Strip(val) == Strip(val[1..]);
      }
    } else if val != [] {
      assert val[0..] == val;
    } else {
      LeadingZero([]);
      assert [0] + [] == Strip(val);
    }
  }

  /** The encoded bytes, read as two's complement, denote the unsigned input. */
  lemma BodyDenotesInput(val: bytes)
    ensures Signed(MpintBody(val)) == Unsigned(val)
  {
    StripKeepsValue(val);
    LeadingZero(Strip(val));
  }

  lemma {:induction false} Pow256Monotonic(m: nat, n: nat)
    requires m <= n
    ensures Pow256(m) <= Pow256(n)
    decreases n
  {
    if m < n {
      Pow256Monotonic(m, n - 1);
    }
  }

  /** How the first byte bounds the value. */
  lemma {:induction false} LeadingByteBounds(b: bytes)
    requires b != []
    ensures Unsigned(b) < Pow256(|b|)
    ensures b[0] >= 1 ==> Pow256(|b| - 1) <= Unsigned(b)
    ensures b[0] >= 0x80 ==> 0x80 * Pow256(|b| - 1) <= Unsigned(b)
    ensures b[0] < 0x80 ==> Unsigned(b) < 0x80 * Pow256(|b| - 1)
    decreases |b|
  {
    if |b| > 1 {
      LeadingByteBounds(b[..|b| - 1]);
    } else {
      assert b[..0] == [];
    }
  }

  /** Two byte strings of one length with one value are one byte string. */
  lemma {:induction false} UnsignedInjective(a: bytes, b: bytes)
    requires |a| == |b| && Unsigned(a) == Unsigned(b)
    ensures a == b
    decreases |a|
  {
    if a != [] {
      var n := |a| - 1;
      UnsignedInjective(a[..n], b[..n]);
      assert a == a[..n] + [a[n]] && b == b[..n] + [b[n]];
    }
  }

  /** No two's-complement representation of a nonzero value is shorter than the encoded one. */
  lemma BodyIsMinimal(val: bytes, other: bytes)
    requires Unsigned(val) != 0
    requires Signed(other) == Unsigned(val)
    ensures |MpintBody(val)| <= |other|
  {
    var s, v := Strip(val), Unsigned(val);
    StripNonZero(val);
    assert other != [];
    LeadingByteBounds(other);
    var m, n := |s| - 1, |other| - 1;
    ExponentOrder(m, n, v);
    if s[0] >= 0x80 && m == n {
      assert false;
    }
  }

  lemma ExponentOrder(m: nat, n: nat, v: nat)
    requires Pow256(m) <= v < 0x80 * Pow256(n)
    ensures m <= n
  {
    if n < m {
      Pow256Monotonic(n + 1, m);
    }
  }

  lemma StripNonZero(val: bytes)
    requires Unsigned(val) != 0
    ensures Pow256(|Strip(val)| - 1) <= Unsigned(val)
    ensures Strip(val)[0] >= 0x80 ==> 0x80 * Pow256(|Strip(val)| - 1) <= Unsigned(val)
  {
    StripKeepsValue(val);
    LeadingByteBounds(Strip(val));
    LeadingZero([]);
    assert [0] + [] == [0];
  }

  /** Zero is the single byte 0, where section 5 of RFC 4251 asks for the empty string. */
  lemma ZeroBody(val: bytes)
    requires Unsigned(val) == 0
    ensures MpintBody(val) == [0] && Signed([]) == 0
  {
    StripKeepsValue(val);
    LeadingByteBounds(Strip(val));
  }

  /** Two inputs encode equally iff they denote the same integer. */
  lemma BodyEqualIff(a: bytes, b: bytes)
    ensures MpintBody(a) == MpintBody(b) <==> Unsigned(a) == Unsigned(b)
  {
    BodyDenotesInput(a);
    BodyDenotesInput(b);
    if Unsigned(a) == Unsigned(b) {
      if Unsigned(a) == 0 {
        ZeroBody(a);
        ZeroBody(b);
      } else {
        BodyIsMinimal(a, MpintBody(b));
        BodyIsMinimal(b, MpintBody(a));
        SignedIsUnsigned(a);
        SignedIsUnsigned(b);
        UnsignedInjective(MpintBody(a), MpintBody(b));
      }
    }
  }

  lemma SignedIsUnsigned(val: bytes)
    ensures MpintBody(val)[0] < 0x80
    ensures Signed(MpintBody(val)) == Unsigned(MpintBody(val))
  {
  }

  /** src/crypto/mod.rs `encode_mpint_for_hash`: its own copy of the same encoding. */
  method EncodeMpintForHash(data: bytes) returns (buf: bytes)
    ensures buf == BE32(|MpintBody(data)| % TWO_32) + MpintBody(data)
  {
    var stripped := Strip(data);
    if stripped == [] || stripped[0] >= 0x80 {
      buf := BE32((|stripped| + 1) % TWO_32);
      buf := buf + [0];
    } else {
      buf := BE32(|stripped| % TWO_32);
    }
    buf := buf + stripped;
  }
}
