/**
 src/crypto/mod.rs. The primitives are arbitrary functions of fixed output length;
 what is modelled is how the program uses them: the position of a CTR keystream and
 the key derivation of section 7.2 of RFC 4253.
 */
module Crypto {
  import opened Bytes
  import opened Wire
  import opened Mpint

  const HMAC_SIZE: nat := 32

  type Digest = d: bytes | |d| == HMAC_SIZE witness seq(HMAC_SIZE, _ => 0)

  datatype Suite = Suite(
    keystream: (bytes, bytes, nat) -> byte,    // AES-256-CTR: key, initial counter, position
    hmac: (bytes, bytes) -> Digest,            // HMAC-SHA256: key, message
    sha256: bytes -> Digest,
    publicKey: bytes -> Digest,                // X25519: secret to public key
    sharedSecret: (bytes, bytes) -> Digest)    // X25519: own secret, peer's public key
  {
    ghost predicate Commutes() {
      forall a: bytes, b: bytes :: sharedSecret(a, publicKey(b)) == sharedSecret(b, publicKey(a))
    }
  }

  // ---------------------------------------------------------------- the stream cipher

  datatype Cipher = Cipher(key: bytes, iv: bytes, pos: nat) {
    function Advance(n: nat): Cipher { this.(pos := pos + n) }
  }

  function NewCipher(key: bytes, iv: bytes): Result<Cipher> {
    if |key| != 32 then Err(Encryption("AES-256 key must be 32 bytes"))
    else if |iv| != 16 then Err(Encryption("AES IV must be 16 bytes"))
    else Ok(Cipher(key, iv, 0))
  }

  /** The keystream from the cipher's position, combined with `data`. */
  function Masked(s: Suite, c: Cipher, data: bytes): (r: bytes)
    ensures |r| == |data|
  {
    seq(|data|, i requires 0 <= i < |data| => Xor(data[i], s.keystream(c.key, c.iv, c.pos + i)))
  }

  /** Encrypting and decrypting from one position cancel. */
  lemma MaskedTwice(s: Suite, c: Cipher, data: bytes)
    ensures Masked(s, c, Masked(s, c, data)) == data
  {
    hide Xor;
    forall i | 0 <= i < |data|
      ensures Masked(s, c, Masked(s, c, data))[i] == data[i]
    {
      XorInvolution(data[i], s.keystream(c.key, c.iv, c.pos + i));
    }
  }

  /** One call over a whole buffer equals two calls over its pieces. */
  lemma MaskedSplit(s: Suite, c: Cipher, data: bytes, n: nat)
    requires n <= |data|
    ensures Masked(s, c, data) == Masked(s, c, data[..n]) + Masked(s, c.Advance(n), data[n..])
  {
    var l, r := Masked(s, c, data), Masked(s, c, data[..n]) + Masked(s, c.Advance(n), data[n..]);
    forall i | 0 <= i < |data|
      ensures l[i] == r[i]
    {
      if i >= n {
        assert data[n..][i - n] == data[i] && c.Advance(n).pos + (i - n) == c.pos + i;
      }
    }
  }

  /**
   `wire` is `data` under the keystream from the cipher's position on: a bit is changed exactly where the
   keystream has one.
   */
  ghost predicate Enciphers(s: Suite, c: Cipher, data: bytes, wire: bytes) {
    && |wire| == |data|
    && forall i, j :: 0 <= i < |data| && 0 <= j < 8 ==>
         (BitOf(wire[i], j) != BitOf(data[i], j) <==> BitOf(s.keystream(c.key, c.iv, c.pos + i), j) == 1)
  }

  lemma SameByte(a: byte, b: byte)
    requires forall j :: 0 <= j < 8 ==> BitOf(a, j) == BitOf(b, j)
    ensures a == b
  {
    assert Pow2(8) == 256;
    SameBits(a, b, 8);
  }

  /** The cipher's output is that and nothing else. */
  lemma MaskedIff(s: Suite, c: Cipher, data: bytes, wire: bytes)
    ensures Enciphers(s, c, data, wire) <==> wire == Masked(s, c, data)
  {
    hide Xor, BitOf;
    var m := Masked(s, c, data);
    forall i, j | 0 <= i < |data| && 0 <= j < 8
      ensures BitOf(m[i], j) != BitOf(data[i], j) <==> BitOf(s.keystream(c.key, c.iv, c.pos + i), j) == 1
    {
      XorBit(data[i], s.keystream(c.key, c.iv, c.pos + i), j);
    }
    if Enciphers(s, c, data, wire) {
      forall i | 0 <= i < |data| ensures wire[i] == m[i] {
        forall j | 0 <= j < 8 ensures BitOf(wire[i], j) == BitOf(m[i], j) {
          IsBit(wire[i], j);
          IsBit(m[i], j);
          IsBit(data[i], j);
        }
        SameByte(wire[i], m[i]);
      }
    }
  }

  lemma IsBit(n: nat, j: nat)
    ensures BitOf(n, j) == 0 || BitOf(n, j) == 1
  {
  }

  class AesCipher {
    const key: bytes
    const iv: bytes
    var pos: nat

    ghost function Value(): Cipher reads this { Cipher(key, iv, pos) }

    constructor (c: Cipher)
      ensures Value() == c
    {
      key, iv, pos := c.key, c.iv, c.pos;
    }

    /** In place, as `apply_keystream` works; the position moves on by the length of the data. */
    method Apply(s: Suite, data: array<byte>)
      modifies this`pos, data
      ensures data[..] == Masked(s, old(Value()), old(data[..]))
      ensures Value() == old(Value()).Advance(data.Length)
    {
      forall i | 0 <= i < data.Length {
        data[i] := Xor(data[i], s.keystream(key, iv, pos + i));
      }
      pos := pos + data.Length;
    }
  }

  // ---------------------------------------------------------------- key derivation

  /** What a derivation hashes: K as an mpint followed by H, then X and the session id. */
  datatype KeySeed = KeySeed(secret: bytes, hash: bytes, letter: byte, sessionId: bytes) {
    function Base(): bytes { EncMpint(secret) + hash }
  }

  /** K1 || ... || Kn of section 7.2 of RFC 4253. */
  function KeyBlocks(s: Suite, seed: KeySeed, n: nat): (r: bytes)
    ensures |r| == HMAC_SIZE * n
    decreases n, 0
  {
    if n == 0 then [] else KeyBlocks(s, seed, n - 1) + KeyBlock(s, seed, n - 1)
  }

  /** K(n+1): the hash of K || H || X || session_id, then of K || H || K1 || ... || Kn. */
  function KeyBlock(s: Suite, seed: KeySeed, n: nat): Digest
    decreases n, 1
  {
    if n == 0 then s.sha256(seed.Base() + [seed.letter] + seed.sessionId)
    else s.sha256(seed.Base() + KeyBlocks(s, seed, n))
  }

  /** Byte `i` of the unbounded stream K1 || K2 || ... */
  function KeyByte(s: Suite, seed: KeySeed, i: nat): byte {
    KeyBlock(s, seed, i / HMAC_SIZE)[i % HMAC_SIZE]
  }

  /** The first `needed` bytes of that stream. */
  function DerivedKey(s: Suite, seed: KeySeed, needed: nat): (key: bytes)
    ensures |key| == needed
  {
    seq(needed, i requires 0 <= i < needed => KeyByte(s, seed, i))
  }

  lemma {:induction false} KeyBlocksAt(s: Suite, seed: KeySeed, n: nat, i: nat)
    requires i < HMAC_SIZE * n
    ensures KeyBlocks(s, seed, n)[i] == KeyByte(s, seed, i)
    decreases n
  {
    if i < HMAC_SIZE * (n - 1) {
      KeyBlocksAt(s, seed, n - 1, i);
    } else {
      assert i / HMAC_SIZE == n - 1 && i % HMAC_SIZE == i - HMAC_SIZE * (n - 1);
    }
  }

  method DeriveKey(s: Suite, secret: bytes, hash: bytes, letter: byte, sessionId: bytes, needed: nat)
    returns (key: bytes)
    ensures |key| == needed
    ensures key == DerivedKey(s, KeySeed(secret, hash, letter, sessionId), needed)
  {
    ghost var seed := KeySeed(secret, hash, letter, sessionId);
    var kMpint := EncodeMpintForHash(secret);
    key := s.sha256(kMpint + hash + [letter] + sessionId);
    ghost var n := 1;
    assert KeyBlocks(s, seed, 0) == [];
    assert key == KeyBlocks(s, seed, 1);
    while |key| < needed
      invariant n >= 1 && key == KeyBlocks(s, seed, n)
      decreases needed - |key|
    {
      var kn := s.sha256(kMpint + hash + key);
      key := key + kn;
      n := n + 1;
    }
    forall i | 0 <= i < needed
      ensures key[i] == KeyByte(s, seed, i)
    {
      KeyBlocksAt(s, seed, n, i);
    }
    key := key[..needed];
  }

  /** A shorter derivation is a prefix of every longer one with the same inputs. */
  lemma DerivedPrefix(s: Suite, seed: KeySeed, m: nat, n: nat)
    requires m <= n
    ensures DerivedKey(s, seed, m) == DerivedKey(s, seed, n)[..m]
  {
  }

  lemma DerivedIsBlocks(s: Suite, seed: KeySeed, n: nat)
    ensures DerivedKey(s, seed, HMAC_SIZE * n) == KeyBlocks(s, seed, n)
  {
    hide KeyByte;
    forall i | 0 <= i < HMAC_SIZE * n ensures KeyBlocks(s, seed, n)[i] == KeyByte(s, seed, i) {
      KeyBlocksAt(s, seed, n, i);
    }
  }

  /**
   Section 7.2 of RFC 4253: the first 32 bytes are the hash of K, H, the letter and the session id, and every
   further 32 bytes are the hash of K, H and all the bytes before them.
   */
  lemma DerivedBlock(s: Suite, secret: bytes, hash: bytes, letter: byte, sessionId: bytes, n: nat)
    ensures var key := DerivedKey(s, KeySeed(secret, hash, letter, sessionId), 32 * (n + 1));
            key[32 * n..] == s.sha256(EncMpint(secret) + hash + if n == 0 then [letter] + sessionId else key[..32 * n])
  {
    hide DerivedKey, EncMpint;
    var seed := KeySeed(secret, hash, letter, sessionId);
    DerivedIsBlocks(s, seed, n + 1);
    DerivedIsBlocks(s, seed, n);
    var key := KeyBlocks(s, seed, n + 1);
    assert key == KeyBlocks(s, seed, n) + KeyBlock(s, seed, n);
    assert key[..32 * n] == KeyBlocks(s, seed, n) && key[32 * n..] == KeyBlock(s, seed, n);
    assert EncMpint(secret) + hash + ([letter] + sessionId) == EncMpint(secret) + hash + [letter] + sessionId;
  }
}
