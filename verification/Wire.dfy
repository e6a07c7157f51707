/**
 The SSH wire types of section 5 of RFC 4251 as src/packet/codec.rs writes and
 reads them. `Enc*` give the bytes a writer appends; `Take*` give what a reader
 returns together with the bytes left behind the cursor.
 */
module Wire {
  import opened Bytes
  import opened Mpint

  const MAX_PACKET_SIZE: nat := 35000
  const COMMA: byte := 44

  datatype Parsed<+T> = Parsed(value: T, rest: bytes)

  // ---------------------------------------------------------------- scalars and strings

  function EncString(s: bytes): (r: bytes)
    ensures |r| == 4 + |s|
  {
    BE32(|s| % TWO_32) + s
  }

  function EncBool(v: bool): bytes { if v then [1] else [0] }

  function TakeU32(b: bytes): Result<Parsed<u32>> {
    if |b| < 4 then Err(InvalidPacket("Failed to read u32"))
    else Ok(Parsed(FromBE32(b[..4]), b[4..]))
  }

  function TakeU64(b: bytes): Result<Parsed<u64>> {
    if |b| < 8 then Err(InvalidPacket("Failed to read u64"))
    else Ok(Parsed(FromBE64(b[..8]), b[8..]))
  }

  function TakeU8(b: bytes): Result<Parsed<byte>> {
    if |b| < 1 then Err(Io) else Ok(Parsed(b[0], b[1..]))
  }

  function TakeExact(b: bytes, n: nat): Result<Parsed<bytes>> {
    if |b| < n then Err(Io) else Ok(Parsed(b[..n], b[n..]))
  }

  function TakeBool(b: bytes): Result<Parsed<bool>> {
    if |b| < 1 then Err(InvalidPacket("Failed to read bool"))
    else Ok(Parsed(b[0] != 0, b[1..]))
  }

  function TakeString(b: bytes): Result<Parsed<bytes>> {
    if |b| < 4 then Err(InvalidPacket("Failed to read string length"))
    else
      var len := FromBE32(b[..4]);
      if len > MAX_PACKET_SIZE then Err(InvalidPacket("String too long"))
      else if |b| < 4 + len then Err(InvalidPacket("Truncated string"))
      else Ok(Parsed(b[4..4 + len], b[4 + len..]))
  }

  function TakeUtf8(b: bytes): Result<Parsed<str>> {
    var p :- TakeString(b);
    if ValidUtf8(p.value) then Ok(Parsed(p.value, p.rest))
    else Err(InvalidPacket("Invalid UTF-8 string"))
  }

  /** Within the limit that `read_string` sets. */
  predicate Readable(s: bytes) { |s| <= MAX_PACKET_SIZE }

  lemma TakeU32Inverts(b: bytes, n: u32, rest: bytes)
    requires b == BE32(n) + rest
    ensures TakeU32(b) == Ok(Parsed(n, rest))
  {
    BE32Inverse(n);
    assert b[..4] == BE32(n) && b[4..] == rest;
  }

  lemma TakeU64Inverts(b: bytes, n: u64, rest: bytes)
    requires b == BE64(n) + rest
    ensures TakeU64(b) == Ok(Parsed(n, rest))
  {
    BE64Inverse(n);
    assert b[..8] == BE64(n) && b[8..] == rest;
  }

  lemma TakeBoolInverts(b: bytes, v: bool, rest: bytes)
    requires b == EncBool(v) + rest
    ensures TakeBool(b) == Ok(Parsed(v, rest))
  {
    assert b[1..] == rest;
  }

  /** A written string is read back, whatever follows it, exactly when it is within the reader's limit. */
  lemma TakeStringInverts(b: bytes, s: bytes, rest: bytes)
    requires |s| < TWO_32 && b == EncString(s) + rest
    ensures TakeString(b)
         == if |s| <= MAX_PACKET_SIZE then Ok(Parsed(s, rest)) else Err(InvalidPacket("String too long"))
  {
    BE32Inverse(|s|);
    assert b[..4] == BE32(|s|);
    if |s| <= MAX_PACKET_SIZE {
      assert b[4..4 + |s|] == s && b[4 + |s|..] == rest;
    }
  }

  lemma TakeUtf8Inverts(b: bytes, s: str, rest: bytes)
    requires |s| < TWO_32 && b == EncString(s) + rest
    ensures TakeUtf8(b) == if |s| <= MAX_PACKET_SIZE then Ok(Parsed(s, rest)) else Err(InvalidPacket("String too long"))
  {
    TakeStringInverts(b, s, rest);
  }

  /** A number is read exactly off its own bytes. */
  lemma TakeU32Iff(b: bytes, n: u32, rest: bytes)
    ensures TakeU32(b) == Ok(Parsed(n, rest)) <==> b == BE32(n) + rest
  {
    hide BE32, FromBE32;
    if TakeU32(b) == Ok(Parsed(n, rest)) {
      FromBE32Inverse(b[..4]);
      assert b == b[..4] + b[4..];
    }
    if b == BE32(n) + rest {
      TakeU32Inverts(b, n, rest);
    }
  }

  lemma TakeBoolIff(b: bytes, v: bool, rest: bytes)
    ensures TakeBool(b) == Ok(Parsed(v, rest)) <==> b != [] && b == [b[0]] + rest && (v <==> b[0] != 0)
  {
    if b != [] && b == [b[0]] + rest {
      assert b[1..] == rest;
    } else if b != [] {
      assert b == [b[0]] + b[1..];
    }
  }

  /** A string within the limit is read exactly off its own bytes; nothing else is ever read. */
  lemma TakeStringIff(b: bytes, s: bytes, rest: bytes)
    ensures TakeString(b) == Ok(Parsed(s, rest)) <==> Readable(s) && b == EncString(s) + rest
  {
    hide BE32, FromBE32;
    if TakeString(b) == Ok(Parsed(s, rest)) {
      FromBE32Inverse(b[..4]);
      assert b == b[..4] + (b[4..4 + |s|] + b[4 + |s|..]);
      assert b == EncString(s) + rest;
    }
    if Readable(s) && b == EncString(s) + rest {
      TakeStringInverts(b, s, rest);
    }
  }

  lemma TakeUtf8Iff(b: bytes, s: str, rest: bytes)
    ensures TakeUtf8(b) == Ok(Parsed(s, rest)) <==> Readable(s) && b == EncString(s) + rest
  {
    hide TakeString, EncString, ValidUtf8;
    TakeStringIff(b, s, rest);
  }

  /** src/packet/codec.rs `write_mpint`. */
  function EncMpint(val: bytes): bytes { EncString(MpintBody(val)) }

  lemma Appended(before: bytes, length: bytes, sign: bytes, rest: bytes)
    ensures before + length + sign + rest == before + (length + (sign + rest))
  {
  }

  /** The first length-prefixed string of a byte string is determined by it, and so is what follows. */
  lemma EncStringPrefixFree(s: bytes, t: bytes, r: bytes, u: bytes)
    requires |s| < TWO_32 && |t| < TWO_32
    requires EncString(s) + r == EncString(t) + u
    ensures s == t && r == u
  {
    hide BE32;
    var x, y := EncString(s) + r, EncString(t) + u;
    assert x[..4] == BE32(|s|) && y[..4] == BE32(|t|);
    BE32Injective(|s|, |t|);
    assert x[4..4 + |s|] == s && y[4..4 + |s|] == t;
    assert x[4 + |s|..] == r && y[4 + |s|..] == u;
  }

  /** On the wire a string is its length, most significant byte first, and its bytes. */
  lemma StringOnWire(s: bytes)
    requires |s| < TWO_32
    ensures Unsigned(EncString(s)[..4]) == |s| && EncString(s)[4..] == s
  {
    hide BE32, Unsigned, FromBE32;
    assert EncString(s)[..4] == BE32(|s|);
    BE32Inverse(|s|);
    BE32IsUnsigned(BE32(|s|));
  }

  // ---------------------------------------------------------------- name-lists

  function Join(names: seq<bytes>): bytes {
    if names == [] then []
    else if |names| == 1 then names[0]
    else names[0] + [COMMA] + Join(names[1..])
  }

  /** Index of the first `sep` in `s`, or |s|. */
  function IndexOf(s: bytes, sep: byte): (k: nat)
    ensures k <= |s|
    ensures k < |s| ==> s[k] == sep
    ensures forall i :: 0 <= i < k ==> s[i] != sep
  {
    if s == [] || s[0] == sep then 0 else 1 + IndexOf(s[1..], sep)
  }

  /** The pieces between the separators: never empty, one piece more than there are separators. */
  function Split(s: bytes, sep: byte): (pieces: seq<bytes>)
    ensures |pieces| >= 1
    decreases |s|
  {
    var k := IndexOf(s, sep);
    if k == |s| then [s] else [s[..k]] + Split(s[k + 1..], sep)
  }

  function EncNameList(names: seq<str>): bytes { EncString(Join(names)) }

  function TakeNameList(b: bytes): Result<Parsed<seq<bytes>>> {
    var p :- TakeUtf8(b);
    Ok(Parsed(if p.value == [] then [] else Split(p.value, COMMA), p.rest))
  }

  predicate CommaFree(names: seq<bytes>) {
    forall i :: 0 <= i < |names| ==> COMMA !in names[i]
  }

  lemma AsciiIsCommaFree(text: string)
    requires ',' !in text
    ensures COMMA !in Ascii(text)
  {
    forall i | 0 <= i < |text| ensures Ascii(text)[i] != COMMA {
      assert text[i] in text;
    }
  }

  lemma {:induction false} JoinUtf8(names: seq<str>)
    ensures ValidUtf8(Join(names))
    decreases |names|
  {
    if |names| > 1 {
      JoinUtf8(names[1..]);
      AsciiIsUtf8([COMMA]);
      Utf8Concat(names[0], [COMMA]);
      Utf8Concat(names[0] + [COMMA], Join(names[1..]));
    }
  }

  lemma {:induction false} PiecesAreFree(s: bytes, sep: byte)
    ensures forall i :: 0 <= i < |Split(s, sep)| ==> sep !in Split(s, sep)[i]
    decreases |s|
  {
    var k := IndexOf(s, sep);
    if k < |s| {
      PiecesAreFree(s[k + 1..], sep);
    }
  }

  lemma SplitFree(s: bytes, sep: byte)
    requires sep !in s
    ensures Split(s, sep) == [s]
  {
    var k := IndexOf(s, sep);
    assert forall i :: 0 <= i < |s| ==> s[i] in s;
  }

  /** Splitting a concatenation at a separator splits both sides. */
  lemma {:induction false} SplitConcat(a: bytes, b: bytes, sep: byte)
    ensures Split(a + [sep] + b, sep) == Split(a, sep) + Split(b, sep)
    decreases |a|
  {
    hide IndexOf, Split;
    var s, k := a + [sep] + b, IndexOf(a, sep);
    FirstIndex(s, sep, k);
    SplitAt(s, sep);
    SplitAt(a, sep);
    assert s[..k] == a[..k];
    if k < |a| {
      SplitConcat(a[k + 1..], b, sep);
      assert s[k + 1..] == a[k + 1..] + [sep] + b;
      assert [a[..k]] + (Split(a[k + 1..], sep) + Split(b, sep)) == [a[..k]] + Split(a[k + 1..], sep) + Split(b, sep);
    } else {
      assert s[k + 1..] == b && a[..k] == a;
    }
  }

  lemma SplitAt(s: bytes, sep: byte)
    ensures var k := IndexOf(s, sep);
            Split(s, sep) == if k == |s| then [s] else [s[..k]] + Split(s[k + 1..], sep)
  {
  }

  lemma FirstIndex(s: bytes, sep: byte, k: nat)
    requires k < |s| && s[k] == sep && forall i :: 0 <= i < k ==> s[i] != sep
    ensures IndexOf(s, sep) == k
  {
    var j := IndexOf(s, sep);
    assert j >= k;
  }

  /** Splitting undoes joining on every non-empty list of comma-free names. */
  lemma {:induction false} SplitJoin(names: seq<bytes>)
    requires names != [] && CommaFree(names)
    ensures Split(Join(names), COMMA) == names
    decreases |names|
  {
    hide IndexOf, Split;
    SplitFree(names[0], COMMA);
    if |names| > 1 {
      SplitJoin(names[1..]);
      SplitConcat(names[0], Join(names[1..]), COMMA);
      assert names == [names[0]] + names[1..];
    }
  }

  lemma {:induction false} JoinEmpty(names: seq<bytes>)
    requires Join(names) == []
    ensures names == [] || names == [[]]
  {
  }

  /** Section 5 of RFC 4251: exactly the lists that survive being written and read. */
  lemma NameListSurvivesIff(names: seq<str>, b: bytes, rest: bytes)
    requires |Join(names)| <= MAX_PACKET_SIZE
    requires b == EncNameList(names) + rest
    ensures TakeNameList(b) == Ok(Parsed(names, rest)) <==> CommaFree(names) && names != [[]]
    ensures TakeNameList(b).Ok? && TakeNameList(b).value.rest == rest
  {
    JoinUtf8(names);
    TakeUtf8Inverts(b, Join(names), rest);
    if CommaFree(names) && names != [] {
      SplitJoin(names);
    }
    if Join(names) == [] {
      JoinEmpty(names);
    }
    PiecesAreFree(Join(names), COMMA);
  }

  // ---------------------------------------------------------------- the buffer and the cursor

  /** The `Vec<u8>` every writer appends to. */
  class Buffer {
    var data: bytes

    constructor ()
      ensures data == []
    {
      data := [];
    }

    method WriteU8(v: byte)
      modifies this
      ensures data == old(data) + [v]
    {
      data := data + [v];
    }

    method WriteU32(v: u32)
      modifies this
      ensures data == old(data) + BE32(v)
    {
      data := data + BE32(v);
    }

    method WriteBool(v: bool)
      modifies this
      ensures data == old(data) + EncBool(v)
    {
      WriteU8(if v then 1 else 0);
    }

    method WriteAll(s: bytes)
      modifies this
      ensures data == old(data) + s
    {
      data := data + s;
    }

    method WriteString(s: bytes)
      modifies this
      ensures data == old(data) + EncString(s)
    {
      WriteU32(|s| % TWO_32);
      WriteAll(s);
      assert data == old(data) + EncString(s);
    }

    method WriteMpint(val: bytes)
      modifies this
      ensures data == old(data) + EncMpint(val)
    {
      hide BE32, Strip;
      var stripped := Strip(val);
      if stripped[0] >= 0x80 {
        WriteU32((|stripped| + 1) % TWO_32);
        WriteU8(0);
      } else {
        WriteU32(|stripped| % TWO_32);
      }
      WriteAll(stripped);
      Appended(old(data), BE32((|stripped| + 1) % TWO_32), [0], stripped);
      Appended(old(data), BE32(|stripped| % TWO_32), [], stripped);
    }

    method WriteNameList(names: seq<str>)
      modifies this
      ensures data == old(data) + EncNameList(names)
    {
      WriteString(Join(names));
    }
  }

  /** What a cursor method must return and leave unread, given the `Take*` result for its input. */
  ghost predicate Reads<T>(spec: Result<Parsed<T>>, r: Result<T>, rest: bytes) {
    match spec
    case Ok(p) => r == Ok(p.value) && rest == p.rest
    case Err(e) => r == Err(e)
  }

  /** `std::io::Cursor<&[u8]>`. */
  class Cursor {
    const data: bytes
    var pos: nat

    ghost predicate Valid() reads this { pos <= |data| }

    ghost function Rest(): bytes
      requires Valid()
      reads this
    {
      data[pos..]
    }

    constructor (d: bytes)
      ensures data == d && pos == 0 && Valid() && Rest() == d
    {
      data, pos := d, 0;
    }

    method ReadU32() returns (r: Result<u32>)
      requires Valid()
      modifies this
      ensures Valid() && Reads(TakeU32(old(Rest())), r, Rest())
    {
      if |data| - pos < 4 {
        return Err(InvalidPacket("Failed to read u32"));
      }
      r := Ok(FromBE32(data[pos..pos + 4]));
      assert Rest()[..4] == data[pos..pos + 4] && Rest()[4..] == data[pos + 4..];
      pos := pos + 4;
    }

    method ReadU64() returns (r: Result<u64>)
      requires Valid()
      modifies this
      ensures Valid() && Reads(TakeU64(old(Rest())), r, Rest())
    {
      if |data| - pos < 8 {
        return Err(InvalidPacket("Failed to read u64"));
      }
      r := Ok(FromBE64(data[pos..pos + 8]));
      assert Rest()[..8] == data[pos..pos + 8] && Rest()[8..] == data[pos + 8..];
      pos := pos + 8;
    }

    method ReadU8() returns (r: Result<byte>)
      requires Valid()
      modifies this
      ensures Valid() && Reads(TakeU8(old(Rest())), r, Rest())
    {
      if |data| == pos {
        return Err(Io);
      }
      r := Ok(data[pos]);
      pos := pos + 1;
    }

    method ReadExact(n: nat) returns (r: Result<bytes>)
      requires Valid()
      modifies this
      ensures Valid() && Reads(TakeExact(old(Rest()), n), r, Rest())
    {
      if |data| - pos < n {
        return Err(Io);
      }
      r := Ok(data[pos..pos + n]);
      assert Rest()[..n] == data[pos..pos + n] && Rest()[n..] == data[pos + n..];
      pos := pos + n;
    }

    method ReadBool() returns (r: Result<bool>)
      requires Valid()
      modifies this
      ensures Valid() && Reads(TakeBool(old(Rest())), r, Rest())
    {
      if |data| == pos {
        return Err(InvalidPacket("Failed to read bool"));
      }
      r := Ok(data[pos] != 0);
      pos := pos + 1;
    }

    method ReadString() returns (r: Result<bytes>)
      requires Valid()
      modifies this
      ensures Valid() && Reads(TakeString(old(Rest())), r, Rest())
    {
      ghost var was := Rest();
      var n := ReadU32();
      if n.Err? {
        return Err(InvalidPacket("Failed to read string length"));
      }
      var len := n.value;
      if len > MAX_PACKET_SIZE {
        return Err(InvalidPacket("String too long"));
      }
      if |data| - pos < len {
        return Err(InvalidPacket("Truncated string"));
      }
      r := Ok(data[pos..pos + len]);
      pos := pos + len;
      assert was[4..4 + len] == r.value && was[4 + len..] == Rest();
    }

    method ReadUtf8() returns (r: Result<str>)
      requires Valid()
      modifies this
      ensures Valid() && Reads(TakeUtf8(old(Rest())), r, Rest())
    {
      var s :- ReadString();
      if !ValidUtf8(s) {
        return Err(InvalidPacket("Invalid UTF-8 string"));
      }
      r := Ok(s);
    }

    method ReadNameList() returns (r: Result<seq<bytes>>)
      requires Valid()
      modifies this
      ensures Valid() && Reads(TakeNameList(old(Rest())), r, Rest())
    {
      var s :- ReadUtf8();
      r := Ok(if s == [] then [] else Split(s, COMMA));
    }
  }
}
