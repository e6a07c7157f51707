/**
 The version exchange of section 4.2 of RFC 4253: `send_version_string` and the
 byte-by-byte loop of `recv_version_string` in src/transport/io.rs.
 */
module Version {
  import opened Bytes
  import opened Transport

  const CR: byte := 13
  const LF: byte := 10
  const CRLF: bytes := [13, 10]
  const MAX_LINE: nat := 255

  function Prefix(): str { Ascii("SSH-2.0-") }

  function OwnVersion(): (v: str)
    ensures Prefix() <= v && |v| == 20 && !HasCrlf(v)
  {
    AsciiPrefix("SSH-2.0-", "SSH-2.0-SwiftSSH_0.1");
    AsciiHasNoCrlf("SSH-2.0-SwiftSSH_0.1");
    Ascii("SSH-2.0-SwiftSSH_0.1")
  }

  lemma AsciiPrefix(a: string, b: string)
    requires a <= b
    ensures Ascii(a) <= Ascii(b)
  {
  }

  lemma AsciiHasNoCrlf(text: string)
    requires '\r' !in text
    ensures !HasCrlf(Ascii(text))
  {
    var v := Ascii(text);
    forall i | 0 <= i < |v| ensures v[i] != CR {
      assert text[i] in text;
    }
  }

  predicate EndsWithCrlf(b: bytes) { |b| >= 2 && b[|b| - 2] == CR && b[|b| - 1] == LF }

  /** A CR LF inside `v`. */
  predicate HasCrlf(v: bytes) { exists i :: 0 <= i < |v| - 1 && v[i] == CR && v[i + 1] == LF }

  datatype Scan = Found(end: nat) | TooLong | Eof

  /** How the loop goes on once the first `n` bytes of `s` have been pushed. */
  function ScanFrom(s: bytes, n: nat): (r: Scan)
    requires n <= |s|
    ensures r.Found? ==> n < r.end <= |s| && 2 <= r.end
    decreases |s| - n
  {
    if n == |s| then Eof
    else if n + 1 > MAX_LINE then TooLong
    else if EndsWithCrlf(s[..n + 1]) then Found(n + 1)
    else ScanFrom(s, n + 1)
  }

  function Checked(v: bytes): Result<str> {
    hide ValidUtf8;
    if !ValidUtf8(v) then Err(Protocol("Invalid UTF-8 in version string"))
    else if !(Prefix() <= v) then Err(Protocol("Unsupported protocol version"))
    else Ok(v)
  }

  /** What `recv_version_string` returns on a stream that holds `s`. */
  function Received(s: bytes): Result<str> {
    match ScanFrom(s, 0)
    case Eof => Err(ConnectionClosed)
    case TooLong => Err(Protocol("Version string too long"))
    case Found(end) => Checked(s[..end - 2])
  }

  /** How many bytes it takes off the stream. */
  function Consumed(s: bytes): (n: nat)
    ensures n <= |s|
  {
    match ScanFrom(s, 0)
    case Eof => |s|
    case TooLong => if |s| < MAX_LINE + 1 then |s| else MAX_LINE + 1
    case Found(end) => end
  }

  method SendVersionString(writer: ByteStream, version: str)
    modifies writer
    ensures writer.data == old(writer.data) + version + CRLF
  {
    writer.WriteAll(version + CRLF);
    assert old(writer.data) + (version + CRLF) == old(writer.data) + version + CRLF;
  }

  method RecvVersionString(reader: ByteStream) returns (r: Result<str>)
    modifies reader
    ensures r == Received(old(reader.data))
    ensures reader.data == old(reader.data)[Consumed(old(reader.data))..]
  {
    ghost var s := reader.data;
    var buf: bytes := [];
    while true
      invariant |buf| <= MAX_LINE && |buf| <= |s| && buf == s[..|buf|] && reader.data == s[|buf|..]
      invariant ScanFrom(s, 0) == ScanFrom(s, |buf|)
      decreases |s| - |buf|
    {
      var byte := reader.ReadExact(1);
      if byte.None? {
        return Err(ConnectionClosed);
      }
      ghost var n := |buf|;
      assert s[n..][..1] == [s[n]] && s[n..][1..] == s[n + 1..];
      buf := buf + byte.value;
      assert buf == s[..n + 1];
      if |buf| > MAX_LINE {
        return Err(Protocol("Version string too long"));
      }
      if EndsWithCrlf(buf) {
        break;
      }
    }
    assert ScanFrom(s, 0) == Found(|buf|);
    ghost var end := |buf|;
    buf := buf[..|buf| - 2];
    assert buf == s[..end - 2];
    if !ValidUtf8(buf) {
      return Err(Protocol("Invalid UTF-8 in version string"));
    }
    if !(Prefix() <= buf) {
      return Err(Protocol("Unsupported protocol version"));
    }
    r := Ok(buf);
  }

  // ---------------------------------------------------------------- properties

  /** The scan stops at the first position whose prefix ends in CR LF, if that is within the limit. */
  lemma {:induction false} ScanSkips(s: bytes, n: nat, m: nat)
    requires n <= m <= |s| && m <= MAX_LINE
    requires forall k :: n < k <= m ==> !EndsWithCrlf(s[..k])
    ensures ScanFrom(s, n) == ScanFrom(s, m)
    decreases m - n
  {
    if n < m {
      assert !EndsWithCrlf(s[..n + 1]);
      ScanSkips(s, n + 1, m);
    }
  }

  lemma NoEarlyEnd(v: bytes, rest: bytes, k: nat)
    requires !HasCrlf(v) && k < |v| + 2
    ensures !EndsWithCrlf((v + CRLF + rest)[..k])
  {
    var s := v + CRLF + rest;
    assert forall i :: 0 <= i < |v| ==> s[i] == v[i];
  }

  lemma EarlyEnd(v: bytes, rest: bytes, i: nat)
    requires i < |v| - 1 && v[i] == CR && v[i + 1] == LF
    ensures EndsWithCrlf((v + CRLF + rest)[..i + 2])
  {
  }

  /** However far the scan has come, it ends no later than the first CR LF. */
  lemma {:induction false} ScanEndsBy(s: bytes, n: nat, m: nat)
    requires n < m <= |s| && EndsWithCrlf(s[..m])
    ensures ScanFrom(s, n).Found? ==> ScanFrom(s, n).end <= m
    ensures !ScanFrom(s, n).Eof?
    decreases m - n
  {
    if n + 1 < m && n + 1 <= MAX_LINE && !EndsWithCrlf(s[..n + 1]) {
      ScanEndsBy(s, n + 1, m);
    }
  }

  predicate Receivable(v: bytes) {
    ValidUtf8(v) && Prefix() <= v && |v| <= 253 && !HasCrlf(v)
  }

  /** A line survives the exchange, with any bytes behind it, exactly when it is receivable. */
  lemma VersionSurvivesIff(v: bytes, rest: bytes)
    ensures var s := v + CRLF + rest;
            Received(s) == Ok(v) && Consumed(s) == |v| + 2 <==> Receivable(v)
    ensures Receivable(v) ==> (v + CRLF + rest)[Consumed(v + CRLF + rest)..] == rest
  {
    var s := v + CRLF + rest;
    if HasCrlf(v) {
      var i :| 0 <= i < |v| - 1 && v[i] == CR && v[i + 1] == LF;
      EarlyEnd(v, rest, i);
      ScanEndsBy(s, 0, i + 2);
    } else {
      var m := if |v| + 1 < MAX_LINE then |v| + 1 else MAX_LINE;
      forall k | 0 < k <= m
        ensures !EndsWithCrlf(s[..k])
      {
        NoEarlyEnd(v, rest, k);
      }
      ScanSkips(s, 0, m);
      assert s[..|v| + 2] == v + CRLF;
      assert s[..|v|] == v && s[|v| + 2..] == rest;
      if |v| <= 253 {
        assert ScanFrom(s, 0) == Found(|v| + 2);
      } else {
        assert ScanFrom(s, 0).TooLong?;
      }
    }
  }
}
