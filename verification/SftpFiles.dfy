/**
 File contents under the positional writes and reads of the SFTP handler
 (src/sftp/mod.rs, `handle_write` and `handle_read`).
 */
module SftpFiles {
  import opened Bytes

  function Zeros(n: nat): (z: bytes)
    ensures |z| == n && forall i :: 0 <= i < n ==> z[i] == 0
  {
    seq(n, _ => 0)
  }

  /** Seek to `offset` and write: a gap behind the end reads as zeros; writing nothing changes nothing. */
  function Overwrite(file: bytes, offset: nat, data: bytes): bytes {
    if data == [] then file
    else
      var front := if offset <= |file| then file[..offset] else file + Zeros(offset - |file|);
      front + data + (if offset + |data| < |file| then file[offset + |data|..] else [])
  }

  datatype Write = Write(offset: nat, data: bytes) {
    predicate Covers(i: nat) { offset <= i < offset + |data| }
  }

  function Written(file: bytes, ws: seq<Write>): bytes
    decreases |ws|
  {
    if ws == [] then file else Written(Overwrite(file, ws[0].offset, ws[0].data), ws[1..])
  }

  // ---------------------------------------------------------------- what a run of writes means

  /** One past the last byte any write puts anywhere. */
  function Reach(n: nat, ws: seq<Write>): nat
    decreases |ws|
  {
    if ws == [] then n
    else
      var end := ws[0].offset + |ws[0].data|;
      Reach(if ws[0].data != [] && end > n then end else n, ws[1..])
  }

  /** The byte at `i`: from the last write that covers it, else from the old file, else zero. */
  function ByteAt(file: bytes, ws: seq<Write>, i: nat): byte
    decreases |ws|
  {
    if ws == [] then if i < |file| then file[i] else 0
    else
      var last := ws[|ws| - 1];
      if last.Covers(i) then last.data[i - last.offset] else ByteAt(file, ws[..|ws| - 1], i)
  }

  lemma OverwriteAt(file: bytes, w: Write, i: nat)
    ensures |Overwrite(file, w.offset, w.data)| == Reach(|file|, [w])
    ensures i < |Overwrite(file, w.offset, w.data)| ==>
              Overwrite(file, w.offset, w.data)[i] == ByteAt(file, [w], i)
  {
    assert [w][1..] == [] && [w][..0] == [];
  }

  lemma {:induction false} WrittenAppend(file: bytes, ws: seq<Write>, w: Write)
    ensures Written(file, ws + [w]) == Overwrite(Written(file, ws), w.offset, w.data)
    decreases |ws|
  {
    hide Overwrite;
    if ws == [] {
      assert ws + [w] == [w] && [w][1..] == [];
    } else {
      WrittenAppend(Overwrite(file, ws[0].offset, ws[0].data), ws[1..], w);
      assert (ws + [w])[1..] == ws[1..] + [w];
    }
  }

  lemma {:induction false} ReachAppend(n: nat, ws: seq<Write>, w: Write)
    ensures Reach(n, ws + [w]) == Reach(Reach(n, ws), [w])
    decreases |ws|
  {
    if ws == [] {
      assert ws + [w] == [w];
    } else {
      var end := ws[0].offset + |ws[0].data|;
      ReachAppend(if ws[0].data != [] && end > n then end else n, ws[1..], w);
      assert (ws + [w])[1..] == ws[1..] + [w];
    }
  }

  /** Every run of writes leaves exactly the bytes their last writers put there. */
  lemma {:induction false} LastWriterWins(file: bytes, ws: seq<Write>, i: nat)
    ensures |Written(file, ws)| == Reach(|file|, ws)
    ensures i < |Written(file, ws)| ==> Written(file, ws)[i] == ByteAt(file, ws, i)
    ensures i >= |Written(file, ws)| ==> ByteAt(file, ws, i) == 0
    decreases |ws|
  {
    if ws != [] {
      var init, w := ws[..|ws| - 1], ws[|ws| - 1];
      assert ws == init + [w];
      WrittenAppend(file, init, w);
      ReachAppend(|file|, init, w);
      LastWriterWins(file, init, i);
      OverwriteAt(Written(file, init), w, i);
      assert [w][1..] == [] && [w][..0] == [];
    }
  }

  /** With truncation on every write only the last one survives, after zeros. */
  lemma TruncatedWrite(offset: nat, data: bytes)
    ensures Overwrite([], offset, data) == if data == [] then [] else Zeros(offset) + data
  {
    assert [] + Zeros(offset) == Zeros(offset);
    assert offset == 0 ==> Zeros(offset) + data == data;
  }

  // ---------------------------------------------------------------- reading

  const READ_LIMIT: nat := 32768

  function Min(a: nat, b: nat): nat { if a < b then a else b }

  /** What one read returns; the system may return less than was asked for, but not nothing. */
  function Chunk(file: bytes, offset: nat, length: nat, chunk: nat): (r: bytes)
    ensures |r| <= READ_LIMIT
    ensures r == [] <==> length == 0 || offset >= |file|
    ensures offset <= |file| ==> offset + |r| <= |file| && r == file[offset..offset + |r|]
  {
    if offset >= |file| then []
    else
      var n := Min(Min(length, READ_LIMIT), Min(|file| - offset, if chunk == 0 then 1 else chunk));
      file[offset..offset + n]
  }
}
