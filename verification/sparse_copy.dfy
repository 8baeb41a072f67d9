/** writeSparseFile: runs of zero bytes are skipped over instead of written. */
module SparseCopy {
  import opened Model

  /** An open file: its bytes and the position of the next write. */
  class OpenFile {
    var data: seq<byte>
    var offset: nat

    /** A new or truncated file. */
    constructor ()
      ensures data == [] && offset == 0
    {
      data, offset := [], 0;
    }

    /** Write at the position; a gap before it reads as zeros. */
    method Write(chunk: seq<byte>) returns (ok: bool)
      modifies this
      ensures ok ==> data == Put(old(data), old(offset), chunk) && offset == old(offset) + |chunk|
    {
      ok := *;
      if ok {
        data, offset := Put(data, offset, chunk), offset + |chunk|;
      }
    }

    /** lseek forward from the current position: the file itself stays. */
    method Seek(count: nat) returns (ok: bool)
      modifies this`offset
      ensures ok ==> offset == old(offset) + count
    {
      ok := *;
      if ok {
        offset := offset + count;
      }
    }

    method Truncate(size: nat) returns (ok: bool)
      modifies this`data
      ensures ok ==> data == Resized(old(data), size)
    {
      ok := *;
      if ok {
        data := Resized(data, size);
      }
    }
  }

  function Zeros(n: nat): (z: seq<byte>)
    ensures |z| == n
  {
    seq(n, _ => 0)
  }

  function Resized(data: seq<byte>, size: nat): (r: seq<byte>)
    ensures |r| == size
  {
    if size <= |data| then data[..size] else data + Zeros(size - |data|)
  }

  function Put(data: seq<byte>, offset: nat, chunk: seq<byte>): seq<byte> {
    var end := offset + |chunk|;
    if |data| <= end then Resized(data, offset) + chunk else data[..offset] + chunk + data[end..]
  }

  function Concat(chunks: seq<seq<byte>>): seq<byte> {
    if chunks == [] then [] else Concat(chunks[..|chunks| - 1]) + chunks[|chunks| - 1]
  }

  method IsZeroChunk(chunk: seq<byte>) returns (zero: bool)
    ensures zero <==> chunk == Zeros(|chunk|)
  {
    var i := 0;
    while i < |chunk|
      invariant 0 <= i <= |chunk|
      invariant forall k :: 0 <= k < i ==> chunk[k] == 0
    {
      if chunk[i] != 0 {
        assert Zeros(|chunk|)[i] == 0;
        return false;
      }
      i := i + 1;
    }
    zero := true;
  }

  /** What is in the file so far, read up to the position, is what was read. */
  ghost predicate Written(data: seq<byte>, offset: nat, content: seq<byte>) {
    |data| <= offset == |content| && Resized(data, offset) == content
  }

  lemma ZerosSkipped(data: seq<byte>, offset: nat, content: seq<byte>, n: nat)
    requires Written(data, offset, content)
    ensures Written(data, offset + n, content + Zeros(n))
  {
    assert Zeros(offset - |data|) + Zeros(n) == Zeros(offset + n - |data|);
  }

  lemma ChunkWritten(data: seq<byte>, offset: nat, content: seq<byte>, chunk: seq<byte>)
    requires Written(data, offset, content)
    ensures Written(Put(data, offset, chunk), offset + |chunk|, content + chunk)
  {
    if |data| > offset + |chunk| {
    } else {
      var put := Put(data, offset, chunk);
      assert put == content + chunk && put[..offset + |chunk|] == put;
    }
  }

  lemma OneMoreChunk(chunks: seq<seq<byte>>, i: nat)
    requires i < |chunks|
    ensures Concat(chunks[..i + 1]) == Concat(chunks[..i]) + chunks[i]
  {
    assert chunks[..i + 1][..i] == chunks[..i];
  }

  /** The copying loop, over the chunks a reader happens to deliver. */
  method WriteSparse(file: OpenFile, chunks: seq<seq<byte>>) returns (ok: bool, size: nat)
    requires file.data == [] && file.offset == 0
    modifies file
    ensures ok ==> size == |Concat(chunks)| && Written(file.data, size, Concat(chunks)) && file.offset == size
  {
    hide Resized, Put;
    ok, size := true, 0;
    NothingWritten();
    var i := 0;
    while i < |chunks| && ok
      invariant 0 <= i <= |chunks|
      invariant ok ==> Written(file.data, file.offset, Concat(chunks[..i])) && size == file.offset
    {
      var chunk := chunks[i];
      var zero := IsZeroChunk(chunk);
      OneMoreChunk(chunks, i);
      if zero {
        ZerosSkipped(file.data, file.offset, Concat(chunks[..i]), |chunk|);
        ok := file.Seek(|chunk|);
      } else {
        ChunkWritten(file.data, file.offset, Concat(chunks[..i]), chunk);
        ok := file.Write(chunk);
      }
      size := size + |chunk|;
      i := i + 1;
    }
    assert chunks[..i] == chunks || !ok;
  }

  lemma NothingWritten()
    ensures Written([], 0, Concat([]))
  {
  }

  /** Sparse copy refines plain copy: however the source is split into reads, the
      truncated target holds exactly its bytes. */
  method CopySparse(source: seq<byte>, chunks: seq<seq<byte>>) returns (ok: bool, file: OpenFile)
    requires Concat(chunks) == source
    ensures fresh(file)
    ensures ok ==> file.data == source
  {
    file := new OpenFile();
    var size;
    ok, size := WriteSparse(file, chunks);
    if ok {
      ok := file.Truncate(size);
    }
  }
}
