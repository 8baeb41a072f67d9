/** Range reads and writes of a file's content, in the daemon's int64 arithmetic. */
module RangeIO {
  import opened Wrappers
  import opened Text
  import opened Model

  type Int64 = x: int | -MAX_INT64 - 1 <= x <= MAX_INT64

  /** Go's int64 addition. */
  function Add64(a: Int64, b: Int64): Int64 {
    var sum: int := a + b;
    if sum > MAX_INT64 then sum - 2 * (MAX_INT64 + 1)
    else if sum < -MAX_INT64 - 1 then sum + 2 * (MAX_INT64 + 1)
    else sum
  }

  /** A Go slice: its length fits an int. */
  type Bytes = s: seq<byte> | |s| <= MAX_INT64

  datatype ReadOutcome = Read(data: seq<byte>) | Refused | OutOfBounds

  /** applyReadRange, with the slice expression's own bounds check. */
  function ApplyReadRange(payload: Bytes, offset: Int64, length: Int64): ReadOutcome {
    if offset < 0 then Refused
    else if length < 0 then Refused
    else if offset >= |payload| then Read([])
    else if length == 0 then Read([])
    else
      var end := Add64(offset, length);
      var cut := if end > |payload| then |payload| else end;
      if offset <= cut <= |payload| then Read(payload[offset..cut]) else OutOfBounds
  }

  /** The bytes of the range that exist, unless the end of the range is beyond
      the largest int64 while its start is inside the file. */
  lemma ReadRangeLaw(payload: Bytes, offset: Int64, length: Int64)
    ensures ApplyReadRange(payload, offset, length).Refused? <==> offset < 0 || length < 0
    ensures ApplyReadRange(payload, offset, length).OutOfBounds? <==>
              0 <= offset < |payload| && length > 0 && offset + length > MAX_INT64
    ensures ApplyReadRange(payload, offset, length).Read? ==>
              ApplyReadRange(payload, offset, length).data ==
              if offset >= |payload| then []
              else if offset + length <= |payload| then payload[offset..offset + length] else payload[offset..]
  {
    if 0 <= offset < |payload| && length == 0 {
      assert payload[offset..offset] == [];
    }
  }

  /** What a write does to the content: the gap before it is filled with zeros. */
  predicate IsOverwritten(before: seq<byte>, offset: nat, chunk: seq<byte>, after: seq<byte>) {
    && |after| == (if |before| >= offset + |chunk| then |before| else offset + |chunk|)
    && (forall i :: 0 <= i < |after| ==>
          after[i] == if offset <= i < offset + |chunk| then chunk[i - offset]
                      else if i < |before| then before[i] else 0)
  }

  /** applyWriteRange: a fresh buffer, the old content, then the chunk. */
  method ApplyWriteRange(existing: Bytes, offset: Int64, chunk: Bytes) returns (r: Result<seq<byte>>)
    ensures r.Err? <==> offset < 0 || offset + |chunk| > MAX_INT64
    ensures r.Ok? ==> IsOverwritten(existing, offset, chunk, r.value)
  {
    if offset < 0 {
      return Err("offset must be non-negative");
    }
    var required := Add64(offset, |chunk|);
    if required < 0 {
      return Err("range write exceeds supported size");
    }
    var size := if |existing| < required then required else |existing|;
    var buffer := new byte[size](_ => 0);
    var i := 0;
    while i < |existing|
      invariant 0 <= i <= |existing|
      invariant forall k :: 0 <= k < size ==> buffer[k] == if k < i then existing[k] else 0
    {
      buffer[i] := existing[i];
      i := i + 1;
    }
    i := 0;
    while i < |chunk|
      invariant 0 <= i <= |chunk|
      invariant forall k :: 0 <= k < size ==>
                  buffer[k] == if offset <= k < offset + i then chunk[k - offset] else if k < |existing| then existing[k] else 0
    {
      buffer[offset + i] := chunk[i];
      i := i + 1;
    }
    r := Ok(buffer[..]);
  }

  /** Reading the written range gives the chunk back, and bytes outside it are
      what they were. */
  lemma ReadAfterWrite(before: Bytes, offset: Int64, chunk: Bytes, after: Bytes)
    requires offset >= 0 && offset + |chunk| <= MAX_INT64 && IsOverwritten(before, offset, chunk, after)
    ensures ApplyReadRange(after, offset, |chunk|) == Read(chunk)
    ensures |after| >= |before| && after[..if offset <= |before| then offset else |before|]
                                   == before[..if offset <= |before| then offset else |before|]
    ensures offset + |chunk| <= |before| ==> after[offset + |chunk|..] == before[offset + |chunk|..]
  {
    ReadRangeLaw(after, offset, |chunk|);
    assert after[offset..offset + |chunk|] == chunk;
  }

  /** Two writes that do not touch the same bytes commute. */
  lemma DisjointWritesCommute(before: seq<byte>, a: nat, x: seq<byte>, b: nat, y: seq<byte>,
                              first: seq<byte>, both: seq<byte>, second: seq<byte>, other: seq<byte>)
    requires a + |x| <= b || b + |y| <= a
    requires IsOverwritten(before, a, x, first) && IsOverwritten(first, b, y, both)
    requires IsOverwritten(before, b, y, second) && IsOverwritten(second, a, x, other)
    ensures both == other
  {
  }
}
