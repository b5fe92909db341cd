/**
 * org.rootservices...servlet.async.ReadListenerImpl.byteArrayToQueue: cuts
 * the response payload into chunks for the asynchronous writer. The queue is
 * a sequence of byte strings in the order they are added.
 */
module ReadListener {
  import opened Common

  /** The size the listener's only caller passes. */
  const CHUNK_SIZE := 1024

  function Min(a: int, b: int): int {
    if a <= b then a else b
  }

  /** The chunks of s: consecutive pieces of chunkSize bytes, the last one possibly shorter. */
  function Chunks(s: seq<Byte>, chunkSize: int): seq<seq<Byte>>
    requires chunkSize > 0
    decreases |s|
  {
    if |s| == 0 then []
    else
      var end := Min(|s|, chunkSize);
      [s[..end]] + Chunks(s[end..], chunkSize)
  }

  function Concat(chunks: seq<seq<Byte>>): seq<Byte> {
    if |chunks| == 0 then [] else chunks[0] + Concat(chunks[1..])
  }

  /** Putting the chunks back together in order gives the source. */
  lemma {:induction false} ChunksConcatenate(s: seq<Byte>, chunkSize: int)
    requires chunkSize > 0
    ensures Concat(Chunks(s, chunkSize)) == s
    decreases |s|
  {
    if |s| > 0 {
      var end := Min(|s|, chunkSize);
      ChunksConcatenate(s[end..], chunkSize);
      var chunks := Chunks(s, chunkSize);
      assert chunks[0] == s[..end];
      assert chunks[1..] == Chunks(s[end..], chunkSize);
      assert s[..end] + s[end..] == s;
    }
  }

  /** Every chunk holds between one and chunkSize bytes, and every chunk but the last exactly chunkSize. */
  predicate WellSized(chunks: seq<seq<Byte>>, chunkSize: int) {
    && (forall i :: 0 <= i < |chunks| ==> 0 < |chunks[i]| <= chunkSize)
    && (forall i :: 0 <= i < |chunks| - 1 ==> |chunks[i]| == chunkSize)
  }

  lemma {:induction false} ChunkSizes(s: seq<Byte>, chunkSize: int)
    requires chunkSize > 0
    ensures WellSized(Chunks(s, chunkSize), chunkSize)
    decreases |s|
  {
    if |s| > 0 {
      var end := Min(|s|, chunkSize);
      var rest := Chunks(s[end..], chunkSize);
      ChunkSizes(s[end..], chunkSize);
      var chunks := Chunks(s, chunkSize);
      assert chunks == [s[..end]] + rest;
      assert |chunks[0]| == end;
      forall i | 0 <= i < |chunks|
        ensures 0 < |chunks[i]| <= chunkSize
      {
        if i > 0 {
          assert chunks[i] == rest[i - 1];
          assert 0 < |rest[i - 1]| <= chunkSize;
        }
      }
      forall i | 0 <= i < |chunks| - 1
        ensures |chunks[i]| == chunkSize
      {
        if i > 0 {
          assert chunks[i] == rest[i - 1];
          assert |rest[i - 1]| == chunkSize;
        } else {
          assert |rest| > 0;
        }
      }
    }
  }

  /**
   * There are ceil(|s| / chunkSize) chunks: the fewest whose combined
   * capacity holds s, so one fewer chunk would not.
   */
  lemma {:induction false} ChunkCount(s: seq<Byte>, chunkSize: int)
    requires chunkSize > 0
    ensures var n := |Chunks(s, chunkSize)|;
      (n - 1) * chunkSize < |s| <= n * chunkSize
    decreases |s|
  {
    var n := |Chunks(s, chunkSize)|;
    if |s| == 0 {
      assert n == 0;
    } else if |s| <= chunkSize {
      assert Chunks(s[|s|..], chunkSize) == [];
      assert n == 1;
    } else {
      var m := |Chunks(s[chunkSize..], chunkSize)|;
      ChunkCount(s[chunkSize..], chunkSize);
      assert n == m + 1;
      assert (n - 1) * chunkSize == m * chunkSize;
      assert n * chunkSize == m * chunkSize + chunkSize;
      assert (m - 1) * chunkSize == m * chunkSize - chunkSize;
    }
  }

  /** An empty payload gives an empty queue. */
  lemma EmptyPayloadHasNoChunks(chunkSize: int)
    requires chunkSize > 0
    ensures Chunks([], chunkSize) == []
  {
  }

  /** One step of the cutting: the chunks from start on are one chunk followed by the chunks from its end on. */
  lemma ChunksFrom(s: seq<Byte>, start: int, chunkSize: int)
    requires chunkSize > 0 && 0 <= start < |s|
    ensures Chunks(s[start..], chunkSize) == [s[start..Min(|s|, start + chunkSize)]] + Chunks(s[Min(|s|, start + chunkSize)..], chunkSize)
  {
    var end := Min(|s|, start + chunkSize);
    assert s[start..][..end - start] == s[start..end];
    assert s[start..][end - start..] == s[end..];
  }

  /**
   * The queue of chunks, cut as the listener does but with the end of each
   * chunk computed without 32-bit overflow (see ChunkEndAsWritten). The
   * source array is only read.
   */
  method ByteArrayToQueue(source: array<Byte>, chunkSize: int) returns (out: seq<seq<Byte>>)
    requires chunkSize > 0
    ensures out == Chunks(source[..], chunkSize)
  {
    out := [];
    var start := 0;
    while start < source.Length
      invariant 0 <= start
      invariant out + Chunks(source[Min(start, source.Length)..], chunkSize) == Chunks(source[..], chunkSize)
      decreases source.Length - start
    {
      var end := ChunkEnd(source.Length, start, chunkSize);
      ChunksFrom(source[..], start, chunkSize);
      assert source[..][start..end] == source[start..end];
      out := out + [source[start..end]];
      start := start + chunkSize;
      assert Min(start, source.Length) == end;
    }
    assert source[source.Length..] == [];
  }

  // ------------------------------------------------------------ 32-bit ints

  const INT_MAX := 0x7fff_ffff

  /** Java int addition: wraps around modulo 2^32 into [-2^31, 2^31). */
  function AddInt32(a: int, b: int): int {
    var sum := (a + b) % 0x1_0000_0000;
    if sum > INT_MAX then sum - 0x1_0000_0000 else sum
  }

  /** The end of a chunk as written: Math.min(length, start + chunksize) in int arithmetic. */
  function ChunkEndAsWritten(length: int, start: int, chunkSize: int): int {
    Min(length, AddInt32(start, chunkSize))
  }

  /** The end of a chunk as intended: start plus chunkSize, but not beyond the array. */
  function ChunkEnd(length: int, start: int, chunkSize: int): (end: int)
    requires 0 <= start < length && chunkSize > 0
    ensures start < end <= length && end - start <= chunkSize
    ensures end == length || end - start == chunkSize
  {
    if chunkSize < length - start then start + chunkSize else length
  }

  /**
   * Within int range the two agree; the corrected form never leaves int
   * range, since it never exceeds the array length.
   */
  lemma ChunkEndAgreesWithoutOverflow(length: int, start: int, chunkSize: int)
    requires 0 <= start < length <= INT_MAX && 0 < chunkSize && start + chunkSize <= INT_MAX
    ensures ChunkEndAsWritten(length, start, chunkSize) == ChunkEnd(length, start, chunkSize)
  {
  }

  /**
   * A payload of 2^31 - 1000 bytes, cut in chunks of 1024: the last chunk
   * starts at 2^31 - 1024, where start + chunksize wraps to -2^31, so the
   * written end falls before the start. Where Arrays.copyOfRange tests
   * from > to, it throws IllegalArgumentException there. Where it only tests
   * the wrapped length to - from (1024) for being negative (JDK 8), the
   * chunk is copied, but start += chunksize wraps to -2^31 as well, which is
   * still below the length, so the loop runs once more: copyOfRange is then
   * called with a negative from, and its copy length, length - from, wraps
   * to -1000, so System.arraycopy throws ArrayIndexOutOfBoundsException.
   * Either way no queue is returned. The intended last chunk is the 24
   * remaining bytes, and then the loop ends.
   */
  lemma ChunkEndOverflowsNearIntMax()
    ensures var length, start := 0x8000_0000 - 1000, 0x8000_0000 - 1024;
      var end := ChunkEndAsWritten(length, start, CHUNK_SIZE);
      && start < length && start % CHUNK_SIZE == 0
      && end < start
      && AddInt32(end, -start) == CHUNK_SIZE
      && AddInt32(start, CHUNK_SIZE) == -0x8000_0000
      && AddInt32(start, CHUNK_SIZE) < length
      && AddInt32(length, 0x8000_0000) == -1000
      && ChunkEnd(length, start, CHUNK_SIZE) - start == 24
  {
  }
}
