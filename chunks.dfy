/** Chunk planning (`analyze`, `_get_chunk_size_`) and the shape of chunk reads
    (`get_data`, `get_snippet`), circus/files/datafile.py:187-246. */
module Chunks {
  import opened Wrappers
  import opened Errors
  import opened Params

  /** `numpy.int64(a) // b`: floor division, and 0 when b is 0 (numpy warns and
      returns 0 instead of raising). */
  function FloorDiv(a: int, b: int): (q: int)
    ensures b > 0 ==> q * b <= a < q * b + b
    ensures b < 0 ==> q * b >= a > q * b + b
    ensures b == 0 ==> q == 0
  {
    if b == 0 then 0
    else if b > 0 then a / b
    else (-a) / (-b)
  }

  /** `_get_chunk_size_`: the explicit size, else `[data] chunk_size`. */
  function ChunkSize(cfg: Config, chunkSize: Option<int>): Result<int, Error> {
    if chunkSize.None? then GetInt(cfg, "data", "chunk_size") else Success(chunkSize.value)
  }

  /** The body of `analyze` for `shape0` time samples: the number of chunks, counting
      an incomplete last one, and the length of that incomplete chunk. */
  function ChunkPlan(shape0: int, chunkSize: int): (int, int) {
    var whole := FloorDiv(shape0, chunkSize);
    var last := shape0 - whole * chunkSize;
    if last > 0 then (whole + 1, last) else (whole, last)
  }

  /** For a positive chunk size the chunks cover the samples, none of them is
      superfluous, and the last-chunk length is the remainder. */
  lemma ChunkPlanCovers(shape0: int, chunkSize: int)
    requires chunkSize > 0
    ensures var (n, last) := ChunkPlan(shape0, chunkSize);
            && last == shape0 % chunkSize
            && n == shape0 / chunkSize + (if last > 0 then 1 else 0)
            && n * chunkSize >= shape0
            && (shape0 > 0 ==> (n - 1) * chunkSize < shape0)
            && 0 <= last < chunkSize
            && (last > 0 ==> last == shape0 - (n - 1) * chunkSize)
  {
  }

  /** The full chunks and the last one add up to exactly the recording. */
  lemma ChunkPlanExact(shape0: int, chunkSize: int)
    requires chunkSize > 0 && shape0 > 0
    ensures var (n, last) := ChunkPlan(shape0, chunkSize);
            n >= 1 && (n - 1) * chunkSize + (if last > 0 then last else chunkSize) == shape0
  {
  }

  /** A chunk size of 0 yields one chunk holding the whole recording. */
  lemma ChunkPlanZeroSize(shape0: int)
    requires shape0 > 0
    ensures ChunkPlan(shape0, 0) == (1, shape0)
  {
  }

  lemma ChunkPlanExamples()
    ensures ChunkPlan(1000, 300) == (4, 100)
    ensures ChunkPlan(900, 300) == (3, 0)
  {
  }

  /** The arguments of one `get_data(idx, chunk_size, padding, nodes)` call. */
  datatype DataRead = DataRead(idx: int, chunkSize: Option<int>, padding: (int, int), nodes: Option<seq<int>>)

  /** The time samples `[start, stop)` a chunk read covers: chunk `idx` of
      `chunkSize` samples with the padding offsets added to its two ends. */
  function ReadSpan(idx: int, chunkSize: int, padding: (int, int)): (int, int) {
    (idx * chunkSize + padding.0, (idx + 1) * chunkSize + padding.1)
  }

  /** `get_snippet(time, length, nodes)`: the `get_data` call it makes. */
  function GetSnippet(time: int, length: int, nodes: Option<seq<int>>): (q: DataRead)
    ensures q == DataRead(0, Some(length), (time, time), nodes)
    ensures ReadSpan(q.idx, q.chunkSize.value, q.padding) == (time, time + length)
    ensures q.nodes == nodes
  {
    DataRead(0, Some(length), (time, time), nodes)
  }

  /** With a positive chunk size, every sample of the recording lies in the unpadded
      span of exactly one of the chunks `analyze` counts: chunk `t / chunkSize`. */
  lemma ChunkReadsCover(shape0: int, chunkSize: int, t: int)
    requires chunkSize > 0 && 0 <= t < shape0
    ensures var idx := t / chunkSize;
            && 0 <= idx < ChunkPlan(shape0, chunkSize).0
            && ReadSpan(idx, chunkSize, (0, 0)).0 <= t < ReadSpan(idx, chunkSize, (0, 0)).1
    ensures forall j :: ReadSpan(j, chunkSize, (0, 0)).0 <= t < ReadSpan(j, chunkSize, (0, 0)).1 ==> j == t / chunkSize
  {
    var idx := t / chunkSize;
    DivBounds(t, chunkSize);
    SpanUnpadded(idx, chunkSize);
    var n := ChunkPlan(shape0, chunkSize).0;
    assert n * chunkSize >= shape0 by {
      ChunkPlanCovers(shape0, chunkSize);
    }
    if idx >= n {
      MulMonotone(n, idx, chunkSize);
      assert false;
    }
    forall j | ReadSpan(j, chunkSize, (0, 0)).0 <= t < ReadSpan(j, chunkSize, (0, 0)).1
      ensures j == idx
    {
      SpanUnpadded(j, chunkSize);
      if j < idx {
        MulMonotone(j + 1, idx, chunkSize);
      } else if j > idx {
        MulMonotone(idx + 1, j, chunkSize);
      }
    }
  }

  /** The last chunk `analyze` counts starts inside the recording and reaches its end;
      the part of it inside the recording is `last` samples long when `last > 0` and a
      whole chunk otherwise. */
  lemma LastChunkRead(shape0: int, chunkSize: int)
    requires chunkSize > 0 && shape0 > 0
    ensures var (n, last) := ChunkPlan(shape0, chunkSize);
            var (start, stop) := ReadSpan(n - 1, chunkSize, (0, 0));
            && 0 <= start < shape0 <= stop
            && shape0 - start == (if last > 0 then last else chunkSize)
  {
  }

  lemma DivBounds(t: int, c: int)
    requires c > 0
    ensures (t / c) * c <= t < (t / c) * c + c
  {
  }

  lemma SpanUnpadded(j: int, c: int)
    ensures ReadSpan(j, c, (0, 0)) == (j * c, j * c + c)
  {
  }

  lemma MulMonotone(a: int, b: int, c: int)
    requires a <= b && c > 0
    ensures a * c <= b * c
  {
  }
}
