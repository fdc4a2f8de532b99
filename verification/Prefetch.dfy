/** Chunk arithmetic of the prefetching reader and its copy loop.

    The underlying reader is a byte sequence that returns short only at its end. */
module Prefetch {
  import opened Basics

  datatype Config = Config(
    data: seq<byte>,      // what the underlying reader serves
    size: int,            // the size given to New; negative when unknown
    chunkSize: nat,
    windowSize: nat,
    maxParallelReads: nat,
    maxRetries: nat)

  ghost predicate ValidConfig(cfg: Config) {
    && 0 < cfg.chunkSize <= cfg.windowSize
    && 0 < cfg.maxParallelReads
    && (cfg.size >= 0 ==> cfg.size == |cfg.data|)
  }

  const DEFAULT_WINDOW: nat := 1048576
  const DEFAULT_CHUNK: nat := 65536
  const DEFAULT_PARALLEL: nat := 4
  const DEFAULT_RETRIES: nat := 3

  /** The defaulting done by `New`: every numeric configuration becomes a usable one, each usable setting is
      kept whatever the others are, and the window is widened to one chunk only when it is smaller. */
  function Normalize(data: seq<byte>, size: int, window: int, chunk: int, parallel: int, retries: int): (cfg: Config)
    requires size >= 0 ==> size == |data|
    ensures ValidConfig(cfg)
    ensures cfg.data == data && cfg.size == size
    ensures chunk > 0 ==> cfg.chunkSize == chunk
    ensures window >= cfg.chunkSize ==> cfg.windowSize == window
    ensures 0 < window < cfg.chunkSize ==> cfg.windowSize == cfg.chunkSize
    ensures parallel > 0 ==> cfg.maxParallelReads == parallel
    ensures retries >= 0 ==> cfg.maxRetries == retries
    ensures window <= 0 && chunk <= 0 && parallel <= 0 && retries < 0 ==>
              cfg == Config(data, size, 64 * 1024, 1024 * 1024, 4, 3)
  {
    var w: nat := if window <= 0 then DEFAULT_WINDOW else window;
    var c: nat := if chunk <= 0 then DEFAULT_CHUNK else chunk;
    Config(data, size, c, if w < c then c else w,
           if parallel <= 0 then DEFAULT_PARALLEL else parallel,
           if retries < 0 then DEFAULT_RETRIES else retries)
  }

  datatype Err = NoErr | EOF | OutOfRange | FetchFailed | PrefetcherClosed

  datatype Request = Request(off: int, len: nat)

  /** `validateRead`: an error, or `NoErr` when the read may go on. */
  function ValidateRead(cfg: Config, req: Request): Err {
    if req.off < 0 then OutOfRange
    else if req.len == 0 then NoErr
    else if cfg.size == 0 then EOF
    else if cfg.size > 0 && req.off >= cfg.size then OutOfRange
    else NoErr
  }

  predicate Proceeds(cfg: Config, req: Request) {
    ValidateRead(cfg, req) == NoErr && req.len != 0
  }

  function StartChunk(cfg: Config, req: Request): nat
    requires cfg.chunkSize > 0 && req.off >= 0
  {
    req.off / cfg.chunkSize
  }

  function EndChunk(cfg: Config, req: Request): nat
    requires cfg.chunkSize > 0 && req.off >= 0 && req.len > 0
  {
    (req.off + req.len - 1) / cfg.chunkSize
  }

  /** The read that runs past the end inside one chunk, answered with `(0, EOF)`. */
  predicate Overruns(cfg: Config, req: Request)
    requires cfg.chunkSize > 0 && req.off >= 0 && req.len > 0
  {
    cfg.size > 0 && req.off + req.len > cfg.size && StartChunk(cfg, req) == EndChunk(cfg, req)
  }

  function WindowEnd(cfg: Config, start: nat): int
    requires cfg.chunkSize > 0
  {
    var chunks := (cfg.windowSize + cfg.chunkSize - 1) / cfg.chunkSize;
    var end := start + (if chunks < 1 then 1 else chunks) - 1;
    if cfg.size > 0 then Min(end, (cfg.size - 1) / cfg.chunkSize) else end
  }

  function ReadAheadLimit(cfg: Config): nat
    requires cfg.chunkSize > 0
  {
    Min(1000, cfg.windowSize / cfg.chunkSize)
  }

  // ---- what a read must return ----

  /** The bytes of a chunk: short or empty only at the end of the data. */
  function ChunkData(cfg: Config, index: nat): (s: seq<byte>)
    ensures |s| <= cfg.chunkSize
  {
    DataFrom(cfg.data, index * cfg.chunkSize, cfg.chunkSize)
  }

  /** At most `count` bytes of `data` from position `base` on. */
  function DataFrom(data: seq<byte>, base: nat, count: nat): (s: seq<byte>)
    ensures |s| <= count
  {
    data[Min(base, |data|)..Min(base + count, |data|)]
  }

  /** Number of bytes a plain read at `off` would deliver. */
  function Deliverable(cfg: Config, req: Request): nat
    requires req.off >= 0
  {
    if req.off >= |cfg.data| then 0 else Min(req.len, |cfg.data| - req.off)
  }

  /** Length and error of a read in which no fetch fails. */
  function ReadSpec(cfg: Config, req: Request): (nat, Err)
    requires cfg.chunkSize > 0
  {
    if !Proceeds(cfg, req) then (0, ValidateRead(cfg, req))
    else if Overruns(cfg, req) then (0, EOF)
    else
      var n := Deliverable(cfg, req);
      (n, if cfg.size > 0 && req.off + n >= cfg.size then EOF else NoErr)
  }

  /** The read asks for bytes at a place that may lie in the data. */
  ghost predicate Asks(cfg: Config, off: int, len: nat) {
    off >= 0 && len > 0 && (cfg.size < 0 || off < cfg.size)
  }

  /** The answer to a read of `len` bytes at `off` in which no fetch fails.  A read that runs past the end
      is cut there, unless it touches a single chunk: then it gets nothing. */
  ghost predicate Expected(cfg: Config, off: int, len: nat, n: nat, err: Err)
    requires cfg.chunkSize > 0
  {
    && (off < 0 ==> n == 0 && err == OutOfRange)
    && (off >= 0 && len == 0 ==> n == 0 && err == NoErr)
    && (off >= 0 && len > 0 && cfg.size == 0 ==> n == 0 && err == EOF)
    && (off >= cfg.size > 0 && len > 0 ==> n == 0 && err == OutOfRange)
    && (Asks(cfg, off, len) && cfg.size > 0 ==>
          if off + len > cfg.size && off / cfg.chunkSize == (off + len - 1) / cfg.chunkSize then n == 0 && err == EOF
          else n == Min(len, cfg.size - off) && err == if off + n == cfg.size then EOF else NoErr)
    && (Asks(cfg, off, len) && cfg.size < 0 ==>
          n == (if off < |cfg.data| then Min(len, |cfg.data| - off) else 0) && err == NoErr)
  }

  lemma ReadSpecIsExpected(cfg: Config, req: Request, n: nat, err: Err)
    requires ValidConfig(cfg)
    ensures Expected(cfg, req.off, req.len, n, err) <==> (n, err) == ReadSpec(cfg, req)
    ensures Asks(cfg, req.off, req.len) <==> Proceeds(cfg, req)
  {
  }

  /** `out` is what the data holds from `off` on. */
  predicate Matches(cfg: Config, off: int, out: seq<byte>) {
    out == [] || (0 <= off && off + |out| <= |cfg.data| && out == cfg.data[off..off + |out|])
  }

  // ---- the copy loop ----

  /** Where in chunk `index` the copy starts. */
  function ChunkOffset(cfg: Config, req: Request, index: nat): nat
    requires cfg.chunkSize > 0 && req.off >= 0
  {
    if index == StartChunk(cfg, req) then req.off % cfg.chunkSize else 0
  }

  /** How far the data is covered once every chunk below `index` has been copied. */
  function Covered(cfg: Config, req: Request, index: nat): int {
    CoveredUpTo(cfg.data, req.off, index * cfg.chunkSize)
  }

  function CoveredUpTo(data: seq<byte>, off: int, base: nat): int {
    var upTo := Min(base, |data|);
    if upTo < off then off else upTo
  }

  /** The state of the copy loop when it looks at chunk `index`. */
  ghost predicate CopyInv(cfg: Config, req: Request, index: nat, out: seq<byte>)
    requires cfg.chunkSize > 0 && Proceeds(cfg, req)
  {
    && StartChunk(cfg, req) <= index <= EndChunk(cfg, req) + 1
    && Matches(cfg, req.off, out)
    && |out| == Min(req.len, Covered(cfg, req, index) - req.off)
  }

  lemma CopyMatches(cfg: Config, req: Request, index: nat, out: seq<byte>)
    requires cfg.chunkSize > 0 && Proceeds(cfg, req) && CopyInv(cfg, req, index, out)
    ensures Matches(cfg, req.off, out) && |out| <= req.len
  {
  }

  /** One round of the copy loop on a chunk holding `content`: `None` leaves the loop. */
  function CopyRound(cfg: Config, req: Request, index: nat, out: seq<byte>, content: seq<byte>): Option<seq<byte>>
    requires cfg.chunkSize > 0 && req.off >= 0 && |out| <= req.len
  {
    var at := ChunkOffset(cfg, req, index);
    if |content| <= at then None
    else Some(out + content[at..at + Min(|content| - at, req.len - |out|)])
  }

  lemma ChunkBounds(cfg: Config, req: Request, index: nat)
    requires cfg.chunkSize > 0 && req.off >= 0 && req.len > 0
    ensures StartChunk(cfg, req) <= EndChunk(cfg, req)
    ensures StartChunk(cfg, req) * cfg.chunkSize <= req.off < StartChunk(cfg, req) * cfg.chunkSize + cfg.chunkSize
    ensures req.off == StartChunk(cfg, req) * cfg.chunkSize + req.off % cfg.chunkSize
    ensures index > StartChunk(cfg, req) ==> index * cfg.chunkSize > req.off
    ensures index > EndChunk(cfg, req) ==> index * cfg.chunkSize >= req.off + req.len
    ensures index <= EndChunk(cfg, req) ==> index * cfg.chunkSize < req.off + req.len
    ensures (index + 1) * cfg.chunkSize == index * cfg.chunkSize + cfg.chunkSize
  {
    var c := cfg.chunkSize;
    DivFacts(req.off, c);
    DivFacts(req.off + req.len - 1, c);
    DivMonotone(req.off, req.off + req.len - 1, c);
    MulCompare(index, StartChunk(cfg, req), c);
    MulCompare(index, EndChunk(cfg, req), c);
  }

  lemma DivFacts(x: nat, c: nat)
    requires c > 0
    ensures x == x / c * c + x % c && 0 <= x % c < c
  {
  }

  lemma DivMonotone(x: nat, y: nat, c: nat)
    requires c > 0 && x <= y
    ensures x / c <= y / c
  {
    if x / c > y / c {
      MulCompare(x / c, y / c, c);
    }
  }

  lemma {:induction false} MulMonotone(i: nat, j: nat, c: nat)
    requires i <= j
    ensures i * c <= j * c
    decreases j - i
  {
    if i < j {
      MulMonotone(i, j - 1, c);
      assert j * c == (j - 1) * c + c;
    }
  }

  lemma MulCompare(i: nat, j: nat, c: nat)
    ensures i > j ==> i * c >= j * c + c
    ensures i <= j ==> i * c <= j * c
    ensures (i + 1) * c == i * c + c
  {
    if i > j {
      MulMonotone(j + 1, i, c);
      assert (j + 1) * c == j * c + c;
    } else {
      MulMonotone(i, j, c);
    }
  }

  lemma CopyStarts(cfg: Config, req: Request)
    requires cfg.chunkSize > 0 && Proceeds(cfg, req)
    ensures CopyInv(cfg, req, StartChunk(cfg, req), [])
  {
    ChunkBounds(cfg, req, StartChunk(cfg, req));
  }

  /** A round keeps the loop state, and leaving early means that nothing is left to deliver. */
  lemma CopyRoundKeeps(cfg: Config, req: Request, index: nat, out: seq<byte>)
    requires cfg.chunkSize > 0 && Proceeds(cfg, req)
    requires CopyInv(cfg, req, index, out) && index <= EndChunk(cfg, req) && |out| < req.len
    ensures match CopyRound(cfg, req, index, out, ChunkData(cfg, index))
            case Some(more) => CopyInv(cfg, req, index + 1, more)
            case None => |out| == Deliverable(cfg, req)
  {
    hide StartChunk, EndChunk, DataFrom, CoveredUpTo, ChunkOffset, Covered, ChunkData;
    var base := ChunkBase(cfg, req, index);
    CopyExtends(cfg.data, req.off, req.len, base, cfg.chunkSize, ChunkOffset(cfg, req, index), out);
  }

  /** Where a round starts, without products. */
  lemma ChunkBase(cfg: Config, req: Request, index: nat) returns (base: nat)
    requires cfg.chunkSize > 0 && req.off >= 0 && req.len > 0 && StartChunk(cfg, req) <= index
    ensures ChunkData(cfg, index) == DataFrom(cfg.data, base, cfg.chunkSize)
    ensures Covered(cfg, req, index) == CoveredUpTo(cfg.data, req.off, base)
    ensures Covered(cfg, req, index + 1) == CoveredUpTo(cfg.data, req.off, base + cfg.chunkSize)
    ensures var at := ChunkOffset(cfg, req, index); if base <= req.off then req.off == base + at && at < cfg.chunkSize
        else at == 0
  {
    hide StartChunk, EndChunk, DataFrom, CoveredUpTo;
    ChunkBounds(cfg, req, index);
    base := index * cfg.chunkSize;
  }

  /** The byte-level content of a round: copying from the chunk at `base` extends `out`. */
  lemma CopyExtends(data: seq<byte>, off: nat, len: nat, base: nat, c: nat, at: nat, out: seq<byte>)
    requires c > 0 && |out| < len && |out| == Min(len, CoveredUpTo(data, off, base) - off)
    requires out == [] || (off + |out| <= |data| && out == data[off..off + |out|])
    requires if base <= off then off == base + at && at < c else at == 0
    ensures var content := DataFrom(data, base, c);
            if |content| <= at then |out| == if off >= |data| then 0 else Min(len, |data| - off)
            else
              var more := out + content[at..at + Min(|content| - at, len - |out|)];
              && |more| == Min(len, CoveredUpTo(data, off, base + c) - off)
              && off + |more| <= |data| && more == data[off..off + |more|]
  {
    var content := DataFrom(data, base, c);
    if |content| > at {
      var count := Min(|content| - at, len - |out|);
      var pos := off + |out|;
      assert base < |data| && pos == base + at;
      SliceOfSlice(data, base, base + |content|, at, at + count);
    }
  }

  lemma CopyEnds(cfg: Config, req: Request, index: nat, out: seq<byte>)
    requires cfg.chunkSize > 0 && Proceeds(cfg, req)
    requires CopyInv(cfg, req, index, out) && (index > EndChunk(cfg, req) || |out| >= req.len)
    ensures |out| == Deliverable(cfg, req)
  {
    ChunkBounds(cfg, req, index);
  }
}
