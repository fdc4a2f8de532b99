/** The loops of the prefetching reader that run inside one goroutine.  What the shared cache
    answers at each step is a parameter; the concurrent runs that produce those answers are in
    `PrefetchRuns`. */
module PrefetchLoops {
  import opened Basics
  import opened Prefetch

  /** The result of one `getChunk`. */
  datatype Fetched = Got(content: seq<byte>) | Failed

  /** One answer for each chunk of the request. */
  ghost predicate Answers(cfg: Config, req: Request, supply: seq<Fetched>)
    requires cfg.chunkSize > 0 && Proceeds(cfg, req)
  {
    StartChunk(cfg, req) + |supply| == EndChunk(cfg, req) + 1
  }

  /** Every delivered chunk is the right one. */
  ghost predicate Supplies(cfg: Config, req: Request, supply: seq<Fetched>)
    requires cfg.chunkSize > 0 && Proceeds(cfg, req)
  {
    && Answers(cfg, req, supply)
    && forall k | 0 <= k < |supply| && supply[k].Got? ::
         supply[k].content == ChunkData(cfg, StartChunk(cfg, req) + k)
  }

  /** What the copy loop makes of the answers from the `k`-th on, whatever the chunks hold. */
  function CopyFrom(cfg: Config, req: Request, supply: seq<Fetched>, k: nat, out: seq<byte>): (r: (seq<byte>, Err))
    requires cfg.chunkSize > 0 && Proceeds(cfg, req) && k <= |supply| && |out| <= req.len
    ensures out <= r.0 && |r.0| <= req.len && (r.1 == NoErr || (r.1 == FetchFailed && Failed in supply))
    decreases |supply| - k
  {
    if k == |supply| || |out| == req.len then (out, NoErr)
    else
      match supply[k]
      case Failed => (out, FetchFailed)
      case Got(content) =>
        match CopyRound(cfg, req, StartChunk(cfg, req) + k, out, content)
        case None => (out, NoErr)
        case Some(more) => CopyFrom(cfg, req, supply, k + 1, more)
  }

  /** One round of the loop. */
  lemma CopyFromRound(cfg: Config, req: Request, supply: seq<Fetched>, k: nat, out: seq<byte>, at: nat)
    requires cfg.chunkSize > 0 && Proceeds(cfg, req) && k < |supply| && |out| < req.len
    requires at == ChunkOffset(cfg, req, StartChunk(cfg, req) + k)
    ensures CopyFrom(cfg, req, supply, k, out) ==
            match supply[k]
            case Failed => (out, FetchFailed)
            case Got(content) =>
              if |content| <= at then (out, NoErr)
              else CopyFrom(cfg, req, supply, k + 1, out + content[at..at + Min(|content| - at, req.len - |out|)])
  {
    hide StartChunk;
  }

  /** From the right chunks the loop delivers the file's bytes, and all of them unless a fetch fails. */
  lemma {:induction false} CopyFromDelivers(cfg: Config, req: Request, supply: seq<Fetched>, k: nat, out: seq<byte>)
    requires cfg.chunkSize > 0 && Proceeds(cfg, req) && k <= |supply| && |out| <= req.len
    requires Supplies(cfg, req, supply) && CopyInv(cfg, req, StartChunk(cfg, req) + k, out)
    ensures var (bytes, err) := CopyFrom(cfg, req, supply, k, out);
            Matches(cfg, req.off, bytes) && (err == NoErr ==> |bytes| == Deliverable(cfg, req))
    decreases |supply| - k
  {
    hide StartChunk, EndChunk, ChunkData, Deliverable, CopyInv, Matches, CopyRound;
    var index := StartChunk(cfg, req) + k;
    CopyMatches(cfg, req, index, out);
    if k == |supply| || |out| == req.len {
      CopyEnds(cfg, req, index, out);
    } else if supply[k].Got? {
      CopyRoundKeeps(cfg, req, index, out);
      var round := CopyRound(cfg, req, index, out, supply[k].content);
      if round.Some? {
        CopyMatches(cfg, req, index + 1, round.value);
        CopyFromDelivers(cfg, req, supply, k + 1, round.value);
      }
    }
  }

  method CopyInto(buffer: array<byte>, at: nat, bytes: seq<byte>)
    requires at + |bytes| <= buffer.Length
    modifies buffer
    ensures buffer[..at + |bytes|] == old(buffer[..at]) + bytes
    ensures buffer[at + |bytes|..] == old(buffer[at + |bytes|..])
  {
    forall k | 0 <= k < |bytes| {
      buffer[at + k] := bytes[k];
    }
  }

  /** `copyChunks`: the buffer gets what the answers make of it, and nothing else. */
  method CopyChunks(cfg: Config, buffer: array<byte>, req: Request, supply: seq<Fetched>) returns (n: nat, err: Err)
    requires cfg.chunkSize > 0 && Proceeds(cfg, req) && buffer.Length == req.len
    requires Answers(cfg, req, supply)
    modifies buffer
    ensures n <= buffer.Length && (buffer[..n], err) == CopyFrom(cfg, req, supply, 0, [])
    ensures buffer[n..] == old(buffer[n..])
    ensures Supplies(cfg, req, supply) ==>
              Matches(cfg, req.off, buffer[..n]) && (err == NoErr ==> n == Deliverable(cfg, req))
  {
    hide StartChunk, EndChunk, ChunkData, Deliverable, Matches, CopyFrom, ChunkOffset;
    if Supplies(cfg, req, supply) {
      CopyStarts(cfg, req);
      CopyFromDelivers(cfg, req, supply, 0, []);
    }
    n, err := 0, NoErr;
    var first, last := StartChunk(cfg, req), EndChunk(cfg, req);
    var index := first;
    assert buffer[..0] == [];
    while index <= last && n < buffer.Length
      invariant first <= index <= last + 1 && n <= buffer.Length
      invariant CopyFrom(cfg, req, supply, index - first, buffer[..n]) == CopyFrom(cfg, req, supply, 0, [])
      invariant buffer[n..] == old(buffer[n..])
    {
      var at := ChunkOffset(cfg, req, index);
      CopyFromRound(cfg, req, supply, index - first, buffer[..n], at);
      if supply[index - first].Failed? {
        err := FetchFailed;
        return;
      }
      var content := supply[index - first].content;
      if |content| <= at {
        return;
      }
      var count := Min(|content| - at, buffer.Length - n);
      ghost var rest := buffer[n..];
      CopyInto(buffer, n, content[at..at + count]);
      assert buffer[n + count..] == rest[count..];
      n := n + count;
      index := index + 1;
    }
    CopyFromEnds(cfg, req, supply, index - first, buffer[..n]);
  }

  lemma CopyFromEnds(cfg: Config, req: Request, supply: seq<Fetched>, k: nat, out: seq<byte>)
    requires cfg.chunkSize > 0 && Proceeds(cfg, req) && k <= |supply| && |out| <= req.len
    requires k == |supply| || |out| == req.len
    ensures CopyFrom(cfg, req, supply, k, out) == (out, NoErr)
  {
  }

  /** `ReadAt` inside one goroutine: from the right chunks the bytes delivered are right on every
      outcome, and the outcome is the specified one unless a fetch fails. */
  method ReadAt(cfg: Config, closed: bool, buffer: array<byte>, off: int, supply: seq<Fetched>)
    returns (n: nat, err: Err)
    requires ValidConfig(cfg)
    requires Asks(cfg, off, buffer.Length) ==> Answers(cfg, Request(off, buffer.Length), supply)
    modifies buffer
    ensures n <= buffer.Length && buffer[n..] == old(buffer[n..])
    ensures closed ==> (n, err) == (0, PrefetcherClosed)
    ensures err == FetchFailed ==> Failed in supply
    ensures !closed && (Asks(cfg, off, buffer.Length) ==> Supplies(cfg, Request(off, buffer.Length), supply)) ==>
              Matches(cfg, off, buffer[..n]) && (err == FetchFailed || Expected(cfg, off, buffer.Length, n, err))
  {
    var req := Request(off, buffer.Length);
    n := 0;
    assert buffer[..0] == [];
    if closed {
      err := PrefetcherClosed;
      return;
    }
    err := ValidateRead(cfg, req);
    if err != NoErr || buffer.Length == 0 {
      return;
    }
    if Overruns(cfg, req) {
      err := EOF;
      return;
    }
    n, err := CopyChunks(cfg, buffer, req, supply);
    if err == NoErr && cfg.size > 0 && off + n >= cfg.size {
      err := EOF;
    }
  }

  // ---- read-ahead ----

  /** The chunks in `first..last` that are absent, at most `limit` of them, in order. */
  ghost function Plan(present: nat -> bool, first: nat, last: int, limit: nat): seq<nat>
    decreases last - first
  {
    if first > last || limit == 0 then []
    else if present(first) then Plan(present, first + 1, last, limit)
    else [first] + Plan(present, first + 1, last, limit - 1)
  }

  /** `scheduleReadAhead`; `skipped` says for which chunks the task was not started because the
      chunk was cached or shutdown had begun. */
  method ScheduleReadAhead(cfg: Config, endChunk: nat, windowEnd: int, skipped: nat -> bool) returns (tasks: seq<nat>)
    requires cfg.chunkSize > 0
    ensures tasks == Plan(skipped, endChunk + 1, windowEnd, ReadAheadLimit(cfg))
  {
    var limit := cfg.windowSize / cfg.chunkSize;
    if limit > 1000 {
      limit := 1000;
    }
    tasks := [];
    var index := endChunk + 1;
    ghost var plan := Plan(skipped, index, windowEnd, limit);
    hide Plan;
    while index <= windowEnd && |tasks| < limit
      invariant |tasks| <= limit && endChunk < index
      invariant tasks + Plan(skipped, index, windowEnd, limit - |tasks|) == plan
      decreases windowEnd - index
    {
      PlanFirst(skipped, index, windowEnd, limit - |tasks|);
      if !skipped(index) {
        Associate(tasks, [index], Plan(skipped, index + 1, windowEnd, limit - |tasks| - 1));
        tasks := tasks + [index];
      }
      index := index + 1;
    }
    PlanNone(skipped, index, windowEnd, limit - |tasks|);
  }

  lemma PlanFirst(present: nat -> bool, first: nat, last: int, limit: nat)
    requires first <= last && limit > 0
    ensures Plan(present, first, last, limit) ==
            if present(first) then Plan(present, first + 1, last, limit)
            else [first] + Plan(present, first + 1, last, limit - 1)
  {
  }

  lemma PlanNone(present: nat -> bool, first: nat, last: int, limit: nat)
    requires first > last || limit == 0
    ensures Plan(present, first, last, limit) == []
  {
  }

  lemma {:induction false} PlanWithin(present: nat -> bool, first: nat, last: int, limit: nat)
    ensures var plan := Plan(present, first, last, limit);
            && |plan| <= limit
            && (forall i | 0 <= i < |plan| :: first <= plan[i] <= last && !present(plan[i]))
            && (forall i, j | 0 <= i < j < |plan| :: plan[i] < plan[j])
    decreases last - first
  {
    if first <= last && limit > 0 {
      PlanWithin(present, first + 1, last, if present(first) then limit else limit - 1);
    }
  }

  /** A chunk that is not planned is present, or comes after as many as are allowed. */
  lemma {:induction false} PlanComplete(present: nat -> bool, first: nat, last: int, limit: nat, index: nat)
    requires first <= index <= last && !present(index)
    ensures var plan := Plan(present, first, last, limit);
            index in plan || (|plan| == limit && forall i | 0 <= i < |plan| :: plan[i] < index)
    decreases last - first
  {
    if limit > 0 && first < index {
      PlanComplete(present, first + 1, last, if present(first) then limit else limit - 1, index);
    }
  }

  /** With a known size the window never reaches a chunk that starts past the end. */
  lemma WindowInsideFile(cfg: Config, start: nat, index: nat)
    requires ValidConfig(cfg) && cfg.size > 0 && index <= WindowEnd(cfg, start)
    ensures index * cfg.chunkSize < cfg.size
  {
    DivFacts(cfg.size - 1, cfg.chunkSize);
    MulCompare(index, (cfg.size - 1) / cfg.chunkSize, cfg.chunkSize);
  }

  /** The window is the chunks that begin within `WindowSize` bytes of its first one and, with a known
      size, inside the file. */
  lemma WindowExactly(cfg: Config, start: nat, index: nat)
    requires ValidConfig(cfg) && start <= index
    ensures index <= WindowEnd(cfg, start) <==>
              && (index - start) * cfg.chunkSize < cfg.windowSize
              && (cfg.size > 0 ==> index * cfg.chunkSize < cfg.size)
  {
    CeilBound(cfg.windowSize, cfg.chunkSize, 0);
    CeilBound(cfg.windowSize, cfg.chunkSize, index - start);
    if cfg.size > 0 {
      FloorBound(cfg.size, cfg.chunkSize, index);
    }
  }

  /** The last chunk of a file is the last that begins inside it. */
  lemma FloorBound(size: nat, c: nat, index: nat)
    requires size > 0 && c > 0
    ensures index <= (size - 1) / c <==> index * c < size
  {
    var q := (size - 1) / c;
    DivFacts(size - 1, c);
    MulCompare(index, q, c);
  }

  /** `k` is below the quotient rounded up exactly when `k` chunks are less than the whole. */
  lemma CeilBound(x: nat, c: nat, k: nat)
    requires c > 0
    ensures k < (x + c - 1) / c <==> k * c < x
  {
    var q := (x + c - 1) / c;
    DivFacts(x + c - 1, c);
    MulCompare(k, q, c);
    if k < q {
      MulCompare(q, k, c);
    }
  }

  /** What `scheduleReadAhead` starts, for all states of the cache: the first absent chunks of the window
      after the request, in order, all of them or as many as are allowed. */
  lemma ReadAheadExactly(cfg: Config, endChunk: nat, start: nat, skipped: nat -> bool, index: nat)
    requires ValidConfig(cfg) && start <= endChunk < index
    ensures var tasks := Plan(skipped, endChunk + 1, WindowEnd(cfg, start), ReadAheadLimit(cfg));
            && |tasks| <= 1000 && |tasks| <= cfg.windowSize / cfg.chunkSize
            && (forall i, j | 0 <= i < j < |tasks| :: endChunk < tasks[i] < tasks[j])
            && (index in tasks ==> !skipped(index))
            && (index in tasks ==> (index - start) * cfg.chunkSize < cfg.windowSize)
            && (index in tasks && cfg.size > 0 ==> index * cfg.chunkSize < cfg.size)
            && (index !in tasks && !skipped(index) && (index - start) * cfg.chunkSize < cfg.windowSize
                && (cfg.size > 0 ==> index * cfg.chunkSize < cfg.size) ==>
                  (|tasks| == 1000 || |tasks| == cfg.windowSize / cfg.chunkSize)
                  && forall i | 0 <= i < |tasks| :: tasks[i] < index)
  {
    hide Plan, WindowEnd;
    var last := WindowEnd(cfg, start);
    PlanWithin(skipped, endChunk + 1, last, ReadAheadLimit(cfg));
    WindowExactly(cfg, start, index);
    if index <= last && !skipped(index) {
      PlanComplete(skipped, endChunk + 1, last, ReadAheadLimit(cfg), index);
    }
  }
}
