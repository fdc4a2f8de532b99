/** Every run of the prefetcher: any number of readers, required-chunk tasks, read-ahead tasks,
    single-flight fetches with retries and timeouts, reads abandoned by a timeout that go on
    writing into their buffer, evictions, and shutdown.

    A run is a sequence of atomic steps.  A step is one critical section or one channel
    operation of the source; everything that happens between two such points is local. */
module PrefetchRuns {
  import opened Basics
  import opened Prefetch

  /** Each underlying read fills a buffer of its own. */
  datatype Buffer = OfAttempt(attempt: nat) | OfAhead(thread: nat)

  datatype Chunk = Chunk(index: nat, buffer: Buffer, size: nat)

  datatype AttemptStatus = Running | Finished(n: nat, ok: bool)

  /** One goroutine of `readChunkOnce`. */
  datatype Attempt = Attempt(index: nat, call: nat, status: AttemptStatus)

  /** The single-flight function of `fetchChunk`. */
  datatype CallPc =
    | Checking
    | Acquiring
    | Holding(started: nat)                      // owns a token, between attempts
    | Awaiting(started: nat, attempt: nat)       // owns a token, waits for that attempt
    | Storing(ch: Chunk)                         // owns a token, about to add to the cache
    | Releasing(ch: Chunk)                       // owns a token, chunk already added
    | Returned(result: Option<Chunk>)

  datatype Call = Call(index: nat, leader: nat, pc: CallPc)

  datatype ReaderPc =
    | Invoked
    | Entered
    | Requiring(next: nat)
    | Prefetching(next: nat, scheduled: nat)
    | Copying(index: nat, out: seq<byte>)
    | Fetching(index: nat, out: seq<byte>, call: nat)
    | Using(index: nat, out: seq<byte>, ch: Chunk)
    | Answered(out: seq<byte>, err: Err)

  datatype TaskPc = TaskReady | TaskFetching(call: nat) | TaskDone

  datatype AheadPc = AheadReady | AheadChosen | AheadReading | AheadStoring(n: nat) | AheadReleasing | AheadDone

  datatype CloserPc = CloseCalled | CloseWaiting | CloseClearing | CloseReturned(first: bool)

  datatype Thread =
    | Reader(req: Request, rpc: ReaderPc)
    | Task(index: nat, tpc: TaskPc)
    | Ahead(index: nat, parent: nat, apc: AheadPc)
    | Closer(cpc: CloserPc)

  datatype Token = ByCall(call: nat) | ByAhead(thread: nat)

  datatype State = State(
    buffers: map<Buffer, seq<byte>>,
    cache: map<nat, Chunk>,
    minIndex: nat,
    calls: map<nat, Call>,
    group: map<nat, nat>,            // single-flight key to the call in flight
    attempts: map<nat, Attempt>,
    threads: map<nat, Thread>,
    registered: set<nat>,            // the wait group
    tokens: set<Token>,              // the semaphore
    closed: bool,
    abandoned: set<nat>)             // attempts given up on by a timeout or by shutdown

  const Initial := State(map[], map[], 0, map[], map[], map[], map[], {}, {}, false, {})

  // ---- steps ----

  datatype Step =
    | Invoke(t: nat, req: Request)
    | InvokeClose(t: nat)
    | Enter(t: nat)
    | Start(t: nat)
    | SkipRequired(t: nat)
    | SpawnRequired(t: nat, u: nat)
    | SkipAhead(t: nat)
    | SpawnAhead(t: nat, u: nat)
    | Hit(t: nat)
    | Join(t: nat)
    | Lead(t: nat, c: nat)
    | Resume(t: nat)
    | CopyBytes(t: nat)
    | Finish(t: nat)
    | TaskSkip(t: nat)
    | TaskJoin(t: nat)
    | TaskLead(t: nat, c: nat)
    | TaskResume(t: nat)
    | AheadCheck(t: nat)
    | AheadTry(t: nat)
    | AheadWrite(t: nat, content: seq<byte>)
    | AheadRead(t: nat, n: nat, ok: bool)
    | AheadStore(t: nat, victims: set<nat>)
    | AheadRelease(t: nat)
    | CallCheck(c: nat)
    | CallAcquire(c: nat)
    | CallGiveUp(c: nat)
    | CallAttempt(c: nat, a: nat)
    | CallTimeout(c: nat)
    | CallReceive(c: nat)
    | CallStore(c: nat, victims: set<nat>)
    | CallReturn(c: nat)
    | AttemptWrite(a: nat, content: seq<byte>)
    | AttemptFinish(a: nat, n: nat, ok: bool)
    | CloseBegin(t: nat)
    | CloseWaited(t: nat)
    | CloseClear(t: nat)

  function SetThread(s: State, t: nat, th: Thread): State { s.(threads := s.threads[t := th]) }

  /** A goroutine that leaves calls `wg.Done`. */
  function Leave(s: State, t: nat, th: Thread): State {
    s.(threads := s.threads[t := th], registered := s.registered - {t})
  }

  function SetCall(s: State, c: nat, pc: CallPc): (r: State)
    requires c in s.calls
    ensures r == s.(calls := r.calls)
  {
    s.(calls := s.calls[c := s.calls[c].(pc := pc)])
  }

  /** The call's function returns: its token is given back and its key forgotten. */
  function EndCall(s: State, c: nat, result: Option<Chunk>): (r: State)
    requires c in s.calls
    ensures r == s.(calls := r.calls, group := r.group, tokens := r.tokens)
  {
    s.(calls := s.calls[c := s.calls[c].(pc := Returned(result))], group := s.group - {s.calls[c].index},
       tokens := s.tokens - {ByCall(c)})
  }

  /** `addChunk`: ignored below the window; `victims` are evicted by the size limit. */
  function AddChunk(s: State, ch: Chunk, victims: set<nat>): (r: State)
    ensures r == s.(cache := r.cache)
  {
    if ch.index < s.minIndex then s else s.(cache := s.cache[ch.index := ch] - victims)
  }

  function EvictBefore(s: State, lo: nat): (r: State)
    ensures r == s.(cache := r.cache, minIndex := r.minIndex)
  {
    if lo <= s.minIndex then s
    else s.(minIndex := lo, cache := map i | i in s.cache && i >= lo :: s.cache[i])
  }

  /** A failed or abandoned attempt: retry while attempts are left, else fail the call. */
  function AttemptFailed(cfg: Config, s: State, c: nat, started: nat): (r: State)
    requires c in s.calls
    ensures r == s.(calls := r.calls, group := r.group, tokens := r.tokens)
  {
    if started <= cfg.maxRetries then SetCall(s, c, Holding(started)) else EndCall(s, c, None)
  }

  function NewCall(s: State, t: nat, index: nat, c: nat, th: Thread): State {
    s.(calls := s.calls[c := Call(index, t, Checking)], group := s.group[index := c], threads := s.threads[t := th])
  }

  /** The reader's answer once the copy loop is over. */
  function Answer(cfg: Config, req: Request, out: seq<byte>): ReaderPc {
    Answered(out, if cfg.size > 0 && req.off + |out| >= cfg.size then EOF else NoErr)
  }

  predicate IsReader(s: State, t: nat) { t in s.threads && s.threads[t].Reader? }

  predicate IsAhead(s: State, t: nat) { t in s.threads && s.threads[t].Ahead? }

  predicate IsTask(s: State, t: nat) { t in s.threads && s.threads[t].Task? }

  predicate HasCall(s: State, c: nat) { c in s.calls }

  predicate LoopGoesOn(cfg: Config, req: Request, index: nat, out: seq<byte>)
    requires cfg.chunkSize > 0
  {
    Proceeds(cfg, req) && index <= EndChunk(cfg, req) && |out| < req.len
  }

  /** The read is checked, and the window moved. */
  ghost predicate Starts(cfg: Config, s: State, s': State, t: nat)
    requires ValidConfig(cfg)
  {
    && IsReader(s, t) && s.threads[t].rpc == Entered
    && var req := s.threads[t].req;
    && (if !Proceeds(cfg, req) then s' == Leave(s, t, Reader(req, Answered([], ValidateRead(cfg, req))))
        else if Overruns(cfg, req)
            then s' == Leave(EvictBefore(s, StartChunk(cfg, req)), t, Reader(req, Answered([], EOF)))
        else s' == SetThread(EvictBefore(s, StartChunk(cfg, req)), t, Reader(req, Requiring(StartChunk(cfg, req)))))
  }

  /** The fetch that the reader waits for has returned. */
  ghost predicate Resumes(s: State, s': State, t: nat) {
    && IsReader(s, t) && s.threads[t].rpc.Fetching?
    && var Reader(req, Fetching(index, out, c)) := s.threads[t];
    && c in s.calls && s.calls[c].pc.Returned?
    && (match s.calls[c].pc.result
        case Some(ch) => s' == SetThread(s, t, Reader(req, Using(index, out, ch)))
        case None => s' == Leave(s, t, Reader(req, Answered(out, FetchFailed))))
  }

  /** One round of the copy loop. */
  ghost predicate CopiesBytes(cfg: Config, s: State, s': State, t: nat)
    requires ValidConfig(cfg)
  {
    && IsReader(s, t) && s.threads[t].rpc.Using?
    && var Reader(req, Using(index, out, ch)) := s.threads[t];
    && req.off >= 0 && |out| <= req.len
    && ch.buffer in s.buffers && ch.size <= |s.buffers[ch.buffer]|
    && (match CopyRound(cfg, req, index, out, s.buffers[ch.buffer][..ch.size])
        case Some(more) => s' == SetThread(s, t, Reader(req, Copying(index + 1, more)))
        case None => s' == Leave(s, t, Reader(req, Answer(cfg, req, out))))
  }

  /** Readers: `ReadAt`, its two scheduling loops and its copy loop. */
  ghost predicate ReaderStep(cfg: Config, s: State, s': State, e: Step)
    requires ValidConfig(cfg)
  {
    match e
    case Invoke(t, req) =>
      t !in s.threads && s' == SetThread(s, t, Reader(req, Invoked))
    case Enter(t) =>
      && IsReader(s, t) && s.threads[t].rpc == Invoked
      && s' == if s.closed then SetThread(s, t, s.threads[t].(rpc := Answered([], PrefetcherClosed)))
               else s.(threads := s.threads[t := s.threads[t].(rpc := Entered)], registered := s.registered + {t})
    case Start(t) => Starts(cfg, s, s', t)
    case SkipRequired(t) =>
      && IsReader(s, t) && s.threads[t].rpc.Requiring? && Proceeds(cfg, s.threads[t].req)
      && var Reader(req, Requiring(next)) := s.threads[t];
      && (next > EndChunk(cfg, req) || next in s.cache || s.closed)
      && s' == SetThread(s, t, Reader(req, if next > EndChunk(cfg, req) then Prefetching(EndChunk(cfg, req) + 1, 0)
                                           else Requiring(next + 1)))
    case SpawnRequired(t, u) =>
      && IsReader(s, t) && s.threads[t].rpc.Requiring? && Proceeds(cfg, s.threads[t].req)
      && var Reader(req, Requiring(next)) := s.threads[t];
      && next <= EndChunk(cfg, req) && !s.closed && u !in s.threads
      && s' == s.(threads := s.threads[t := Reader(req, Requiring(next + 1))][u := Task(next, TaskReady)],
                  registered := s.registered + {u})
    case SkipAhead(t) =>
      && IsReader(s, t) && s.threads[t].rpc.Prefetching? && Proceeds(cfg, s.threads[t].req)
      && var Reader(req, Prefetching(next, scheduled)) := s.threads[t];
      && var over := next > WindowEnd(cfg, StartChunk(cfg, req)) || scheduled >= ReadAheadLimit(cfg);
      && (over || next in s.cache || s.closed)
      && s' == SetThread(s, t, Reader(req, if over then Copying(StartChunk(cfg, req), [])
                                           else Prefetching(next + 1, scheduled)))
    case SpawnAhead(t, u) =>
      && IsReader(s, t) && s.threads[t].rpc.Prefetching? && Proceeds(cfg, s.threads[t].req)
      && var Reader(req, Prefetching(next, scheduled)) := s.threads[t];
      && next <= WindowEnd(cfg, StartChunk(cfg, req)) && scheduled < ReadAheadLimit(cfg)
      && !s.closed && u !in s.threads
      && s' == s.(threads := s.threads[t := Reader(req, Prefetching(next + 1, scheduled + 1))][u := Ahead(next, t,
          AheadReady)],
                  registered := s.registered + {u})
    case Hit(t) =>
      && IsReader(s, t) && s.threads[t].rpc.Copying?
      && var Reader(req, Copying(index, out)) := s.threads[t];
      && LoopGoesOn(cfg, req, index, out) && index in s.cache
      && s' == SetThread(s, t, Reader(req, Using(index, out, s.cache[index])))
    case Join(t) =>
      && IsReader(s, t) && s.threads[t].rpc.Copying?
      && var Reader(req, Copying(index, out)) := s.threads[t];
      && LoopGoesOn(cfg, req, index, out) && index in s.group
      && s' == SetThread(s, t, Reader(req, Fetching(index, out, s.group[index])))
    case Lead(t, c) =>
      && IsReader(s, t) && s.threads[t].rpc.Copying?
      && var Reader(req, Copying(index, out)) := s.threads[t];
      && LoopGoesOn(cfg, req, index, out) && index !in s.group && c !in s.calls
      && s' == NewCall(s, t, index, c, Reader(req, Fetching(index, out, c)))
    case Resume(t) => Resumes(s, s', t)
    case CopyBytes(t) => CopiesBytes(cfg, s, s', t)
    case Finish(t) =>
      && IsReader(s, t) && s.threads[t].rpc.Copying?
      && var Reader(req, Copying(index, out)) := s.threads[t];
      && !LoopGoesOn(cfg, req, index, out)
      && s' == Leave(s, t, Reader(req, Answer(cfg, req, out)))
    case _ => false
  }

  /** The goroutines that `scheduleRequiredChunks` and `scheduleReadAhead` start. */
  ghost predicate HelperStep(cfg: Config, s: State, s': State, e: Step) {
    match e
    case TaskSkip(t) =>
      && IsTask(s, t) && s.threads[t].tpc == TaskReady && (s.closed || s.threads[t].index in s.cache)
      && s' == Leave(s, t, s.threads[t].(tpc := TaskDone))
    case TaskJoin(t) =>
      && IsTask(s, t) && s.threads[t].tpc == TaskReady && s.threads[t].index in s.group
      && s' == SetThread(s, t, s.threads[t].(tpc := TaskFetching(s.group[s.threads[t].index])))
    case TaskLead(t, c) =>
      && IsTask(s, t) && s.threads[t].tpc == TaskReady && s.threads[t].index !in s.group && c !in s.calls
      && s' == NewCall(s, t, s.threads[t].index, c, s.threads[t].(tpc := TaskFetching(c)))
    case TaskResume(t) =>
      && IsTask(s, t) && s.threads[t].tpc.TaskFetching?
      && s.threads[t].tpc.call in s.calls && s.calls[s.threads[t].tpc.call].pc.Returned?
      && s' == Leave(s, t, s.threads[t].(tpc := TaskDone))
    case AheadCheck(t) =>
      && IsAhead(s, t) && s.threads[t].apc == AheadReady
      && s' == if s.closed || s.threads[t].index in s.cache then Leave(s, t, s.threads[t].(apc := AheadDone))
               else SetThread(s, t, s.threads[t].(apc := AheadChosen))
    case AheadTry(t) =>
      && IsAhead(s, t) && s.threads[t].apc == AheadChosen
      && s' == if |s.tokens| < cfg.maxParallelReads
               then s.(threads := s.threads[t := s.threads[t].(apc := AheadReading)],
                       tokens := s.tokens + {ByAhead(t)}, buffers := s.buffers[OfAhead(t) := Zeroes(cfg.chunkSize)])
               else Leave(s, t, s.threads[t].(apc := AheadDone))
    case AheadWrite(t, content) =>
      && IsAhead(s, t) && s.threads[t].apc == AheadReading && |content| == cfg.chunkSize
      && s' == s.(buffers := s.buffers[OfAhead(t) := content])
    case AheadRead(t, n, ok) =>
      && IsAhead(s, t) && s.threads[t].apc == AheadReading
      && (ok ==> Delivered(cfg, s, OfAhead(t), s.threads[t].index, n))
      && s' == SetThread(s, t, s.threads[t].(apc := if ok then AheadStoring(n) else AheadReleasing))
    case AheadStore(t, victims) =>
      && IsAhead(s, t) && s.threads[t].apc.AheadStoring?
      && s' == SetThread(AddChunk(s, Chunk(s.threads[t].index, OfAhead(t), s.threads[t].apc.n), victims),
                         t, s.threads[t].(apc := AheadReleasing))
    case AheadRelease(t) =>
      && IsAhead(s, t) && s.threads[t].apc == AheadReleasing
      && s' == s.(threads := s.threads[t := s.threads[t].(apc := AheadDone)], registered := s.registered - {t},
                  tokens := s.tokens - {ByAhead(t)})
    case _ => false
  }

  function Zeroes(n: nat): (z: seq<byte>)
    ensures |z| == n
  {
    seq(n, _ => 0)
  }

  /** A successful underlying read: it fills the buffer, and is short only at the end of data. */
  ghost predicate Delivered(cfg: Config, s: State, b: Buffer, index: nat, n: nat) {
    b in s.buffers && n <= |s.buffers[b]| && s.buffers[b][..n] == ChunkData(cfg, index)
  }

  /** The first look at the cache inside the call. */
  ghost predicate LooksUp(s: State, s': State, c: nat) {
    && HasCall(s, c) && s.calls[c].pc == Checking
    && if s.calls[c].index in s.cache then s' == EndCall(s, c, Some(s.cache[s.calls[c].index]))
       else s' == SetCall(s, c, Acquiring)
  }

  /** The attempt waited for has finished. */
  ghost predicate Receives(cfg: Config, s: State, s': State, c: nat) {
    && HasCall(s, c) && s.calls[c].pc.Awaiting?
    && var Awaiting(started, a) := s.calls[c].pc;
    && a in s.attempts && s.attempts[a].status.Finished?
    && if s.attempts[a].status.ok
       then s' == SetCall(s, c, Storing(Chunk(s.calls[c].index, OfAttempt(a), s.attempts[a].status.n)))
       else s' == AttemptFailed(cfg, s, c, started)
  }

  /** `fetchChunk`, `readChunkWithRetries` and `readChunkOnce`. */
  ghost predicate FetchStep(cfg: Config, s: State, s': State, e: Step) {
    match e
    case CallCheck(c) => LooksUp(s, s', c)
    case CallAcquire(c) =>
      && HasCall(s, c) && s.calls[c].pc == Acquiring && |s.tokens| < cfg.maxParallelReads
      && s' == s.(calls := s.calls[c := s.calls[c].(pc := Holding(0))], tokens := s.tokens + {ByCall(c)})
    case CallGiveUp(c) =>   // shutdown or timeout while acquiring, or shutdown while waiting to retry
      && HasCall(s, c)
      && (s.calls[c].pc == Acquiring || (s.closed && s.calls[c].pc.Holding? && s.calls[c].pc.started > 0))
      && s' == EndCall(s, c, None)
    case CallAttempt(c, a) =>
      && HasCall(s, c) && s.calls[c].pc.Holding? && a !in s.attempts
      && s' == s.(calls := s.calls[c := s.calls[c].(pc := Awaiting(s.calls[c].pc.started + 1, a))],
                  attempts := s.attempts[a := Attempt(s.calls[c].index, c, Running)],
                  buffers := s.buffers[OfAttempt(a) := Zeroes(cfg.chunkSize)])
    case CallTimeout(c) =>
      && HasCall(s, c) && s.calls[c].pc.Awaiting?
      && s' == AttemptFailed(cfg, s, c, s.calls[c].pc.started).(abandoned := s.abandoned + {s.calls[c].pc.attempt})
    case CallReceive(c) => Receives(cfg, s, s', c)
    case CallStore(c, victims) =>
      && HasCall(s, c) && s.calls[c].pc.Storing?
      && s' == SetCall(AddChunk(s, s.calls[c].pc.ch, victims), c, Releasing(s.calls[c].pc.ch))
    case CallReturn(c) =>
      && HasCall(s, c) && s.calls[c].pc.Releasing?
      && s' == EndCall(s, c, Some(s.calls[c].pc.ch))
    case AttemptWrite(a, content) =>
      && a in s.attempts && s.attempts[a].status == Running && |content| == cfg.chunkSize
      && s' == s.(buffers := s.buffers[OfAttempt(a) := content])
    case AttemptFinish(a, n, ok) =>
      && a in s.attempts && s.attempts[a].status == Running
      && (ok ==> Delivered(cfg, s, OfAttempt(a), s.attempts[a].index, n))
      && s' == s.(attempts := s.attempts[a := s.attempts[a].(status := Finished(n, ok))])
    case _ => false
  }

  /** `Close`. */
  ghost predicate CloseStep(s: State, s': State, e: Step) {
    match e
    case InvokeClose(t) =>
      t !in s.threads && s' == SetThread(s, t, Closer(CloseCalled))
    case CloseBegin(t) =>
      && t in s.threads && s.threads[t] == Closer(CloseCalled)
      && s' == if s.closed then SetThread(s, t, Closer(CloseReturned(false)))
               else s.(threads := s.threads[t := Closer(CloseWaiting)], closed := true)
    case CloseWaited(t) =>
      && t in s.threads && s.threads[t] == Closer(CloseWaiting) && s.registered == {}
      && s' == SetThread(s, t, Closer(CloseClearing))
    case CloseClear(t) =>
      && t in s.threads && s.threads[t] == Closer(CloseClearing)
      && s' == s.(threads := s.threads[t := Closer(CloseReturned(true))], cache := map[])
    case _ => false
  }

  ghost predicate Next(cfg: Config, s: State, s': State, e: Step)
    requires ValidConfig(cfg)
  {
    ReaderStep(cfg, s, s', e) || HelperStep(cfg, s, s', e) || FetchStep(cfg, s, s', e) || CloseStep(s, s', e)
  }

  /** A finite run from the initial state. */
  ghost predicate IsRun(cfg: Config, run: seq<State>, steps: seq<Step>)
    requires ValidConfig(cfg)
  {
    && |run| == |steps| + 1 && run[0] == Initial
    && forall i | 0 <= i < |steps| :: Next(cfg, run[i], run[i + 1], steps[i])
  }
}
