/** What holds in every state of every run of the prefetcher. */
module PrefetchTheorems {
  import opened Basics
  import opened Prefetch
  import opened PrefetchInvariant
  import opened PrefetchRuns
  import opened PrefetchSteps

  lemma RunStep(cfg: Config, run: seq<State>, steps: seq<Step>, i: nat)
    requires ValidConfig(cfg) && IsRun(cfg, run, steps) && i + 1 < |run|
    ensures i < |steps| && Next(cfg, run[i], run[i + 1], steps[i])
  {
    hide Next;
  }

  lemma {:induction false} RunKeeps(cfg: Config, run: seq<State>, steps: seq<Step>, i: nat)
    requires ValidConfig(cfg) && IsRun(cfg, run, steps) && i < |run|
    ensures Inv(cfg, run[i])
  {
    if i > 0 {
      hide Inv, Next, IsRun;
      RunKeeps(cfg, run, steps, i - 1);
      RunStep(cfg, run, steps, i - 1);
      NextKeeps(cfg, run[i - 1], run[i], steps[i - 1]);
    }
  }

  lemma {:induction false} RunMono(cfg: Config, run: seq<State>, steps: seq<Step>, i: nat, j: nat)
    requires ValidConfig(cfg) && IsRun(cfg, run, steps) && i <= j < |run|
    ensures Mono(run[i], run[j])
    decreases j - i
  {
    hide Inv, Next, Mono, IsRun;
    if i == j {
      MonoSelf(run[i]);
    } else {
      RunMono(cfg, run, steps, i, j - 1);
      RunKeeps(cfg, run, steps, j - 1);
      RunStep(cfg, run, steps, j - 1);
      NextKeeps(cfg, run[j - 1], run[j], steps[j - 1]);
      MonoTransitive(run[i], run[j - 1], run[j]);
    }
  }

  /** Whatever other readers, read-ahead, evictions, retries, timeouts and shutdown do, a read
      returns the bytes of the file, and unless a fetch failed or the prefetcher was closed it
      returns exactly the specified number of them with the specified error. */
  lemma ReadsReturnTheData(cfg: Config, run: seq<State>, steps: seq<Step>, i: nat, t: nat)
    requires ValidConfig(cfg) && IsRun(cfg, run, steps) && i < |run|
    requires IsReader(run[i], t) && run[i].threads[t].rpc.Answered?
    ensures var Reader(req, Answered(out, err)) := run[i].threads[t];
            && Matches(cfg, req.off, out)
            && (err == FetchFailed || (err == PrefetcherClosed && out == [])
                || Expected(cfg, req.off, req.len, |out|, err))
            && (err == PrefetcherClosed ==> run[i].closed)
  {
    hide IsRun;
    RunKeeps(cfg, run, steps, i);
    assert ThreadInv(cfg, run[i], run[i].threads[t], t);
    var Reader(req, Answered(out, err)) := run[i].threads[t];
    hide Expected, ReadSpec, Matches;
    ReadSpecIsExpected(cfg, req, |out|, err);
  }

  /** With a known size, a read inside the file in which no fetch fails reports EOF exactly when it
      reaches the end, and delivers the file up to there; only inside one chunk it delivers nothing when
      it runs past the end. */
  lemma EndOfFileExactly(cfg: Config, run: seq<State>, steps: seq<Step>, i: nat, t: nat)
    requires ValidConfig(cfg) && IsRun(cfg, run, steps) && i < |run|
    requires IsReader(run[i], t) && run[i].threads[t].rpc.Answered?
    requires run[i].threads[t].rpc.err != FetchFailed && run[i].threads[t].rpc.err != PrefetcherClosed
    requires 0 <= run[i].threads[t].req.off < cfg.size && run[i].threads[t].req.len > 0
    ensures var Reader(Request(off, len), Answered(out, err)) := run[i].threads[t];
            && err == (if off + len >= cfg.size then EOF else NoErr)
            && out == if off + len > cfg.size && off / cfg.chunkSize == (off + len - 1) / cfg.chunkSize then []
                      else cfg.data[off..Min(off + len, cfg.size)]
  {
    hide IsRun;
    ReadsReturnTheData(cfg, run, steps, i, t);
  }

  /** From the moment a chunk is cached, or held by a reader or a fetch, its buffer is never
      written again, even by reads that were abandoned long before. */
  lemma CachedBuffersAreSealed(cfg: Config, run: seq<State>, steps: seq<Step>, i: nat, j: nat, index: nat)
    requires ValidConfig(cfg) && IsRun(cfg, run, steps) && i <= j < |run| && index in run[i].cache
    ensures var b := run[i].cache[index].buffer;
            && b in run[i].buffers && b in run[j].buffers
            && run[j].buffers[b] == run[i].buffers[b] && !Writing(run[j], b)
  {
    hide IsRun;
    RunKeeps(cfg, run, steps, i);
    RunMono(cfg, run, steps, i, j);
    assert Good(cfg, run[i], run[i].cache[index]);
  }

  lemma UsedBuffersAreSealed(cfg: Config, run: seq<State>, steps: seq<Step>, i: nat, j: nat, t: nat)
    requires ValidConfig(cfg) && IsRun(cfg, run, steps) && i <= j < |run|
    requires IsReader(run[i], t) && run[i].threads[t].rpc.Using?
    ensures var b := run[i].threads[t].rpc.ch.buffer;
            && b in run[i].buffers && b in run[j].buffers
            && run[j].buffers[b] == run[i].buffers[b] && !Writing(run[j], b)
  {
    hide IsRun;
    RunKeeps(cfg, run, steps, i);
    RunMono(cfg, run, steps, i, j);
    assert Good(cfg, run[i], run[i].threads[t].rpc.ch);
  }

  // ---- the bound on parallel reads ----

  /** The underlying reads in progress that nobody has given up on, named by their buffers. */
  ghost function LiveReads(s: State): set<Buffer> {
    set b | b in s.buffers && Writing(s, b) && (b.OfAttempt? ==> b.attempt !in s.abandoned)
  }

  ghost function TokenOf(s: State, b: Buffer): Token
    requires b.OfAttempt? ==> b.attempt in s.attempts
  {
    match b
    case OfAttempt(a) => ByCall(s.attempts[a].call)
    case OfAhead(t) => ByAhead(t)
  }

  lemma LiveReadHoldsToken(cfg: Config, s: State, b: Buffer)
    requires ValidConfig(cfg) && Inv(cfg, s) && b in LiveReads(s)
    ensures TokenOf(s, b) in s.tokens
    ensures b.OfAttempt? ==>
              var c := s.attempts[b.attempt].call;
              c in s.calls && s.calls[c].pc.Awaiting? && s.calls[c].pc.attempt == b.attempt
  {
    match b
    case OfAttempt(a) =>
      assert AttemptInv(cfg, s, a);
      assert CallInv(cfg, s, s.attempts[a].call);
    case OfAhead(t) =>
  }

  lemma {:induction false} InjectionBound(s: State, live: set<Buffer>, tokens: set<Token>)
    requires forall b | b in live :: (b.OfAttempt? ==> b.attempt in s.attempts) && TokenOf(s, b) in tokens
    requires forall b, d | b in live && d in live && b != d :: TokenOf(s, b) != TokenOf(s, d)
    ensures |live| <= |tokens|
    decreases |live|
  {
    if live != {} {
      var b :| b in live;
      InjectionBound(s, live - {b}, tokens - {TokenOf(s, b)});
    }
  }

  /** The semaphore is never over-subscribed, and a read that was not abandoned holds a token,
      so at most `MaxParallelReads` such reads are in progress. */
  lemma ParallelReadsBounded(cfg: Config, run: seq<State>, steps: seq<Step>, i: nat)
    requires ValidConfig(cfg) && IsRun(cfg, run, steps) && i < |run|
    ensures |run[i].tokens| <= cfg.maxParallelReads
    ensures |LiveReads(run[i])| <= cfg.maxParallelReads
    ensures run[i].abandoned == {} ==> LiveReads(run[i]) == set b | b in run[i].buffers && Writing(run[i], b)
  {
    hide IsRun;
    var s := run[i];
    RunKeeps(cfg, run, steps, i);
    forall b | b in LiveReads(s) ensures TokenOf(s, b) in s.tokens {
      LiveReadHoldsToken(cfg, s, b);
    }
    forall b, d | b in LiveReads(s) && d in LiveReads(s) && b != d ensures TokenOf(s, b) != TokenOf(s, d) {
      LiveReadHoldsToken(cfg, s, b);
      LiveReadHoldsToken(cfg, s, d);
    }
    InjectionBound(s, LiveReads(s), s.tokens);
  }

  // ---- shutdown ----

  ghost predicate ShutDown(s: State) {
    exists t :: t in s.threads && s.threads[t] == Closer(CloseReturned(true))
  }

  /** A `ReadAt` that has not got past its first check. */
  ghost predicate NotEntered(s: State, t: nat) {
    t !in s.threads || (s.threads[t].Reader? && s.threads[t].rpc == Invoked)
  }

  ghost predicate TurnedAway(s: State, t: nat) {
    NotEntered(s, t) || (s.threads[t].Reader? && s.threads[t].rpc == Answered([], PrefetcherClosed))
        || s.threads[t].Closer?
  }

  lemma TurnedAwayStep(cfg: Config, s: State, s': State, e: Step, t: nat)
    requires ValidConfig(cfg) && s.closed && Next(cfg, s, s', e) && TurnedAway(s, t)
    ensures TurnedAway(s', t)
  {
    hide ReaderStep, HelperStep, FetchStep, TurnedAway;
    if ReaderStep(cfg, s, s', e) {
      if Schedules(e) {
        TurnedAwayScheduling(cfg, s, s', e, t);
      } else {
        TurnedAwayReader(cfg, s, s', e, t);
      }
    } else {
      TurnedAwayOthers(cfg, s, s', e, t);
    }
  }

  lemma TurnedAwayOthers(cfg: Config, s: State, s': State, e: Step, t: nat)
    requires HelperStep(cfg, s, s', e) || FetchStep(cfg, s, s', e) || CloseStep(s, s', e)
    requires TurnedAway(s, t)
    ensures TurnedAway(s', t)
  {
    hide HelperStep, FetchStep;
    if HelperStep(cfg, s, s', e) {
      var u := HelperMoves(cfg, s, s', e);
    } else if FetchStep(cfg, s, s', e) {
      FetchKeepsThreads(cfg, s, s', e);
    }
  }

  /** Neither calls nor attempts change. */
  ghost predicate SameFetches(s: State, s': State) {
    s'.calls == s.calls && s'.attempts == s.attempts && s'.abandoned == s.abandoned
  }

  /** A scheduled goroutine changes its own state, and at most starts a call. */
  ghost predicate HelperMove(s: State, s': State, t: nat) {
    && t in s.threads && t in s'.threads && s'.threads == s.threads[t := s'.threads[t]]
    && (if s.threads[t].Ahead? then s'.threads[t].Ahead? && s'.threads[t].parent == s.threads[t].parent
        else s.threads[t].Task? && s'.threads[t].Task?)
    && s'.attempts == s.attempts && s'.abandoned == s.abandoned
    && (forall c | c in s'.calls ::
          (c in s.calls && s'.calls[c] == s.calls[c]) || (c !in s.calls && s'.calls[c].pc == Checking))
    && forall c | c in s.calls :: c in s'.calls
  }

  predicate OfTask(e: Step) { e.TaskSkip? || e.TaskJoin? || e.TaskLead? || e.TaskResume? }

  lemma TaskMoves(cfg: Config, s: State, s': State, e: Step)
    requires HelperStep(cfg, s, s', e) && OfTask(e)
    ensures HelperMove(s, s', e.t)
  {
  }

  predicate BeforeReading(e: Step) { e.AheadCheck? || e.AheadTry? || e.AheadWrite? }

  lemma AheadCheckMoves(cfg: Config, s: State, s': State, t: nat)
    requires HelperStep(cfg, s, s', AheadCheck(t))
    ensures IsAhead(s, t) && IsAhead(s', t) && s'.threads[t].parent == s.threads[t].parent
    ensures s'.threads == s.threads[t := s'.threads[t]] && SameFetches(s, s')
  {
  }

  lemma AheadTryMoves(cfg: Config, s: State, s': State, t: nat)
    requires HelperStep(cfg, s, s', AheadTry(t))
    ensures IsAhead(s, t) && IsAhead(s', t) && s'.threads[t].parent == s.threads[t].parent
    ensures s'.threads == s.threads[t := s'.threads[t]] && SameFetches(s, s')
  {
  }

  lemma AheadStarts(cfg: Config, s: State, s': State, e: Step)
    requires HelperStep(cfg, s, s', e) && BeforeReading(e)
    ensures HelperMove(s, s', e.t)
  {
    if e.AheadCheck? {
      hide HelperStep;
      AheadCheckMoves(cfg, s, s', e.t);
    } else if e.AheadTry? {
      hide HelperStep;
      AheadTryMoves(cfg, s, s', e.t);
    }
  }

  lemma AheadEnds(cfg: Config, s: State, s': State, e: Step) returns (t: nat)
    requires HelperStep(cfg, s, s', e) && !OfTask(e) && !BeforeReading(e)
    ensures HelperMove(s, s', t)
  {
    hide AddChunk, Delivered;
    t := e.t;
    assert s'.threads == s.threads[t := s'.threads[t]];
  }

  lemma HelperMoves(cfg: Config, s: State, s': State, e: Step) returns (t: nat)
    requires HelperStep(cfg, s, s', e)
    ensures HelperMove(s, s', t)
  {
    hide HelperStep, HelperMove;
    if OfTask(e) {
      TaskMoves(cfg, s, s', e);
      t := e.t;
    } else if BeforeReading(e) {
      AheadStarts(cfg, s, s', e);
      t := e.t;
    } else {
      t := AheadEnds(cfg, s, s', e);
    }
  }

  lemma FetchKeepsThreads(cfg: Config, s: State, s': State, e: Step)
    requires FetchStep(cfg, s, s', e)
    ensures s'.threads == s.threads
  {
    hide AddChunk, Delivered, Zeroes, SetCall, EndCall, AttemptFailed;
  }

  lemma TurnedAwayScheduling(cfg: Config, s: State, s': State, e: Step, t: nat)
    requires ValidConfig(cfg) && s.closed && ReaderStep(cfg, s, s', e) && TurnedAway(s, t) && Schedules(e)
    ensures TurnedAway(s', t)
  {
    hide Starts, Resumes, CopiesBytes;
    if e.Start? {
      StartThread(cfg, s, s', e.t);
    } else {
      hide StartChunk, EndChunk, WindowEnd, ReadAheadLimit, ValidateRead, Overruns, Proceeds;
    }
  }

  lemma TurnedAwayReader(cfg: Config, s: State, s': State, e: Step, t: nat)
    requires ValidConfig(cfg) && s.closed && ReaderStep(cfg, s, s', e) && TurnedAway(s, t) && !Schedules(e)
    ensures TurnedAway(s', t)
  {
    hide Starts, Resumes, CopiesBytes;
    if e.Resume? {
      ResumeMoves(s, s', e.t);
    } else if e.CopyBytes? {
      CopyThread(cfg, s, s', e.t);
    } else {
      hide StartChunk, EndChunk, ValidateRead, Overruns, Proceeds, LoopGoesOn;
    }
  }

  lemma ClosedStays(cfg: Config, run: seq<State>, steps: seq<Step>, i: nat, j: nat)
    requires ValidConfig(cfg) && IsRun(cfg, run, steps) && i <= j < |run| && run[i].closed
    ensures run[j].closed
  {
    hide Next, IsRun;
    RunMono(cfg, run, steps, i, j);
  }

  lemma {:induction false} TurnedAwayRun(cfg: Config, run: seq<State>, steps: seq<Step>, i: nat, j: nat, t: nat)
    requires ValidConfig(cfg) && IsRun(cfg, run, steps) && i <= j < |run| && run[i].closed && TurnedAway(run[i], t)
    ensures TurnedAway(run[j], t)
    decreases j - i
  {
    hide Next, TurnedAway, IsRun;
    if i < j {
      TurnedAwayRun(cfg, run, steps, i, j - 1, t);
      ClosedStays(cfg, run, steps, i, j - 1);
      RunStep(cfg, run, steps, j - 1);
      TurnedAwayStep(cfg, run[j - 1], run[j], steps[j - 1], t);
    }
  }

  /** Once the first `Close` has returned, no registered operation runs, the cache is empty and
      stays empty, and every read that had not entered gets the closed error. */
  lemma CloseIsFinal(cfg: Config, run: seq<State>, steps: seq<Step>, i: nat, j: nat)
    requires ValidConfig(cfg) && IsRun(cfg, run, steps) && i <= j < |run| && ShutDown(run[i])
    ensures run[j].registered == {} && run[j].cache == map[]
    ensures forall t | t in run[j].threads :: !Active(run[j].threads[t])
    ensures forall t | NotEntered(run[i], t) && IsReader(run[j], t) && run[j].threads[t].rpc != Invoked ::
              run[j].threads[t].rpc == Answered([], PrefetcherClosed)
  {
    hide IsRun;
    RunKeeps(cfg, run, steps, i);
    RunKeeps(cfg, run, steps, j);
    RunMono(cfg, run, steps, i, j);
    forall t | NotEntered(run[i], t) && IsReader(run[j], t) && run[j].threads[t].rpc != Invoked
      ensures run[j].threads[t].rpc == Answered([], PrefetcherClosed)
    {
      TurnedAwayRun(cfg, run, steps, i, j, t);
    }
  }

  // ---- read-ahead ----

  ghost function AheadsOf(s: State, t: nat): set<nat> {
    set u | u in s.threads && s.threads[u].Ahead? && s.threads[u].parent == t
  }

  /** How many read-ahead tasks a reader may have started by now. */
  function Allowance(cfg: Config, pc: ReaderPc): nat
    requires cfg.chunkSize > 0
  {
    match pc
    case Invoked => 0
    case Entered => 0
    case Requiring(_) => 0
    case Prefetching(_, scheduled) => scheduled
    case _ => ReadAheadLimit(cfg)
  }

  ghost predicate WithinAllowance(cfg: Config, s: State, t: nat)
    requires ValidConfig(cfg)
  {
    IsReader(s, t) ==> |AheadsOf(s, t)| <= Allowance(cfg, s.threads[t].rpc)
  }

  /** The step neither makes thread `u` a read-ahead task nor lowers its allowance. */
  ghost predicate KeepsAhead(cfg: Config, s: State, s': State, u: nat)
    requires ValidConfig(cfg)
  {
    && (IsAhead(s', u) ==> IsAhead(s, u) && s'.threads[u].parent == s.threads[u].parent)
    && (IsReader(s, u) ==> IsReader(s', u) && Allowance(cfg, s.threads[u].rpc) <= Allowance(cfg, s'.threads[u].rpc))
    && (IsReader(s', u) ==> u !in s.threads || IsReader(s, u))
  }

  lemma StartThread(cfg: Config, s: State, s': State, t: nat)
    requires ValidConfig(cfg) && Starts(cfg, s, s', t)
    ensures IsReader(s, t) && s.threads[t].rpc == Entered && IsReader(s', t)
    ensures s'.threads == s.threads[t := s'.threads[t]]
  {
  }

  lemma StartOutcome(cfg: Config, s: State, s': State, t: nat)
    requires ValidConfig(cfg) && Starts(cfg, s, s', t) && IsReader(s', t)
    ensures s'.threads[t].rpc.Requiring? || (s'.threads[t].rpc.Answered? && s'.threads[t].rpc.err != FetchFailed)
  {
    hide StartChunk;
  }

  lemma StartLeavesCalls(cfg: Config, s: State, s': State, t: nat)
    requires ValidConfig(cfg) && Starts(cfg, s, s', t)
    ensures SameFetches(s, s')
  {
  }

  lemma StartMoves(cfg: Config, s: State, s': State, t: nat)
    requires ValidConfig(cfg) && Starts(cfg, s, s', t)
    ensures IsReader(s, t) && s.threads[t].rpc == Entered && IsReader(s', t)
    ensures s'.threads == s.threads[t := s'.threads[t]] && SameFetches(s, s')
    ensures s'.threads[t].rpc.Requiring? || (s'.threads[t].rpc.Answered? && s'.threads[t].rpc.err != FetchFailed)
  {
    hide Starts;
    StartThread(cfg, s, s', t);
    StartOutcome(cfg, s, s', t);
    StartLeavesCalls(cfg, s, s', t);
  }

  lemma StartKeepsAhead(cfg: Config, s: State, s': State, t: nat, u: nat)
    requires ValidConfig(cfg) && Starts(cfg, s, s', t)
    ensures KeepsAhead(cfg, s, s', u)
  {
    hide Starts, ReadAheadLimit;
    StartMoves(cfg, s, s', t);
  }

  lemma RequireKeepsAhead(cfg: Config, s: State, s': State, e: Step, u: nat)
    requires ValidConfig(cfg) && ReaderStep(cfg, s, s', e) && (e.SkipRequired? || e.SpawnRequired?)
    ensures KeepsAhead(cfg, s, s', u)
  {
    hide StartChunk, EndChunk, WindowEnd, ReadAheadLimit, CopyRound, ValidateRead, Overruns, Proceeds, EvictBefore,
        LoopGoesOn;
  }

  lemma SkippingKeepsAhead(cfg: Config, s: State, s': State, t: nat, u: nat)
    requires ValidConfig(cfg) && ThreadsOk(cfg, s) && ReaderStep(cfg, s, s', SkipAhead(t))
    ensures KeepsAhead(cfg, s, s', u)
  {
    hide StartChunk, EndChunk, WindowEnd, ReadAheadLimit, Overruns, Good, CopyInv, AnswerOk;
    assert ThreadInv(cfg, s, s.threads[t], t);
  }

  predicate Answers(e: Step) { e.Resume? || e.CopyBytes? || e.Finish? }

  lemma ReadingKeepsAhead(cfg: Config, s: State, s': State, e: Step, u: nat)
    requires ValidConfig(cfg) && ReaderStep(cfg, s, s', e) && !Schedules(e) && !Answers(e)
    ensures KeepsAhead(cfg, s, s', u)
  {
    hide StartChunk, EndChunk, WindowEnd, ReadAheadLimit, CopyRound, ValidateRead, Overruns, Proceeds, EvictBefore,
        LoopGoesOn;
  }

  lemma ResumeMoves(s: State, s': State, t: nat)
    requires Resumes(s, s', t)
    ensures IsReader(s, t) && s.threads[t].rpc.Fetching? && IsReader(s', t)
    ensures s'.threads == s.threads[t := s'.threads[t]] && SameFetches(s, s')
    ensures s'.threads[t].rpc.Using? || s'.threads[t].rpc.Answered?
    ensures s'.threads[t].rpc.Answered? ==>
              s.threads[t].rpc.call in s.calls && s.calls[s.threads[t].rpc.call].pc == Returned(None)
  {
  }

  lemma ResumeKeepsAhead(cfg: Config, s: State, s': State, t: nat, u: nat)
    requires ValidConfig(cfg) && Resumes(s, s', t)
    ensures KeepsAhead(cfg, s, s', u)
  {
    hide ReadAheadLimit, Resumes;
    ResumeMoves(s, s', t);
  }

  lemma CopyThread(cfg: Config, s: State, s': State, t: nat)
    requires ValidConfig(cfg) && CopiesBytes(cfg, s, s', t)
    ensures IsReader(s, t) && s.threads[t].rpc.Using? && IsReader(s', t)
    ensures s'.threads == s.threads[t := s'.threads[t]] && SameFetches(s, s')
  {
    hide CopyRound, Answer;
  }

  lemma CopyOutcome(cfg: Config, s: State, s': State, t: nat)
    requires ValidConfig(cfg) && CopiesBytes(cfg, s, s', t) && IsReader(s', t)
    ensures s'.threads[t].rpc.Copying? || (s'.threads[t].rpc.Answered? && s'.threads[t].rpc.err != FetchFailed)
  {
    hide CopyRound;
  }

  lemma CopyKeepsAhead(cfg: Config, s: State, s': State, t: nat, u: nat)
    requires ValidConfig(cfg) && CopiesBytes(cfg, s, s', t)
    ensures KeepsAhead(cfg, s, s', u)
  {
    hide CopiesBytes, ReadAheadLimit;
    CopyThread(cfg, s, s', t);
    CopyOutcome(cfg, s, s', t);
  }

  lemma FinishKeepsAhead(cfg: Config, s: State, s': State, e: Step, u: nat)
    requires ValidConfig(cfg) && ReaderStep(cfg, s, s', e) && Answers(e)
    ensures KeepsAhead(cfg, s, s', u)
  {
    hide Starts, Resumes, CopiesBytes;
    if e.Resume? {
      ResumeKeepsAhead(cfg, s, s', e.t, u);
    } else if e.CopyBytes? {
      CopyKeepsAhead(cfg, s, s', e.t, u);
    } else {
      hide ReadAheadLimit, LoopGoesOn;
    }
  }

  lemma HelperKeepsAhead(cfg: Config, s: State, s': State, e: Step, u: nat)
    requires ValidConfig(cfg) && HelperStep(cfg, s, s', e)
    ensures KeepsAhead(cfg, s, s', u)
  {
    hide HelperStep, ReadAheadLimit;
    var t := HelperMoves(cfg, s, s', e);
  }

  lemma OtherKeepsAhead(cfg: Config, s: State, s': State, e: Step, u: nat)
    requires ValidConfig(cfg) && (FetchStep(cfg, s, s', e) || CloseStep(s, s', e))
    ensures KeepsAhead(cfg, s, s', u)
  {
    hide FetchStep, ReadAheadLimit;
    if FetchStep(cfg, s, s', e) {
      FetchKeepsThreads(cfg, s, s', e);
    }
  }

  lemma StepKeepsAhead(cfg: Config, s: State, s': State, e: Step, u: nat)
    requires ValidConfig(cfg) && ThreadsOk(cfg, s) && Next(cfg, s, s', e)
        && !(ReaderStep(cfg, s, s', e) && e.SpawnAhead?)
    ensures KeepsAhead(cfg, s, s', u)
  {
    hide ReaderStep, HelperStep, FetchStep, CloseStep, ThreadsOk, KeepsAhead;
    if ReaderStep(cfg, s, s', e) && e.SkipAhead? {
      SkippingKeepsAhead(cfg, s, s', e.t, u);
    } else if ReaderStep(cfg, s, s', e) && e.Start? {
      StepsAre(cfg, s, s', e);
      StartKeepsAhead(cfg, s, s', e.t, u);
    } else if ReaderStep(cfg, s, s', e) && Schedules(e) {
      RequireKeepsAhead(cfg, s, s', e, u);
    } else if ReaderStep(cfg, s, s', e) && Answers(e) {
      FinishKeepsAhead(cfg, s, s', e, u);
    } else if ReaderStep(cfg, s, s', e) {
      ReadingKeepsAhead(cfg, s, s', e, u);
    } else if HelperStep(cfg, s, s', e) {
      HelperKeepsAhead(cfg, s, s', e, u);
    } else {
      OtherKeepsAhead(cfg, s, s', e, u);
    }
  }

  lemma AllowanceStep(cfg: Config, s: State, s': State, e: Step, t: nat)
    requires ValidConfig(cfg) && Inv(cfg, s) && Next(cfg, s, s', e) && WithinAllowance(cfg, s, t)
    ensures WithinAllowance(cfg, s', t)
  {
    hide ReaderStep, Next, ThreadsOk, CallsOk, AttemptsOk, CacheOk, TokensOk, WithinAllowance, KeepsAhead;
    if ReaderStep(cfg, s, s', e) && e.SpawnAhead? {
      AllowanceSpawn(cfg, s, s', e.t, e.u, t);
    } else {
      forall u ensures KeepsAhead(cfg, s, s', u) {
        StepKeepsAhead(cfg, s, s', e, u);
      }
      FewerAheads(cfg, s, s', t);
    }
  }

  lemma FewerAheads(cfg: Config, s: State, s': State, t: nat)
    requires ValidConfig(cfg) && ThreadsOk(cfg, s) && WithinAllowance(cfg, s, t)
    requires forall u :: KeepsAhead(cfg, s, s', u)
    ensures WithinAllowance(cfg, s', t)
  {
    hide ReaderInv, Good, ReadAheadLimit;
    if IsReader(s', t) {
      assert KeepsAhead(cfg, s, s', t);
      forall u | u in AheadsOf(s', t) ensures u in AheadsOf(s, t) {
        assert KeepsAhead(cfg, s, s', u);
      }
      SubsetSize(AheadsOf(s', t), AheadsOf(s, t));
      if t !in s.threads {
        forall u | u in s.threads ensures u !in AheadsOf(s, t) {
          assert ThreadInv(cfg, s, s.threads[u], u);
        }
        assert AheadsOf(s, t) == {};
      }
    }
  }

  lemma SubsetSize<T>(a: set<T>, b: set<T>)
    requires a <= b
    ensures |a| <= |b|
  {
    assert b == a + (b - a);
  }

  lemma AheadAdded(s: State, s': State, r: nat, reader: Thread, u: nat, ahead: Thread, t: nat)
    requires r in s.threads && s.threads[r].Reader? && reader.Reader?
    requires u !in s.threads && ahead.Ahead? && ahead.parent == r
    requires s'.threads == s.threads[r := reader][u := ahead]
    ensures |AheadsOf(s', t)| == |AheadsOf(s, t)| + if t == r then 1 else 0
  {
    assert u !in AheadsOf(s, t);
    assert AheadsOf(s', t) == AheadsOf(s, t) + if t == r then {u} else {};
  }

  lemma AllowanceSpawn(cfg: Config, s: State, s': State, r: nat, u: nat, t: nat)
    requires ValidConfig(cfg) && ReaderStep(cfg, s, s', SpawnAhead(r, u)) && WithinAllowance(cfg, s, t)
    ensures WithinAllowance(cfg, s', t)
  {
    hide StartChunk, WindowEnd, ReadAheadLimit, ValidateRead, AheadsOf;
    AheadAdded(s, s', r, s'.threads[r], u, s'.threads[u], t);
  }

  lemma NobodyYet(cfg: Config, t: nat)
    requires ValidConfig(cfg)
    ensures WithinAllowance(cfg, Initial, t)
  {
  }

  lemma {:induction false} AllowanceRun(cfg: Config, run: seq<State>, steps: seq<Step>, i: nat, t: nat)
    requires ValidConfig(cfg) && IsRun(cfg, run, steps) && i < |run|
    ensures WithinAllowance(cfg, run[i], t)
  {
    hide Inv, Next, WithinAllowance;
    if i == 0 {
      NobodyYet(cfg, t);
    } else {
      hide IsRun;
      AllowanceRun(cfg, run, steps, i - 1, t);
      RunKeeps(cfg, run, steps, i - 1);
      RunStep(cfg, run, steps, i - 1);
      AllowanceStep(cfg, run[i - 1], run[i], steps[i - 1], t);
    }
  }

  /** One `ReadAt` starts at most `min(1000, WindowSize / ChunkSize)` read-ahead tasks, and with
      a known size each of them fetches a chunk that starts inside the file. */
  lemma ReadAheadStaysSmall(cfg: Config, run: seq<State>, steps: seq<Step>, i: nat, t: nat)
    requires ValidConfig(cfg) && IsRun(cfg, run, steps) && i < |run| && IsReader(run[i], t)
    ensures |AheadsOf(run[i], t)| <= 1000 && |AheadsOf(run[i], t)| <= cfg.windowSize / cfg.chunkSize
    ensures cfg.size > 0 ==> forall u | u in AheadsOf(run[i], t) :: run[i].threads[u].index * cfg.chunkSize < cfg.size
  {
    hide IsRun;
    AllowanceRun(cfg, run, steps, i, t);
    RunKeeps(cfg, run, steps, i);
    AllowanceSmall(cfg, run[i], t);
    AheadsInside(cfg, run[i], t);
  }

  lemma AllowanceSmall(cfg: Config, s: State, t: nat)
    requires ValidConfig(cfg) && Inv(cfg, s) && IsReader(s, t) && WithinAllowance(cfg, s, t)
    ensures |AheadsOf(s, t)| <= 1000 && |AheadsOf(s, t)| <= cfg.windowSize / cfg.chunkSize
  {
    hide CallsOk, AttemptsOk, CacheOk, TokensOk, CopyInv, Good, GoesOn, LoopGoesOn, AnswerOk, AheadsOf;
    assert ThreadInv(cfg, s, s.threads[t], t);
  }

  lemma AheadsInside(cfg: Config, s: State, t: nat)
    requires ValidConfig(cfg) && Inv(cfg, s)
    ensures cfg.size > 0 ==> forall u | u in AheadsOf(s, t) :: s.threads[u].index * cfg.chunkSize < cfg.size
  {
    hide CallsOk, AttemptsOk, CacheOk, TokensOk, ReaderInv, Good;
    forall u | u in AheadsOf(s, t) ensures ThreadInv(cfg, s, s.threads[u], u) {}
  }

  /** A reader that holds a chunk can always take its copy step. */
  lemma CopyNeverStuck(cfg: Config, run: seq<State>, steps: seq<Step>, i: nat, t: nat)
    requires ValidConfig(cfg) && IsRun(cfg, run, steps) && i < |run|
    requires IsReader(run[i], t) && run[i].threads[t].rpc.Using?
    ensures var Reader(req, Using(_, out, ch)) := run[i].threads[t];
            && req.off >= 0 && |out| < req.len
            && ch.buffer in run[i].buffers && ch.size <= |run[i].buffers[ch.buffer]|
  {
    hide IsRun, CopyInv;
    RunKeeps(cfg, run, steps, i);
    assert ThreadInv(cfg, run[i], run[i].threads[t], t);
  }

  // ---- errors have causes ----

  /** A timeout, a shutdown or a failing underlying read. */
  predicate Failure(e: Step) { e.CallGiveUp? || e.CallTimeout? || (e.AttemptFinish? && !e.ok) }

  ghost predicate NoCallFailed(s: State) {
    && (forall c | c in s.calls :: s.calls[c].pc != Returned(None))
    && (forall a | a in s.attempts && s.attempts[a].status.Finished? :: s.attempts[a].status.ok)
  }

  ghost predicate NotFailed(s: State, t: nat) {
    IsReader(s, t) && s.threads[t].rpc.Answered? ==> s.threads[t].rpc.err != FetchFailed
  }

  lemma ReceiveKeepsCall(cfg: Config, s: State, s': State, r: nat, c: nat)
    requires Receives(cfg, s, s', r) && NoCallFailed(s) && c in s'.calls
    ensures s'.calls[c].pc != Returned(None)
  {
    hide AttemptFailed;
  }

  lemma LookUpKeepsCall(s: State, s': State, r: nat, c: nat)
    requires LooksUp(s, s', r) && NoCallFailed(s) && c in s'.calls
    ensures s'.calls[c].pc != Returned(None)
  {
    assert s'.calls == s.calls[r := s'.calls[r]];
  }

  predicate BeforeAttempt(e: Step) { e.CallAcquire? || e.CallAttempt? }

  lemma BeforeAttemptKeepsCall(cfg: Config, s: State, s': State, e: Step, c: nat)
    requires FetchStep(cfg, s, s', e) && BeforeAttempt(e) && NoCallFailed(s) && c in s'.calls
    ensures s'.calls[c].pc != Returned(None)
  {
    hide LooksUp, Receives, Delivered, AddChunk, Zeroes, AttemptFailed;
  }

  lemma AfterAttemptKeepsCall(cfg: Config, s: State, s': State, e: Step, c: nat)
    requires FetchStep(cfg, s, s', e) && !BeforeAttempt(e) && !e.CallCheck? && !e.CallReceive? && !Failure(e)
    requires NoCallFailed(s) && c in s'.calls
    ensures s'.calls[c].pc != Returned(None)
  {
    hide LooksUp, Receives, Delivered, AddChunk, Zeroes, AttemptFailed;
  }

  lemma FetchKeepsCall(cfg: Config, s: State, s': State, e: Step, c: nat)
    requires FetchStep(cfg, s, s', e) && !Failure(e) && NoCallFailed(s) && c in s'.calls
    ensures s'.calls[c].pc != Returned(None)
  {
    if e.CallReceive? {
      hide Receives, NoCallFailed;
      ReceiveKeepsCall(cfg, s, s', e.c, c);
    } else if e.CallCheck? {
      hide LooksUp, NoCallFailed;
      LookUpKeepsCall(s, s', e.c, c);
    } else if BeforeAttempt(e) {
      hide FetchStep;
      BeforeAttemptKeepsCall(cfg, s, s', e, c);
    } else {
      hide FetchStep;
      AfterAttemptKeepsCall(cfg, s, s', e, c);
    }
  }

  lemma FetchKeepsAttempts(cfg: Config, s: State, s': State, e: Step)
    requires FetchStep(cfg, s, s', e) && !Failure(e) && NoCallFailed(s)
    ensures forall a | a in s'.attempts && s'.attempts[a].status.Finished? :: s'.attempts[a].status.ok
  {
    hide Delivered, AddChunk, Zeroes, SetCall, EndCall, AttemptFailed;
  }

  lemma FetchKeepsCalls(cfg: Config, s: State, s': State, e: Step)
    requires FetchStep(cfg, s, s', e) && !Failure(e) && NoCallFailed(s)
    ensures NoCallFailed(s')
  {
    hide FetchStep;
    FetchKeepsAttempts(cfg, s, s', e);
    forall c | c in s'.calls ensures s'.calls[c].pc != Returned(None) {
      FetchKeepsCall(cfg, s, s', e, c);
    }
  }

  lemma OtherStepsKeepCalls(cfg: Config, s: State, s': State, e: Step)
    requires ValidConfig(cfg) && (HelperStep(cfg, s, s', e) || CloseStep(s, s', e)) && NoCallFailed(s)
    ensures NoCallFailed(s')
  {
    hide HelperStep;
    if HelperStep(cfg, s, s', e) {
      var t := HelperMoves(cfg, s, s', e);
    }
  }

  lemma SchedulingLeavesCalls(cfg: Config, s: State, s': State, e: Step)
    requires ValidConfig(cfg) && ReaderStep(cfg, s, s', e) && Schedules(e)
    ensures SameFetches(s, s')
  {
    if e.Start? {
      hide Starts;
      StartMoves(cfg, s, s', e.t);
    } else {
      hide StartChunk, EndChunk, WindowEnd, ReadAheadLimit, Proceeds;
    }
  }

  lemma ReadingLeavesCalls(cfg: Config, s: State, s': State, e: Step)
    requires ValidConfig(cfg) && ReaderStep(cfg, s, s', e) && !Schedules(e) && !e.Lead?
    ensures SameFetches(s, s')
  {
    hide Starts, Resumes, CopiesBytes;
    if e.Resume? {
      ResumeMoves(s, s', e.t);
    } else if e.CopyBytes? {
      CopyThread(cfg, s, s', e.t);
    } else {
      hide StartChunk, EndChunk, LoopGoesOn, Answer;
    }
  }

  lemma ReaderKeepsCalls(cfg: Config, s: State, s': State, e: Step)
    requires ValidConfig(cfg) && ReaderStep(cfg, s, s', e) && NoCallFailed(s)
    ensures NoCallFailed(s')
  {
    if Schedules(e) {
      hide ReaderStep;
      SchedulingLeavesCalls(cfg, s, s', e);
    } else if !e.Lead? {
      hide ReaderStep;
      ReadingLeavesCalls(cfg, s, s', e);
    }
  }

  lemma StartNotFailed(cfg: Config, s: State, s': State, r: nat, t: nat)
    requires ValidConfig(cfg) && Starts(cfg, s, s', r) && NotFailed(s, t)
    ensures NotFailed(s', t)
  {
    hide Starts;
    StartMoves(cfg, s, s', r);
  }

  lemma ScheduleNotFailed(cfg: Config, s: State, s': State, e: Step, t: nat)
    requires ValidConfig(cfg) && ReaderStep(cfg, s, s', e) && Schedules(e) && !e.Start? && NotFailed(s, t)
    ensures NotFailed(s', t)
  {
    hide StartChunk, EndChunk, WindowEnd, ReadAheadLimit, CopyRound, ValidateRead, Overruns, Proceeds, EvictBefore,
        LoopGoesOn;
  }

  lemma CopyNotFailed(cfg: Config, s: State, s': State, r: nat, t: nat)
    requires ValidConfig(cfg) && CopiesBytes(cfg, s, s', r) && NotFailed(s, t)
    ensures NotFailed(s', t)
  {
    hide CopiesBytes;
    CopyThread(cfg, s, s', r);
    CopyOutcome(cfg, s, s', r);
  }

  lemma PlainReaderNotFailed(cfg: Config, s: State, s': State, e: Step, t: nat)
    requires ValidConfig(cfg) && ReaderStep(cfg, s, s', e) && !Schedules(e) && !e.Resume? && NotFailed(s, t)
    ensures NotFailed(s', t)
  {
    hide Starts, Resumes, CopiesBytes;
    if e.CopyBytes? {
      CopyNotFailed(cfg, s, s', e.t, t);
    } else {
      hide StartChunk, EndChunk, ValidateRead, Overruns, Proceeds, LoopGoesOn;
    }
  }

  lemma ReaderNotFailed(cfg: Config, s: State, s': State, e: Step, t: nat)
    requires ValidConfig(cfg) && ReaderStep(cfg, s, s', e) && !Schedules(e) && NoCallFailed(s) && NotFailed(s, t)
    ensures NotFailed(s', t)
  {
    hide ReaderStep, Resumes;
    if e.Resume? {
      StepsAre(cfg, s, s', e);
      ResumeMoves(s, s', e.t);
    } else {
      PlainReaderNotFailed(cfg, s, s', e, t);
    }
  }

  lemma OtherNotFailed(cfg: Config, s: State, s': State, e: Step, t: nat)
    requires ValidConfig(cfg) && NotFailed(s, t)
    requires HelperStep(cfg, s, s', e) || FetchStep(cfg, s, s', e) || CloseStep(s, s', e)
    ensures NotFailed(s', t)
  {
    hide HelperStep, FetchStep;
    if HelperStep(cfg, s, s', e) {
      var u := HelperMoves(cfg, s, s', e);
    } else if FetchStep(cfg, s, s', e) {
      FetchKeepsThreads(cfg, s, s', e);
    }
  }

  lemma NotFailedStep(cfg: Config, s: State, s': State, e: Step, t: nat)
    requires ValidConfig(cfg) && Next(cfg, s, s', e) && !Failure(e) && NoCallFailed(s) && NotFailed(s, t)
    ensures NoCallFailed(s') && NotFailed(s', t)
  {
    hide ReaderStep, HelperStep, FetchStep, CloseStep, NoCallFailed, NotFailed;
    if ReaderStep(cfg, s, s', e) {
      ReaderKeepsCalls(cfg, s, s', e);
      if e.Start? {
        StepsAre(cfg, s, s', e);
        StartNotFailed(cfg, s, s', e.t, t);
      } else if Schedules(e) {
        ScheduleNotFailed(cfg, s, s', e, t);
      } else {
        ReaderNotFailed(cfg, s, s', e, t);
      }
    } else {
      OtherNotFailed(cfg, s, s', e, t);
      if FetchStep(cfg, s, s', e) {
        FetchKeepsCalls(cfg, s, s', e);
      } else {
        OtherStepsKeepCalls(cfg, s, s', e);
      }
    }
  }

  /** A read fails only in a run in which some fetch timed out, was shut down or failed. */
  lemma {:induction false} ReadsFailOnlyAfterFailures(cfg: Config, run: seq<State>, steps: seq<Step>, i: nat, t: nat)
    requires ValidConfig(cfg) && IsRun(cfg, run, steps) && i < |run|
    requires forall k | 0 <= k < i && k < |steps| :: !Failure(steps[k])
    ensures NoCallFailed(run[i]) && NotFailed(run[i], t)
  {
    if i > 0 {
      hide Next, IsRun, NoCallFailed, NotFailed;
      ReadsFailOnlyAfterFailures(cfg, run, steps, i - 1, t);
      RunStep(cfg, run, steps, i - 1);
      NotFailedStep(cfg, run[i - 1], run[i], steps[i - 1], t);
    }
  }
}
