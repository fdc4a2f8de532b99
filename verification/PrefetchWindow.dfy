/** The window, the cache and the fetches as a whole, in every run of the prefetcher. */
module PrefetchWindow {
  import opened Basics
  import opened Prefetch
  import opened PrefetchInvariant
  import opened PrefetchRetries
  import opened PrefetchRuns
  import opened PrefetchSteps
  import opened PrefetchTheorems

  // ---- one fetch at a time for each chunk ----

  /** Two fetches of one chunk that have not returned are the same fetch. */
  lemma OneFetchPerChunk(cfg: Config, run: seq<State>, steps: seq<Step>, i: nat, c: nat, d: nat)
    requires ValidConfig(cfg) && IsRun(cfg, run, steps) && i < |run| && c in run[i].calls && d in run[i].calls
    requires !run[i].calls[c].pc.Returned? && !run[i].calls[d].pc.Returned?
    requires run[i].calls[c].index == run[i].calls[d].index
    ensures c == d
  {
    hide IsRun, ThreadsOk, AttemptsOk, CacheOk, TokensOk;
    RunKeeps(cfg, run, steps, i);
    assert CallInv(cfg, run[i], c) && CallInv(cfg, run[i], d);
  }

  // ---- the window follows the reads ----

  /** The reader is past the check of its request and past moving the window. */
  predicate Beyond(pc: ReaderPc) {
    !pc.Invoked? && !pc.Entered? && (pc.Answered? ==> !pc.err.PrefetcherClosed?)
  }

  ghost predicate Past(s: State, t: nat, req: Request) {
    IsReader(s, t) && s.threads[t].req == req && Beyond(s.threads[t].rpc)
  }

  /** The window begins at the furthest beginning of a read so far. */
  ghost predicate WindowOk(cfg: Config, s: State)
    requires ValidConfig(cfg)
  {
    && (forall t, req | Past(s, t, req) && Asks(cfg, req.off, req.len) :: req.off / cfg.chunkSize <= s.minIndex)
    && (s.minIndex == 0 || exists t, req ::
          Past(s, t, req) && Asks(cfg, req.off, req.len) && req.off / cfg.chunkSize == s.minIndex)
  }

  /** The step starts no read and leaves the window alone. */
  ghost predicate SameWindow(s: State, s': State) {
    s'.minIndex == s.minIndex && forall t, req :: Past(s', t, req) <==> Past(s, t, req)
  }

  lemma SameWindowKeeps(cfg: Config, s: State, s': State)
    requires ValidConfig(cfg) && WindowOk(cfg, s) && SameWindow(s, s')
    ensures WindowOk(cfg, s')
  {
    hide Past, Asks;
  }

  /** One reader moves on, and perhaps a helper starts. */
  lemma ReaderMovesOn(s: State, s': State, t: nat)
    requires s'.minIndex == s.minIndex && IsReader(s, t) && IsReader(s', t)
    requires s'.threads[t].req == s.threads[t].req && Beyond(s'.threads[t].rpc) == Beyond(s.threads[t].rpc)
    requires forall u | u != t && (IsReader(s, u) || IsReader(s', u)) ::
               u in s.threads && u in s'.threads && s'.threads[u] == s.threads[u]
    ensures SameWindow(s, s')
  {
    hide Beyond;
  }

  lemma SchedulingMovesOn(cfg: Config, s: State, s': State, e: Step)
    requires ValidConfig(cfg) && ReaderStep(cfg, s, s', e) && Schedules(e) && !e.Start?
    ensures SameWindow(s, s')
  {
    hide StartChunk, EndChunk, WindowEnd, ReadAheadLimit, Proceeds, SameWindow;
    ReaderMovesOn(s, s', e.t);
  }

  lemma CopyGoesBeyond(cfg: Config, s: State, s': State, t: nat)
    requires ValidConfig(cfg) && CopiesBytes(cfg, s, s', t)
    ensures s'.minIndex == s.minIndex && IsReader(s', t)
    ensures s'.threads[t].req == s.threads[t].req && Beyond(s'.threads[t].rpc)
  {
    hide CopyRound;
    var Reader(req, Using(index, out, ch)) := s.threads[t];
    var round := CopyRound(cfg, req, index, out, s.buffers[ch.buffer][..ch.size]);
    if round.Some? {
      assert s' == SetThread(s, t, Reader(req, Copying(index + 1, round.value)));
    } else {
      assert s' == Leave(s, t, Reader(req, Answer(cfg, req, out)));
    }
    hide CopiesBytes;
  }

  lemma CopyMovesOn(cfg: Config, s: State, s': State, t: nat)
    requires ValidConfig(cfg) && CopiesBytes(cfg, s, s', t)
    ensures SameWindow(s, s')
  {
    hide CopiesBytes, SameWindow;
    CopyThread(cfg, s, s', t);
    CopyGoesBeyond(cfg, s, s', t);
    ReaderMovesOn(s, s', t);
  }

  lemma ResumeGoesBeyond(s: State, s': State, t: nat)
    requires Resumes(s, s', t)
    ensures s'.minIndex == s.minIndex && IsReader(s', t)
    ensures s'.threads[t].req == s.threads[t].req && Beyond(s'.threads[t].rpc)
  {
    var Reader(req, Fetching(index, out, c)) := s.threads[t];
    var result := s.calls[c].pc.result;
    if result.Some? {
      assert s' == SetThread(s, t, Reader(req, Using(index, out, result.value)));
    } else {
      assert s' == Leave(s, t, Reader(req, Answered(out, FetchFailed)));
    }
    hide Resumes;
  }

  lemma ResumeMovesOn(s: State, s': State, t: nat)
    requires Resumes(s, s', t)
    ensures SameWindow(s, s')
  {
    hide Resumes, SameWindow;
    ResumeMoves(s, s', t);
    ResumeGoesBeyond(s, s', t);
    ReaderMovesOn(s, s', t);
  }

  lemma ReadingMovesOn(cfg: Config, s: State, s': State, e: Step)
    requires ValidConfig(cfg) && ReaderStep(cfg, s, s', e) && OfCopying(e)
    ensures SameWindow(s, s')
  {
    hide Resumes, CopiesBytes, SameWindow;
    if e.Resume? {
      ResumeMovesOn(s, s', e.t);
    } else if e.CopyBytes? {
      CopyMovesOn(cfg, s, s', e.t);
    } else {
      hide StartChunk, EndChunk, LoopGoesOn;
      ReaderMovesOn(s, s', e.t);
    }
  }

  lemma EnteringMovesOn(cfg: Config, s: State, s': State, e: Step)
    requires ValidConfig(cfg) && ReaderStep(cfg, s, s', e) && (e.Invoke? || e.Enter?)
    ensures SameWindow(s, s')
  {
    assert s'.threads == s.threads[e.t := s'.threads[e.t]];
  }

  lemma HelperLeavesWindow(cfg: Config, s: State, s': State, e: Step)
    requires HelperStep(cfg, s, s', e)
    ensures s'.minIndex == s.minIndex
  {
    hide AddChunk, Delivered, Zeroes;
  }

  lemma FetchLeavesWindow(cfg: Config, s: State, s': State, e: Step)
    requires FetchStep(cfg, s, s', e)
    ensures s'.minIndex == s.minIndex
  {
    hide AddChunk, Delivered, Zeroes, SetCall, EndCall, AttemptFailed;
  }

  lemma OthersLeaveWindow(cfg: Config, s: State, s': State, e: Step)
    requires HelperStep(cfg, s, s', e) || FetchStep(cfg, s, s', e) || CloseStep(s, s', e)
    ensures SameWindow(s, s')
  {
    hide HelperStep, FetchStep;
    if HelperStep(cfg, s, s', e) {
      var t := HelperMoves(cfg, s, s', e);
      HelperLeavesWindow(cfg, s, s', e);
    } else if FetchStep(cfg, s, s', e) {
      FetchKeepsThreads(cfg, s, s', e);
      FetchLeavesWindow(cfg, s, s', e);
    }
  }

  /** A read that asks for bytes moves the window to its first chunk, never back. */
  lemma StartMovesWindow(cfg: Config, s: State, s': State, t: nat)
    requires ValidConfig(cfg) && Starts(cfg, s, s', t)
    ensures var req := s.threads[t].req;
            && s'.minIndex == (if Asks(cfg, req.off, req.len) && req.off / cfg.chunkSize > s.minIndex
                               then req.off / cfg.chunkSize else s.minIndex)
            && forall u, r :: Past(s', u, r) <==> Past(s, u, r) || (u == t && r == req)
  {
    StartThread(cfg, s, s', t);
    StartMinIndex(cfg, s, s', t);
    StartGoesBeyond(cfg, s, s', t);
    hide Starts, Beyond, Asks;
    assert !Beyond(s.threads[t].rpc) by { EnteredNotBeyond(); }
  }

  lemma EnteredNotBeyond()
    ensures !Beyond(Entered)
  {
  }

  lemma StartMinIndex(cfg: Config, s: State, s': State, t: nat)
    requires ValidConfig(cfg) && Starts(cfg, s, s', t)
    ensures var req := s.threads[t].req;
            s'.minIndex == if Asks(cfg, req.off, req.len) && req.off / cfg.chunkSize > s.minIndex
                           then req.off / cfg.chunkSize else s.minIndex
  {
    ReadSpecIsExpected(cfg, s.threads[t].req, 0, NoErr);
    hide Asks, Proceeds, Overruns, Expected, ReadSpec;
  }

  lemma StartGoesBeyond(cfg: Config, s: State, s': State, t: nat)
    requires ValidConfig(cfg) && Starts(cfg, s, s', t) && IsReader(s', t)
    ensures s'.threads[t].req == s.threads[t].req && Beyond(s'.threads[t].rpc)
  {
    hide StartChunk, Overruns;
    var req := s.threads[t].req;
    assert s'.threads[t] == Reader(req, s'.threads[t].rpc);
  }

  lemma StartWindow(cfg: Config, s: State, s': State, t: nat)
    requires ValidConfig(cfg) && WindowOk(cfg, s) && Starts(cfg, s, s', t)
    ensures WindowOk(cfg, s')
  {
    StartMovesWindow(cfg, s, s', t);
    hide Starts, Past, Asks;
    var req := s.threads[t].req;
    assert Past(s', t, req);
    if s'.minIndex == s.minIndex != 0 {
      var u, r :| Past(s, u, r) && Asks(cfg, r.off, r.len) && r.off / cfg.chunkSize == s.minIndex;
      assert Past(s', u, r);
    }
  }

  lemma WindowStep(cfg: Config, s: State, s': State, e: Step)
    requires ValidConfig(cfg) && WindowOk(cfg, s) && Next(cfg, s, s', e)
    ensures WindowOk(cfg, s')
  {
    hide WindowOk, ReaderStep, HelperStep, FetchStep, CloseStep, SameWindow, Starts;
    if ReaderStep(cfg, s, s', e) && e.Start? {
      StepsAre(cfg, s, s', e);
      StartWindow(cfg, s, s', e.t);
    } else {
      if ReaderStep(cfg, s, s', e) {
        if Schedules(e) {
          SchedulingMovesOn(cfg, s, s', e);
        } else if OfCopying(e) {
          ReadingMovesOn(cfg, s, s', e);
        } else {
          ReaderKinds(cfg, s, s', e);
          EnteringMovesOn(cfg, s, s', e);
        }
      } else {
        OthersLeaveWindow(cfg, s, s', e);
      }
      SameWindowKeeps(cfg, s, s');
    }
  }

  lemma ReaderKinds(cfg: Config, s: State, s': State, e: Step)
    requires ValidConfig(cfg) && ReaderStep(cfg, s, s', e) && !Schedules(e) && !OfCopying(e)
    ensures e.Invoke? || e.Enter?
  {
  }

  /** In every state of every run the window begins at the furthest beginning of the reads that have started,
      and the cache holds nothing before it. */
  lemma {:induction false} WindowFollowsReads(cfg: Config, run: seq<State>, steps: seq<Step>, i: nat)
    requires ValidConfig(cfg) && IsRun(cfg, run, steps) && i < |run|
    ensures WindowOk(cfg, run[i])
    ensures forall index | index in run[i].cache :: run[i].minIndex <= index
  {
    if i > 0 {
      hide WindowOk, Next, IsRun;
      WindowFollowsReads(cfg, run, steps, i - 1);
      RunStep(cfg, run, steps, i - 1);
      WindowStep(cfg, run[i - 1], run[i], steps[i - 1]);
    }
    CachedInWindow(cfg, run, steps, i);
  }

  lemma CachedInWindow(cfg: Config, run: seq<State>, steps: seq<Step>, i: nat)
    requires ValidConfig(cfg) && IsRun(cfg, run, steps) && i < |run|
    ensures forall index | index in run[i].cache :: run[i].minIndex <= index
  {
    hide IsRun;
    RunKeeps(cfg, run, steps, i);
  }

  // ---- a cached chunk is not read again ----

  /** The fetch, if there is one, has not looked yet or was answered from the cache; it has read nothing. */
  ghost predicate Spared(s: State, c: nat) {
    && AttemptsOf(s, c) == {}
    && (c in s.calls ==> s.calls[c].pc == Checking || (s.calls[c].pc.Returned? && s.calls[c].pc.result.Some?))
  }

  lemma OtherPcSpared(s: State, s': State, d: nat, pc: CallPc, c: nat)
    requires OnlyPc(s, s', d, pc) && Spared(s, c) && (c == d ==> pc.Returned? && pc.result.Some?)
    ensures Spared(s', c)
  {
    assert AttemptsOf(s', c) == AttemptsOf(s, c);
  }

  lemma AsideSpared(s: State, s': State, c: nat)
    requires Aside(s, s', c) && Spared(s, c)
    ensures Spared(s', c)
  {
  }

  lemma FetchSpares(cfg: Config, s: State, s': State, e: Step, c: nat)
    requires FetchStep(cfg, s, s', e) && Spared(s, c) && (c in s.calls ==> s.calls[c].index in s.cache)
    ensures Spared(s', c)
  {
    hide LooksUp, Receives, OnlyPc, Delivered, Zeroes, AddChunk, AttemptFailed, EndCall, SetCall, Spared;
    if e.CallCheck? {
      LookUpSpares(s, s', e.c, c);
    } else if e.CallReceive? {
      var pc := ReceivePc(cfg, s, s', e.c);
      NotSpared(s, e.c, c);
      OtherPcSpared(s, s', e.c, pc, c);
    } else if e.CallTimeout? {
      TimeoutPc(cfg, s, s', e.c);
      NotSpared(s, e.c, c);
      OtherPcSpared(s, s', e.c, s'.calls[e.c].pc, c);
    } else if e.CallAttempt? {
      AttemptAdds(cfg, s, s', e.c, e.a);
      NotSpared(s, e.c, c);
      AddsToNoOther(s, s', e.c, e.a, c);
      AsideSpared(s, s', c);
    } else if e.CallAcquire? || e.CallGiveUp? || e.CallStore? || e.CallReturn? {
      EndingPc(cfg, s, s', e);
      NotSpared(s, e.c, c);
      OtherPcSpared(s, s', e.c, s'.calls[e.c].pc, c);
    } else {
      AttemptSpares(cfg, s, s', e, c);
    }
  }

  lemma NotSpared(s: State, d: nat, c: nat)
    requires d in s.calls && s.calls[d].pc != Checking && !s.calls[d].pc.Returned? && Spared(s, c)
    ensures c != d
  {
  }

  lemma LookUpSpares(s: State, s': State, d: nat, c: nat)
    requires LooksUp(s, s', d) && Spared(s, c) && (c in s.calls ==> s.calls[c].index in s.cache)
    ensures Spared(s', c)
  {
    hide OnlyPc, SetCall;
    var pc := LookUpPc(s, s', d);
    if c == d {
      EndCallPc(s, c, Some(s.cache[s.calls[c].index]));
      OtherPcSpared(s, s', d, Returned(Some(s.cache[s.calls[c].index])), c);
    } else {
      OtherPcSpared(s, s', d, pc, c);
    }
  }

  lemma AttemptSpares(cfg: Config, s: State, s': State, e: Step, c: nat)
    requires FetchStep(cfg, s, s', e) && (e.AttemptWrite? || e.AttemptFinish?) && Spared(s, c)
    ensures Spared(s', c)
  {
    hide Delivered;
    assert AttemptsOf(s', c) == AttemptsOf(s, c);
  }

  lemma SparedStep(cfg: Config, s: State, s': State, e: Step, c: nat)
    requires ValidConfig(cfg) && Inv(cfg, s) && Next(cfg, s, s', e) && Spared(s, c)
    requires c in s.calls ==> s.calls[c].index in s.cache
    ensures Spared(s', c)
  {
    hide Inv, Aside, ReaderStep, HelperStep, FetchStep, CloseStep, Spared;
    assert s.closed ==> s'.closed by { NextKeeps(cfg, s, s', e); }
    if FetchStep(cfg, s, s', e) {
      FetchSpares(cfg, s, s', e, c);
    } else {
      if ReaderStep(cfg, s, s', e) {
        ReaderAside(cfg, s, s', e, c);
      } else {
        OthersAside(cfg, s, s', e, c);
      }
      AsideSpared(s, s', c);
    }
  }

  /** While a chunk stays in the cache, fetches of it that begin meanwhile never read from the underlying
      reader and never fail. */
  lemma {:induction false} CachedChunksAreNotReadAgain(cfg: Config, run: seq<State>, steps: seq<Step>, i: nat, j: nat,
      c: nat, index: nat)
    requires ValidConfig(cfg) && IsRun(cfg, run, steps) && i <= j < |run| && c !in run[i].calls
    requires forall k | i <= k <= j :: index in run[k].cache
    requires forall k | i <= k <= j && c in run[k].calls :: run[k].calls[c].index == index
    ensures Spared(run[j], c)
    decreases j
  {
    hide IsRun, Inv, Next;
    if i == j {
      RunCounted(cfg, run, steps, i);
      assert Counted(cfg, run[i], c);
    } else {
      hide Spared;
      CachedChunksAreNotReadAgain(cfg, run, steps, i, j - 1, c, index);
      RunKeeps(cfg, run, steps, j - 1);
      RunStep(cfg, run, steps, j - 1);
      SparedStep(cfg, run[j - 1], run[j], steps[j - 1], c);
    }
  }
}
