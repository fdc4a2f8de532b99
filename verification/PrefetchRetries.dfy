/** Why a read can fail: how often a fetch is attempted before it gives up. */
module PrefetchRetries {
  import opened Basics
  import opened Prefetch
  import opened PrefetchInvariant
  import opened PrefetchRuns
  import opened PrefetchSteps
  import opened PrefetchTheorems

  ghost function AttemptsOf(s: State, c: nat): set<nat> {
    set a | a in s.attempts && s.attempts[a].call == c
  }

  /** The attempt has failed, or its call has given up on it. */
  ghost predicate IsGone(s: State, a: nat) {
    a in s.abandoned || (a in s.attempts && s.attempts[a].status.Finished? && !s.attempts[a].status.ok)
  }

  ghost predicate AllGone(s: State, c: nat) { forall a | a in AttemptsOf(s, c) :: IsGone(s, a) }

  /** A call fails when it never got to attempt anything, at shutdown, or after all its attempts;
      in each case none of its attempts is left. */
  ghost predicate FailedFor(cfg: Config, s: State, c: nat) {
    && AllGone(s, c)
    && (AttemptsOf(s, c) == {} || s.closed || |AttemptsOf(s, c)| == cfg.maxRetries + 1)
  }

  /** How many attempts a call has behind it at each point. */
  ghost predicate Counted(cfg: Config, s: State, c: nat) {
    if c !in s.calls then AttemptsOf(s, c) == {}
    else
      match s.calls[c].pc
      case Checking => AttemptsOf(s, c) == {}
      case Acquiring => AttemptsOf(s, c) == {}
      case Holding(started) => AllGone(s, c) && |AttemptsOf(s, c)| == started <= cfg.maxRetries
      case Awaiting(started, attempt) =>
        && |AttemptsOf(s, c)| == started <= cfg.maxRetries + 1
        && forall a | a in AttemptsOf(s, c) && a != attempt :: IsGone(s, a)
      case Returned(result) => result == None ==> FailedFor(cfg, s, c)
      case _ => true
  }

  // ---- steps that concern no attempt of the call ----

  /** The call and its attempts are as before, or the call is new. */
  ghost predicate Aside(s: State, s': State, c: nat) {
    && AttemptsOf(s', c) == AttemptsOf(s, c)
    && (forall a | IsGone(s, a) :: IsGone(s', a))
    && (s.closed ==> s'.closed)
    && (if c in s.calls then c in s'.calls && s'.calls[c] == s.calls[c]
        else c in s'.calls ==> s'.calls[c].pc == Checking)
  }

  lemma AsideKeeps(cfg: Config, s: State, s': State, c: nat)
    requires Counted(cfg, s, c) && Aside(s, s', c)
    ensures Counted(cfg, s', c)
  {
  }

  lemma SameFetchesAside(s: State, s': State, c: nat)
    requires SameFetches(s, s') && (s.closed ==> s'.closed)
    ensures Aside(s, s', c)
  {
  }

  lemma LeadAside(cfg: Config, s: State, s': State, t: nat, d: nat, c: nat)
    requires ValidConfig(cfg) && ReaderStep(cfg, s, s', Lead(t, d))
    ensures Aside(s, s', c)
  {
    hide LoopGoesOn;
    assert s'.attempts == s.attempts && s'.abandoned == s.abandoned && s'.closed == s.closed;
  }

  lemma ReaderAside(cfg: Config, s: State, s': State, e: Step, c: nat)
    requires ValidConfig(cfg) && ReaderStep(cfg, s, s', e) && (s.closed ==> s'.closed)
    ensures Aside(s, s', c)
  {
    hide ReaderStep, SameFetches, Aside;
    if Schedules(e) {
      SchedulingLeavesCalls(cfg, s, s', e);
      SameFetchesAside(s, s', c);
    } else if e.Lead? {
      LeadAside(cfg, s, s', e.t, e.c, c);
    } else {
      ReadingLeavesCalls(cfg, s, s', e);
      SameFetchesAside(s, s', c);
    }
  }

  lemma OthersAside(cfg: Config, s: State, s': State, e: Step, c: nat)
    requires (HelperStep(cfg, s, s', e) || CloseStep(s, s', e)) && (s.closed ==> s'.closed)
    ensures Aside(s, s', c)
  {
    hide HelperStep;
    if HelperStep(cfg, s, s', e) {
      var t := HelperMoves(cfg, s, s', e);
    }
  }

  // ---- steps of a call and of an attempt ----

  /** Only the program counter of the call changes. */
  ghost predicate OnlyPc(s: State, s': State, c: nat, pc: CallPc) {
    && c in s.calls && s'.calls == s.calls[c := s.calls[c].(pc := pc)]
    && s'.attempts == s.attempts && s.abandoned <= s'.abandoned && s'.closed == s.closed
  }

  lemma OnlyPcKeeps(cfg: Config, s: State, s': State, c: nat, pc: CallPc, d: nat)
    requires OnlyPc(s, s', c, pc) && Counted(cfg, s, d) && (d == c ==> Counted(cfg, s', d))
    ensures Counted(cfg, s', d)
  {
    if d != c {
      assert Aside(s, s', d);
    }
  }

  lemma SetCallPc(s: State, c: nat, pc: CallPc)
    requires c in s.calls
    ensures OnlyPc(s, SetCall(s, c, pc), c, pc)
  {
  }

  lemma EndCallPc(s: State, c: nat, result: Option<Chunk>)
    requires c in s.calls
    ensures OnlyPc(s, EndCall(s, c, result), c, Returned(result))
  {
  }

  lemma LookUpPc(s: State, s': State, c: nat) returns (pc: CallPc)
    requires LooksUp(s, s', c)
    ensures OnlyPc(s, s', c, pc) && s.calls[c].pc == Checking
    ensures pc == Acquiring || (pc.Returned? && pc.result.Some?)
  {
    hide OnlyPc, SetCall, EndCall;
    if s.calls[c].index in s.cache {
      pc := Returned(Some(s.cache[s.calls[c].index]));
      EndCallPc(s, c, pc.result);
    } else {
      pc := Acquiring;
      SetCallPc(s, c, pc);
    }
  }

  lemma LookUpCounted(cfg: Config, s: State, s': State, c: nat, d: nat)
    requires LooksUp(s, s', c) && Counted(cfg, s, c) && Counted(cfg, s, d)
    ensures Counted(cfg, s', d)
  {
    hide LooksUp;
    var pc := LookUpPc(s, s', c);
    assert AttemptsOf(s', c) == AttemptsOf(s, c);
    OnlyPcKeeps(cfg, s, s', c, pc, d);
  }

  lemma AcquireCounted(cfg: Config, s: State, s': State, c: nat, d: nat)
    requires FetchStep(cfg, s, s', CallAcquire(c)) && Counted(cfg, s, c) && Counted(cfg, s, d)
    ensures Counted(cfg, s', d)
  {
    assert OnlyPc(s, s', c, Holding(0));
    assert AttemptsOf(s', c) == AttemptsOf(s, c);
    OnlyPcKeeps(cfg, s, s', c, Holding(0), d);
  }

  lemma GiveUpCounted(cfg: Config, s: State, s': State, c: nat, d: nat)
    requires FetchStep(cfg, s, s', CallGiveUp(c)) && Counted(cfg, s, c) && Counted(cfg, s, d)
    ensures Counted(cfg, s', d)
  {
    assert OnlyPc(s, s', c, Returned(None));
    assert AttemptsOf(s', c) == AttemptsOf(s, c);
    OnlyPcKeeps(cfg, s, s', c, Returned(None), d);
  }

  lemma StoreCounted(cfg: Config, s: State, s': State, e: Step, d: nat)
    requires FetchStep(cfg, s, s', e) && (e.CallStore? || e.CallReturn?) && Counted(cfg, s, d)
    ensures Counted(cfg, s', d)
  {
    hide AddChunk;
    assert OnlyPc(s, s', e.c, s'.calls[e.c].pc);
    OnlyPcKeeps(cfg, s, s', e.c, s'.calls[e.c].pc, d);
  }

  /** A new attempt of the call, which waits for it. */
  ghost predicate AddsAttempt(s: State, s': State, c: nat, a: nat) {
    && c in s.calls && s.calls[c].pc.Holding? && a !in s.attempts && a in s'.attempts
    && s'.calls == s.calls[c := s.calls[c].(pc := Awaiting(s.calls[c].pc.started + 1, a))]
    && s'.attempts == s.attempts[a := s'.attempts[a]] && s'.attempts[a].call == c
    && s'.abandoned == s.abandoned && s'.closed == s.closed
  }

  lemma AttemptAdds(cfg: Config, s: State, s': State, c: nat, a: nat)
    requires FetchStep(cfg, s, s', CallAttempt(c, a))
    ensures AddsAttempt(s, s', c, a)
  {
    hide Zeroes;
  }

  lemma AddsToOwn(cfg: Config, s: State, s': State, c: nat, a: nat)
    requires AddsAttempt(s, s', c, a) && Counted(cfg, s, c)
    ensures Counted(cfg, s', c)
  {
    assert AttemptsOf(s', c) == AttemptsOf(s, c) + {a};
  }

  lemma AddsToNoOther(s: State, s': State, c: nat, a: nat, d: nat)
    requires AddsAttempt(s, s', c, a) && d != c
    ensures Aside(s, s', d)
  {
    assert AttemptsOf(s', d) == AttemptsOf(s, d);
  }

  lemma AttemptCounted(cfg: Config, s: State, s': State, c: nat, a: nat, d: nat)
    requires FetchStep(cfg, s, s', CallAttempt(c, a)) && Counted(cfg, s, c) && Counted(cfg, s, d)
    ensures Counted(cfg, s', d)
  {
    hide FetchStep, Counted, AddsAttempt;
    AttemptAdds(cfg, s, s', c, a);
    if d == c {
      AddsToOwn(cfg, s, s', c, a);
    } else {
      AddsToNoOther(s, s', c, a, d);
      AsideKeeps(cfg, s, s', d);
    }
  }

  /** An attempt that failed or was given up on: the last one, or the call goes on. */
  lemma AttemptFailedCounted(cfg: Config, s: State, s': State, c: nat, d: nat)
    requires c in s.calls && s.calls[c].pc.Awaiting? && Counted(cfg, s, c) && Counted(cfg, s, d)
    requires var started := s.calls[c].pc.started;
             OnlyPc(s, s', c, if started <= cfg.maxRetries then Holding(started) else Returned(None))
    requires IsGone(s', s.calls[c].pc.attempt)
    ensures Counted(cfg, s', d)
  {
    assert AttemptsOf(s', c) == AttemptsOf(s, c);
    OnlyPcKeeps(cfg, s, s', c, s'.calls[c].pc, d);
  }

  lemma TimeoutCounted(cfg: Config, s: State, s': State, c: nat, d: nat)
    requires FetchStep(cfg, s, s', CallTimeout(c)) && Counted(cfg, s, c) && Counted(cfg, s, d)
    ensures Counted(cfg, s', d)
  {
    hide Counted;
    AttemptFailedCounted(cfg, s, s', c, d);
  }

  lemma ReceiveCounted(cfg: Config, s: State, s': State, c: nat, d: nat)
    requires Receives(cfg, s, s', c) && Counted(cfg, s, c) && Counted(cfg, s, d)
    ensures Counted(cfg, s', d)
  {
    var Awaiting(started, a) := s.calls[c].pc;
    if s.attempts[a].status.ok {
      assert OnlyPc(s, s', c, s'.calls[c].pc);
      OnlyPcKeeps(cfg, s, s', c, s'.calls[c].pc, d);
    } else {
      hide Counted;
      AttemptFailedCounted(cfg, s, s', c, d);
    }
  }

  lemma AttemptStepCounted(cfg: Config, s: State, s': State, e: Step, d: nat)
    requires FetchStep(cfg, s, s', e) && (e.AttemptWrite? || e.AttemptFinish?) && Counted(cfg, s, d)
    ensures Counted(cfg, s', d)
  {
    hide Delivered, Counted;
    assert AttemptsOf(s', d) == AttemptsOf(s, d);
    AsideKeeps(cfg, s, s', d);
  }

  lemma FetchCounted(cfg: Config, s: State, s': State, e: Step, d: nat)
    requires FetchStep(cfg, s, s', e) && forall c :: Counted(cfg, s, c)
    ensures Counted(cfg, s', d)
  {
    hide Counted, LooksUp, Receives;
    match e
    case CallCheck(c) => LookUpCounted(cfg, s, s', c, d);
    case CallAcquire(c) => AcquireCounted(cfg, s, s', c, d);
    case CallGiveUp(c) => GiveUpCounted(cfg, s, s', c, d);
    case CallAttempt(c, a) => AttemptCounted(cfg, s, s', c, a, d);
    case CallTimeout(c) => TimeoutCounted(cfg, s, s', c, d);
    case CallReceive(c) => ReceiveCounted(cfg, s, s', c, d);
    case CallStore(_, _) => StoreCounted(cfg, s, s', e, d);
    case CallReturn(_) => StoreCounted(cfg, s, s', e, d);
    case AttemptWrite(_, _) => AttemptStepCounted(cfg, s, s', e, d);
    case AttemptFinish(_, _, _) => AttemptStepCounted(cfg, s, s', e, d);
    case _ =>
  }

  lemma NextCounted(cfg: Config, s: State, s': State, e: Step, d: nat)
    requires ValidConfig(cfg) && Inv(cfg, s) && Next(cfg, s, s', e) && forall c :: Counted(cfg, s, c)
    ensures Counted(cfg, s', d)
  {
    hide Counted, Inv, Aside, ReaderStep, HelperStep, FetchStep, CloseStep;
    assert s.closed ==> s'.closed by { NextKeeps(cfg, s, s', e); }
    if FetchStep(cfg, s, s', e) {
      FetchCounted(cfg, s, s', e, d);
    } else {
      if ReaderStep(cfg, s, s', e) {
        ReaderAside(cfg, s, s', e, d);
      } else {
        OthersAside(cfg, s, s', e, d);
      }
      AsideKeeps(cfg, s, s', d);
    }
  }

  lemma {:induction false} RunCounted(cfg: Config, run: seq<State>, steps: seq<Step>, i: nat)
    requires ValidConfig(cfg) && IsRun(cfg, run, steps) && i < |run|
    ensures forall c :: Counted(cfg, run[i], c)
  {
    if i > 0 {
      hide Inv, Next, IsRun, Counted;
      RunCounted(cfg, run, steps, i - 1);
      RunKeeps(cfg, run, steps, i - 1);
      RunStep(cfg, run, steps, i - 1);
      forall c ensures Counted(cfg, run[i], c) {
        NextCounted(cfg, run[i - 1], run[i], steps[i - 1], c);
      }
    }
  }

  // ---- failed reads ----

  lemma ReceivePc(cfg: Config, s: State, s': State, c: nat) returns (pc: CallPc)
    requires Receives(cfg, s, s', c)
    ensures c in s.calls && OnlyPc(s, s', c, pc) && s.calls[c].pc.Awaiting?
  {
    hide OnlyPc, SetCall, EndCall;
    var Awaiting(started, a) := s.calls[c].pc;
    if s.attempts[a].status.ok {
      pc := Storing(Chunk(s.calls[c].index, OfAttempt(a), s.attempts[a].status.n));
      SetCallPc(s, c, pc);
    } else if started <= cfg.maxRetries {
      pc := Holding(started);
      SetCallPc(s, c, pc);
    } else {
      pc := Returned(None);
      EndCallPc(s, c, None);
    }
  }

  lemma TimeoutPc(cfg: Config, s: State, s': State, c: nat)
    requires FetchStep(cfg, s, s', CallTimeout(c))
    ensures c in s'.calls && OnlyPc(s, s', c, s'.calls[c].pc) && s.calls[c].pc.Awaiting?
  {
  }

  lemma EndingPc(cfg: Config, s: State, s': State, e: Step)
    requires FetchStep(cfg, s, s', e) && (e.CallAcquire? || e.CallGiveUp? || e.CallStore? || e.CallReturn?)
    ensures e.c in s'.calls && OnlyPc(s, s', e.c, s'.calls[e.c].pc) && !s.calls[e.c].pc.Returned?
  {
    hide AddChunk;
  }

  lemma OtherPcStays(s: State, s': State, c: nat, pc: CallPc, d: nat)
    requires OnlyPc(s, s', c, pc) && d in s.calls && s.calls[d].pc.Returned? && !s.calls[c].pc.Returned?
    ensures d in s'.calls && s'.calls[d] == s.calls[d]
  {
  }

  /** A returned call stays as it is. */
  lemma ReturnedStays(cfg: Config, s: State, s': State, e: Step, d: nat)
    requires FetchStep(cfg, s, s', e) && d in s.calls && s.calls[d].pc.Returned?
    ensures d in s'.calls && s'.calls[d] == s.calls[d]
  {
    hide LooksUp, Receives, OnlyPc, Delivered, Zeroes, AddChunk, AttemptFailed, EndCall, SetCall;
    if e.CallCheck? {
      var pc := LookUpPc(s, s', e.c);
      OtherPcStays(s, s', e.c, pc, d);
    } else if e.CallReceive? {
      var pc := ReceivePc(cfg, s, s', e.c);
      OtherPcStays(s, s', e.c, pc, d);
    } else if e.CallTimeout? {
      TimeoutPc(cfg, s, s', e.c);
      OtherPcStays(s, s', e.c, s'.calls[e.c].pc, d);
    } else if e.CallAttempt? {
      AttemptAdds(cfg, s, s', e.c, e.a);
    } else if e.CallAcquire? || e.CallGiveUp? || e.CallStore? || e.CallReturn? {
      EndingPc(cfg, s, s', e);
      OtherPcStays(s, s', e.c, s'.calls[e.c].pc, d);
    }
  }

  /** The read waited for a call for one of its own chunks, and the call failed. */
  ghost predicate FailedOn(cfg: Config, s: State, req: Request, c: nat)
    requires ValidConfig(cfg)
  {
    && c in s.calls && s.calls[c].pc == Returned(None)
    && Proceeds(cfg, req) && StartChunk(cfg, req) <= s.calls[c].index <= EndChunk(cfg, req)
  }

  ghost predicate HasCause(cfg: Config, s: State, t: nat)
    requires ValidConfig(cfg)
  {
    IsReader(s, t) && s.threads[t].rpc.Answered? && s.threads[t].rpc.err == FetchFailed ==>
      exists c :: FailedOn(cfg, s, s.threads[t].req, c)
  }

  /** An answer is final. */
  lemma AnsweredByReader(cfg: Config, s: State, s': State, e: Step, t: nat)
    requires ValidConfig(cfg) && ReaderStep(cfg, s, s', e) && IsReader(s, t) && s.threads[t].rpc.Answered?
    ensures IsReader(s', t) && s'.threads[t] == s.threads[t]
  {
    hide Starts, Resumes, CopiesBytes;
    if e.Start? {
      StartThread(cfg, s, s', e.t);
    } else if e.Resume? {
      ResumeMoves(s, s', e.t);
    } else if e.CopyBytes? {
      CopyThread(cfg, s, s', e.t);
    } else {
      hide StartChunk, EndChunk, WindowEnd, ReadAheadLimit, ValidateRead, Overruns, Proceeds, LoopGoesOn, Answer;
    }
  }

  lemma AnsweredStays(cfg: Config, s: State, s': State, e: Step, t: nat)
    requires ValidConfig(cfg) && Next(cfg, s, s', e) && IsReader(s, t) && s.threads[t].rpc.Answered?
    ensures IsReader(s', t) && s'.threads[t] == s.threads[t]
  {
    hide ReaderStep, HelperStep, FetchStep;
    if ReaderStep(cfg, s, s', e) {
      AnsweredByReader(cfg, s, s', e, t);
    } else if HelperStep(cfg, s, s', e) {
      var u := HelperMoves(cfg, s, s', e);
    } else if FetchStep(cfg, s, s', e) {
      FetchKeepsThreads(cfg, s, s', e);
    }
  }

  lemma CallStays(cfg: Config, s: State, s': State, e: Step, c: nat)
    requires ValidConfig(cfg) && Inv(cfg, s) && Next(cfg, s, s', e) && c in s.calls && s.calls[c].pc.Returned?
    ensures c in s'.calls && s'.calls[c] == s.calls[c]
  {
    hide Inv, ReaderStep, HelperStep, FetchStep, CloseStep;
    assert s.closed ==> s'.closed by { NextKeeps(cfg, s, s', e); }
    if FetchStep(cfg, s, s', e) {
      ReturnedStays(cfg, s, s', e, c);
    } else if ReaderStep(cfg, s, s', e) {
      ReaderAside(cfg, s, s', e, c);
    } else {
      OthersAside(cfg, s, s', e, c);
    }
  }

  /** A read fails when it comes back from a call that failed. */
  lemma ResumeHasCause(cfg: Config, s: State, s': State, t: nat)
    requires ValidConfig(cfg) && Inv(cfg, s) && Resumes(s, s', t)
    ensures HasCause(cfg, s', t)
  {
    ResumeMoves(s, s', t);
    assert s'.threads[t].req == s.threads[t].req;
    hide Resumes, CallsOk, AttemptsOk, CacheOk, TokensOk, StartChunk, EndChunk, Good;
    var c := s.threads[t].rpc.call;
    assert ThreadInv(cfg, s, s.threads[t], t);
    assert s'.threads[t].rpc.Answered? ==> FailedOn(cfg, s', s'.threads[t].req, c);
  }

  /** No other step makes a read fail. */
  lemma OnlyResumeFails(cfg: Config, s: State, s': State, e: Step, t: nat)
    requires ValidConfig(cfg) && Next(cfg, s, s', e) && NotFailed(s, t)
    requires !(ReaderStep(cfg, s, s', e) && e.Resume? && e.t == t)
    ensures NotFailed(s', t)
  {
    hide ReaderStep, HelperStep, FetchStep, CloseStep, NotFailed;
    if !ReaderStep(cfg, s, s', e) {
      OtherNotFailed(cfg, s, s', e, t);
    } else if e.Start? {
      StepsAre(cfg, s, s', e);
      StartNotFailed(cfg, s, s', e.t, t);
    } else if Schedules(e) {
      ScheduleNotFailed(cfg, s, s', e, t);
    } else if e.Resume? {
      StepsAre(cfg, s, s', e);
      OtherResumes(s, s', e.t, t);
    } else {
      PlainReaderNotFailed(cfg, s, s', e, t);
    }
  }

  lemma OtherResumes(s: State, s': State, r: nat, t: nat)
    requires Resumes(s, s', r) && r != t && NotFailed(s, t)
    ensures NotFailed(s', t)
  {
    hide Resumes;
    ResumeMoves(s, s', r);
  }

  lemma CauseStep(cfg: Config, s: State, s': State, e: Step, t: nat)
    requires ValidConfig(cfg) && Inv(cfg, s) && Next(cfg, s, s', e) && HasCause(cfg, s, t)
    ensures HasCause(cfg, s', t)
  {
    hide Inv, Next, Proceeds, StartChunk, EndChunk;
    if IsReader(s, t) && s.threads[t].rpc.Answered? {
      AnsweredStays(cfg, s, s', e, t);
      if s.threads[t].rpc.err == FetchFailed {
        var c :| FailedOn(cfg, s, s.threads[t].req, c);
        CallStays(cfg, s, s', e, c);
        assert FailedOn(cfg, s', s'.threads[t].req, c);
      }
    } else if ReaderStep(cfg, s, s', e) && e.Resume? && e.t == t {
      hide ReaderStep;
      StepsAre(cfg, s, s', e);
      ResumeHasCause(cfg, s, s', t);
    } else {
      hide ReaderStep;
      OnlyResumeFails(cfg, s, s', e, t);
    }
  }

  lemma {:induction false} RunHasCause(cfg: Config, run: seq<State>, steps: seq<Step>, i: nat, t: nat)
    requires ValidConfig(cfg) && IsRun(cfg, run, steps) && i < |run|
    ensures HasCause(cfg, run[i], t)
  {
    if i > 0 {
      hide Inv, Next, IsRun, HasCause;
      RunHasCause(cfg, run, steps, i - 1, t);
      RunKeeps(cfg, run, steps, i - 1);
      RunStep(cfg, run, steps, i - 1);
      CauseStep(cfg, run[i - 1], run[i], steps[i - 1], t);
    }
  }

  /** A fetch that failed never got to read, was shut down, or has `MaxRetries + 1` attempts behind it,
      and every attempt it made had failed or was given up on. */
  lemma FetchesRetry(cfg: Config, run: seq<State>, steps: seq<Step>, i: nat, c: nat)
    requires ValidConfig(cfg) && IsRun(cfg, run, steps) && i < |run|
    requires c in run[i].calls && run[i].calls[c].pc == Returned(None)
    ensures FailedFor(cfg, run[i], c)
  {
    hide IsRun, FailedFor;
    RunCounted(cfg, run, steps, i);
    assert Counted(cfg, run[i], c);
  }

  /** A failed read waited for such a fetch, of one of its own chunks. */
  lemma FailedReadsHaveACause(cfg: Config, run: seq<State>, steps: seq<Step>, i: nat, t: nat)
    requires ValidConfig(cfg) && IsRun(cfg, run, steps) && i < |run|
    requires IsReader(run[i], t) && run[i].threads[t].rpc.Answered? && run[i].threads[t].rpc.err == FetchFailed
    ensures exists c :: FailedOn(cfg, run[i], run[i].threads[t].req, c) && FailedFor(cfg, run[i], c)
  {
    hide IsRun, FailedFor, StartChunk, EndChunk, Proceeds;
    RunHasCause(cfg, run, steps, i, t);
    var c :| FailedOn(cfg, run[i], run[i].threads[t].req, c);
    FetchesRetry(cfg, run, steps, i, c);
  }
}
