/** Every step of every run keeps the prefetcher's invariant. */
module PrefetchSteps {
  import opened Basics
  import opened Prefetch
  import opened PrefetchInvariant
  import opened PrefetchLoops
  import opened PrefetchRuns

  /** Thread `t` leads no call that is still in flight. */
  ghost predicate LeadsNothing(s: State, t: nat) {
    forall c | c in s.calls && s.calls[c].leader == t :: s.calls[c].pc.Returned?
  }

  lemma NotWaitingLeadsNothing(cfg: Config, s: State, t: nat)
    requires CallsOk(cfg, s) && t in s.threads
    requires forall c | c in s.calls && WaitsOn(s.threads[t], c) :: s.calls[c].pc.Returned?
    ensures LeadsNothing(s, t)
  {
    forall c | c in s.calls && s.calls[c].leader == t ensures s.calls[c].pc.Returned? {
      assert CallInv(cfg, s, c);
    }
  }

  lemma NewThreadLeadsNothing(cfg: Config, s: State, t: nat)
    requires CallsOk(cfg, s) && t !in s.threads
    ensures LeadsNothing(s, t)
  {
    forall c | c in s.calls && s.calls[c].leader == t ensures s.calls[c].pc.Returned? {
      assert CallInv(cfg, s, c);
    }
  }

  /** A thread other than a read-ahead task moves, holding no call in flight. */
  lemma PlainMoved(cfg: Config, s: State, s': State, t: nat, th: Thread)
    requires ValidConfig(cfg) && Inv(cfg, s) && OnlyThread(s, s', t) && s'.threads[t] == th
    requires !th.Ahead? && (t in s.threads ==> !s.threads[t].Ahead? && (s.threads[t].Reader? ==> th.Reader?))
    requires LeadsNothing(s, t)
    requires ThreadInv(cfg, s, th, t) && (t in s'.registered <==> Active(th))
    ensures Inv(cfg, s') && Mono(s, s')
  {
    hide ThreadInv, ThreadsOk, CallsOk, AttemptsOk, CacheOk, TokensOk, Mono;
    ThreadMovedMono(cfg, s, s', t);
    ThreadKept(cfg, s, s', th, t);
    ThreadMoved(cfg, s, s', t);
  }

  lemma Registered(cfg: Config, s: State, t: nat)
    requires ValidConfig(cfg) && Inv(cfg, s) && t in s.threads
    ensures ThreadInv(cfg, s, s.threads[t], t) && (t in s.registered <==> Active(s.threads[t]))
  {
  }

  /** A registered reader that waits for no fetch in flight goes on to `pc`, or leaves. */
  lemma ReaderMoved(cfg: Config, s: State, s': State, t: nat, pc: ReaderPc)
    requires ValidConfig(cfg) && Inv(cfg, s) && IsReader(s, t) && t in s.registered
    requires s.threads[t].rpc.Fetching? ==>
          s.threads[t].rpc.call in s.calls && s.calls[s.threads[t].rpc.call].pc.Returned?
    requires ReaderInv(cfg, s, s.threads[t].req, pc) && pc != Invoked
    requires s' == var th := Reader(s.threads[t].req, pc); if pc.Answered? then Leave(s, t, th) else SetThread(s, t, th)
    ensures Inv(cfg, s') && Mono(s, s')
  {
    hide CallsOk, AttemptsOk, TokensOk, ThreadsOk, CacheOk, ReaderInv, Mono;
    NotWaitingLeadsNothing(cfg, s, t);
    PlainMoved(cfg, s, s', t, s'.threads[t]);
  }

  lemma InvokeKeeps(cfg: Config, s: State, s': State, t: nat, req: Request)
    requires ValidConfig(cfg) && Inv(cfg, s) && ReaderStep(cfg, s, s', Invoke(t, req))
    ensures Inv(cfg, s') && Mono(s, s')
  {
    hide CallsOk, AttemptsOk, CacheOk, TokensOk;
    NewThreadLeadsNothing(cfg, s, t);
    assert t !in s.registered;
    PlainMoved(cfg, s, s', t, Reader(req, Invoked));
  }

  lemma EnterKeeps(cfg: Config, s: State, s': State, t: nat)
    requires ValidConfig(cfg) && Inv(cfg, s) && ReaderStep(cfg, s, s', Enter(t))
    ensures Inv(cfg, s') && Mono(s, s')
  {
    hide CallsOk, AttemptsOk, CacheOk, TokensOk, ThreadsOk, CopyInv, ReadSpec;
    Registered(cfg, s, t);
    NotWaitingLeadsNothing(cfg, s, t);
    PlainMoved(cfg, s, s', t, s'.threads[t]);
  }

  lemma StartKeeps(cfg: Config, s: State, s': State, t: nat)
    requires ValidConfig(cfg) && Inv(cfg, s) && Starts(cfg, s, s', t)
    ensures Inv(cfg, s') && Mono(s, s')
  {
    hide Inv, ReaderInv, StartChunk, EndChunk, Overruns, EvictBefore, Mono;
    var req := s.threads[t].req;
    Registered(cfg, s, t);
    if Proceeds(cfg, req) {
      var s1 := EvictBefore(s, StartChunk(cfg, req));
      Evicted(cfg, s, s1, StartChunk(cfg, req));
      var pc := if Overruns(cfg, req) then Answered([], EOF) else Requiring(StartChunk(cfg, req));
      StartMoved(cfg, s1, s', t, pc);
      MonoTransitive(s, s1, s');
    } else {
      RejectedRead(cfg, s, req);
      ReaderMoved(cfg, s, s', t, Answered([], ValidateRead(cfg, req)));
    }
  }

  lemma RejectedRead(cfg: Config, s: State, req: Request)
    requires ValidConfig(cfg) && !Proceeds(cfg, req)
    ensures ReaderInv(cfg, s, req, Answered([], ValidateRead(cfg, req)))
  {
  }

  lemma StartMoved(cfg: Config, s: State, s': State, t: nat, pc: ReaderPc)
    requires ValidConfig(cfg) && Inv(cfg, s) && IsReader(s, t) && t in s.registered && s.threads[t].rpc == Entered
    requires Proceeds(cfg, s.threads[t].req)
    requires var req := s.threads[t].req;
             pc == if Overruns(cfg, req) then Answered([], EOF) else Requiring(StartChunk(cfg, req))
    requires s' == var th := Reader(s.threads[t].req, pc); if pc.Answered? then Leave(s, t, th) else SetThread(s, t, th)
    ensures Inv(cfg, s') && Mono(s, s')
  {
    hide Inv, StartChunk, EndChunk, Mono;
    ReaderMoved(cfg, s, s', t, pc);
  }

  lemma RequireKeeps(cfg: Config, s: State, s': State, t: nat)
    requires ValidConfig(cfg) && Inv(cfg, s) && ReaderStep(cfg, s, s', SkipRequired(t))
    ensures Inv(cfg, s') && Mono(s, s')
  {
    hide Inv, CopyInv, StartChunk, EndChunk, ReadAheadLimit, Mono;
    Registered(cfg, s, t);
    ReaderMoved(cfg, s, s', t, s'.threads[t].rpc);
  }

  lemma SpawnRequiredKeeps(cfg: Config, s: State, s': State, t: nat, u: nat)
    requires ValidConfig(cfg) && Inv(cfg, s) && ReaderStep(cfg, s, s', SpawnRequired(t, u))
    ensures Inv(cfg, s') && Mono(s, s')
  {
    hide CallsOk, AttemptsOk, TokensOk, CopyInv, StartChunk, EndChunk, ReadAheadLimit;
    Registered(cfg, s, t);
    NotWaitingLeadsNothing(cfg, s, t);
    var s1 := SetThread(s, t, s'.threads[t]);
    PlainMoved(cfg, s, s1, t, s'.threads[t]);
    NewThreadLeadsNothing(cfg, s1, u);
    assert u !in s1.registered;
    PlainMoved(cfg, s1, s', u, s'.threads[u]);
    MonoTransitive(s, s1, s');
  }

  lemma MonoTransitive(s: State, s1: State, s2: State)
    requires Mono(s, s1) && Mono(s1, s2)
    ensures Mono(s, s2)
  {
  }

  lemma SkipAheadKeeps(cfg: Config, s: State, s': State, t: nat)
    requires ValidConfig(cfg) && Inv(cfg, s) && ReaderStep(cfg, s, s', SkipAhead(t))
    ensures Inv(cfg, s') && Mono(s, s')
  {
    hide Inv, CopyInv, StartChunk, EndChunk, ReadAheadLimit, WindowEnd, Mono;
    Registered(cfg, s, t);
    CopyStarts(cfg, s.threads[t].req);
    ReaderMoved(cfg, s, s', t, s'.threads[t].rpc);
  }

  lemma SpawnAheadKeeps(cfg: Config, s: State, s': State, t: nat, u: nat)
    requires ValidConfig(cfg) && Inv(cfg, s) && ReaderStep(cfg, s, s', SpawnAhead(t, u))
    ensures Inv(cfg, s') && Mono(s, s')
  {
    hide CallsOk, AttemptsOk, TokensOk, CopyInv, StartChunk, EndChunk, ReadAheadLimit, WindowEnd;
    Registered(cfg, s, t);
    NotWaitingLeadsNothing(cfg, s, t);
    var s1 := SetThread(s, t, s'.threads[t]);
    PlainMoved(cfg, s, s1, t, s'.threads[t]);
    NewThreadLeadsNothing(cfg, s1, u);
    assert u !in s1.registered;
    if cfg.size > 0 {
      WindowInsideFile(cfg, StartChunk(cfg, s.threads[t].req), s'.threads[u].index);
    }
    ThreadMoved(cfg, s1, s', u);
    MonoTransitive(s, s1, s');
  }

  lemma HitKeeps(cfg: Config, s: State, s': State, t: nat)
    requires ValidConfig(cfg) && Inv(cfg, s) && ReaderStep(cfg, s, s', Hit(t))
    ensures Inv(cfg, s') && Mono(s, s')
  {
    hide CallsOk, AttemptsOk, TokensOk, ThreadsOk, CopyInv, StartChunk, EndChunk, Good, Mono;
    Registered(cfg, s, t);
    ReaderMoved(cfg, s, s', t, s'.threads[t].rpc);
  }

  lemma JoinKeeps(cfg: Config, s: State, s': State, t: nat)
    requires ValidConfig(cfg) && Inv(cfg, s) && ReaderStep(cfg, s, s', Join(t))
    ensures Inv(cfg, s') && Mono(s, s')
  {
    hide AttemptsOk, TokensOk, ThreadsOk, CacheOk, CopyInv, StartChunk, EndChunk, CallInv, Mono;
    Registered(cfg, s, t);
    ReaderMoved(cfg, s, s', t, s'.threads[t].rpc);
  }

  lemma LeadKeeps(cfg: Config, s: State, s': State, t: nat, c: nat)
    requires ValidConfig(cfg) && Inv(cfg, s) && ReaderStep(cfg, s, s', Lead(t, c))
    ensures Inv(cfg, s') && Mono(s, s')
  {
    hide AttemptsOk, TokensOk, ThreadsOk, CacheOk, CallsOk, CopyInv, StartChunk, EndChunk;
    Registered(cfg, s, t);
    CallMade(cfg, s, s', t, s.threads[t].rpc.index, c, s'.threads[t]);
  }

  lemma CallResult(cfg: Config, s: State, c: nat)
    requires ValidConfig(cfg) && Inv(cfg, s) && c in s.calls && s.calls[c].pc.Returned?
    ensures var r := s.calls[c].pc.result; r.Some? ==> r.value.index == s.calls[c].index && Good(cfg, s, r.value)
  {
    assert CallInv(cfg, s, c);
  }

  lemma ResumeKeeps(cfg: Config, s: State, s': State, t: nat)
    requires ValidConfig(cfg) && Inv(cfg, s) && Resumes(s, s', t)
    ensures Inv(cfg, s') && Mono(s, s')
  {
    hide Inv, CopyInv, StartChunk, EndChunk, Good, ReadSpec, Mono;
    Registered(cfg, s, t);
    var Reader(req, Fetching(index, out, c)) := s.threads[t];
    CallResult(cfg, s, c);
    CopyMatches(cfg, req, index, out);
    ReaderMoved(cfg, s, s', t, s'.threads[t].rpc);
  }

  lemma CopyBytesKeeps(cfg: Config, s: State, s': State, t: nat)
    requires ValidConfig(cfg) && Inv(cfg, s) && CopiesBytes(cfg, s, s', t)
    ensures Inv(cfg, s') && Mono(s, s')
  {
    hide Inv, CopyInv, StartChunk, EndChunk, CopyRound, ChunkData, Deliverable, Mono;
    Registered(cfg, s, t);
    var Reader(req, Using(index, out, ch)) := s.threads[t];
    CopyMatches(cfg, req, index, out);
    CopyRoundKeeps(cfg, req, index, out);
    ReaderMoved(cfg, s, s', t, s'.threads[t].rpc);
  }

  lemma FinishKeeps(cfg: Config, s: State, s': State, t: nat)
    requires ValidConfig(cfg) && Inv(cfg, s) && ReaderStep(cfg, s, s', Finish(t))
    ensures Inv(cfg, s') && Mono(s, s')
  {
    hide Inv, CopyInv, StartChunk, EndChunk, Deliverable, Mono;
    Registered(cfg, s, t);
    var Reader(req, Copying(index, out)) := s.threads[t];
    CopyMatches(cfg, req, index, out);
    CopyEnds(cfg, req, index, out);
    ReaderMoved(cfg, s, s', t, s'.threads[t].rpc);
  }

  lemma StepsAre(cfg: Config, s: State, s': State, e: Step)
    requires ValidConfig(cfg) && ReaderStep(cfg, s, s', e)
    ensures e.Start? ==> Starts(cfg, s, s', e.t)
    ensures e.Resume? ==> Resumes(s, s', e.t)
    ensures e.CopyBytes? ==> CopiesBytes(cfg, s, s', e.t)
  {
    hide Starts, Resumes, CopiesBytes;
  }

  predicate Schedules(e: Step) {
    e.Start? || e.SkipRequired? || e.SpawnRequired? || e.SkipAhead? || e.SpawnAhead?
  }

  lemma SchedulingStepKeeps(cfg: Config, s: State, s': State, e: Step)
    requires ValidConfig(cfg) && Inv(cfg, s) && ReaderStep(cfg, s, s', e) && Schedules(e)
    ensures Inv(cfg, s') && Mono(s, s')
  {
    hide Inv, Mono, ReaderStep, Starts;
    StepsAre(cfg, s, s', e);
    match e
    case Start(t) => StartKeeps(cfg, s, s', t);
    case SkipRequired(t) => RequireKeeps(cfg, s, s', t);
    case SpawnRequired(t, u) => SpawnRequiredKeeps(cfg, s, s', t, u);
    case SkipAhead(t) => SkipAheadKeeps(cfg, s, s', t);
    case SpawnAhead(t, u) => SpawnAheadKeeps(cfg, s, s', t, u);
  }

  predicate OfCopying(e: Step) { e.Hit? || e.Join? || e.Lead? || e.Resume? || e.CopyBytes? || e.Finish? }

  lemma CopyingStepKeeps(cfg: Config, s: State, s': State, e: Step)
    requires ValidConfig(cfg) && Inv(cfg, s) && ReaderStep(cfg, s, s', e) && OfCopying(e)
    ensures Inv(cfg, s') && Mono(s, s')
  {
    hide Inv, Mono, ReaderStep, Resumes, CopiesBytes;
    StepsAre(cfg, s, s', e);
    match e
    case Hit(t) => HitKeeps(cfg, s, s', t);
    case Join(t) => JoinKeeps(cfg, s, s', t);
    case Lead(t, c) => LeadKeeps(cfg, s, s', t, c);
    case Resume(t) => ResumeKeeps(cfg, s, s', t);
    case CopyBytes(t) => CopyBytesKeeps(cfg, s, s', t);
    case Finish(t) => FinishKeeps(cfg, s, s', t);
  }

  lemma ReaderStepKeeps(cfg: Config, s: State, s': State, e: Step)
    requires ValidConfig(cfg) && Inv(cfg, s) && ReaderStep(cfg, s, s', e)
    ensures Inv(cfg, s') && Mono(s, s')
  {
    hide Inv, Mono, Starts, Resumes, CopiesBytes;
    if Schedules(e) {
      SchedulingStepKeeps(cfg, s, s', e);
    } else if OfCopying(e) {
      CopyingStepKeeps(cfg, s, s', e);
    } else if e.Enter? {
      EnterKeeps(cfg, s, s', e.t);
    } else {
      InvokeKeeps(cfg, s, s', e.t, e.req);
    }
  }

  // ---- required-chunk and read-ahead goroutines ----

  lemma TaskMoved(cfg: Config, s: State, s': State, t: nat, pc: TaskPc)
    requires ValidConfig(cfg) && Inv(cfg, s) && IsTask(s, t) && t in s.registered && pc != TaskReady
    requires s.threads[t].tpc.TaskFetching? ==>
          s.threads[t].tpc.call in s.calls && s.calls[s.threads[t].tpc.call].pc.Returned?
    requires pc.TaskFetching? ==> pc.call in s.calls && s.calls[pc.call].index == s.threads[t].index
    requires s' == var th := s.threads[t].(tpc := pc); if pc == TaskDone then Leave(s, t, th) else SetThread(s, t, th)
    ensures Inv(cfg, s') && Mono(s, s')
  {
    hide CallsOk, AttemptsOk, TokensOk, ThreadsOk, CacheOk, Mono;
    NotWaitingLeadsNothing(cfg, s, t);
    PlainMoved(cfg, s, s', t, s'.threads[t]);
  }

  lemma InGroup(cfg: Config, s: State, index: nat)
    requires ValidConfig(cfg) && Inv(cfg, s) && index in s.group
    ensures s.group[index] in s.calls && s.calls[s.group[index]].index == index
  {
  }

  lemma TaskStepKeeps(cfg: Config, s: State, s': State, e: Step)
    requires ValidConfig(cfg) && Inv(cfg, s) && HelperStep(cfg, s, s', e)
    requires e.TaskSkip? || e.TaskJoin? || e.TaskLead? || e.TaskResume?
    ensures Inv(cfg, s') && Mono(s, s')
  {
    hide Inv, Mono;
    Registered(cfg, s, e.t);
    match e
    case TaskSkip(t) => TaskMoved(cfg, s, s', t, TaskDone);
    case TaskJoin(t) =>
      InGroup(cfg, s, s.threads[t].index);
      TaskMoved(cfg, s, s', t, TaskFetching(s.group[s.threads[t].index]));
    case TaskLead(t, c) => CallMade(cfg, s, s', t, s.threads[t].index, c, s'.threads[t]);
    case TaskResume(t) => TaskMoved(cfg, s, s', t, TaskDone);
  }

  /** A read-ahead task moves without touching tokens or buffers. */
  lemma AheadMoved(cfg: Config, s: State, s': State, t: nat, pc: AheadPc)
    requires ValidConfig(cfg) && Inv(cfg, s) && IsAhead(s, t) && Active(s.threads[t])
    requires s' == var th := s.threads[t].(apc := pc); if pc == AheadDone then Leave(s, t, th) else SetThread(s, t, th)
    requires AheadOwnsToken(pc) == AheadOwnsToken(s.threads[t].apc) && pc != AheadReading
    requires pc in {AheadReady, AheadChosen} ==> s.threads[t].apc in {AheadReady, AheadChosen}
    requires pc.AheadStoring? ==> Delivered(cfg, s, OfAhead(t), s.threads[t].index, pc.n)
    ensures Inv(cfg, s') && Mono(s, s')
  {
    hide CallsOk, AttemptsOk, TokensOk, ThreadsOk, CacheOk, Mono;
    Registered(cfg, s, t);
    NotWaitingLeadsNothing(cfg, s, t);
    assert IsReader(s', s.threads[t].parent);
    ThreadMoved(cfg, s, s', t);
  }

  ghost predicate AheadTakes(cfg: Config, s: State, s': State, t: nat) {
    && IsAhead(s, t) && s.threads[t].apc == AheadChosen && |s.tokens| < cfg.maxParallelReads
    && s' == SetThread(s, t, s.threads[t].(apc := AheadReading))
             .(tokens := s.tokens + {ByAhead(t)}, buffers := s.buffers[OfAhead(t) := Zeroes(cfg.chunkSize)])
  }

  lemma AheadTakesMono(cfg: Config, s: State, s': State, t: nat)
    requires AttemptsOk(cfg, s) && AheadTakes(cfg, s, s', t)
    ensures Mono(s, s')
  {
  }

  lemma AheadTakesTokens(cfg: Config, s: State, s': State, t: nat)
    requires TokensOk(cfg, s) && AheadTakes(cfg, s, s', t)
    ensures TokensOk(cfg, s')
  {
    forall k | k in s'.tokens ensures TokenInv(s', k) {
      if k in s.tokens { assert TokenInv(s, k); }
    }
  }

  lemma AheadTakesCalls(cfg: Config, s: State, s': State, t: nat)
    requires CallsOk(cfg, s) && AheadTakes(cfg, s, s', t) && Steady(s, s')
    ensures CallsOk(cfg, s')
  {
    hide Steady;
    forall c | c in s'.calls ensures CallUntouched(s, s', c) {
      assert CallInv(cfg, s, c);
    }
    CallsKept(cfg, s, s', {});
  }

  lemma AheadTakesAttempts(cfg: Config, s: State, s': State, t: nat)
    requires AttemptsOk(cfg, s) && AheadTakes(cfg, s, s', t) && Steady(s, s')
    ensures AttemptsOk(cfg, s')
  {
    hide Steady;
    forall a | a in s'.attempts ensures AttemptUntouched(s, s', a) {
      assert AttemptInv(cfg, s, a);
    }
    AttemptsKept(cfg, s, s', {});
  }

  lemma AheadTakesKeeps(cfg: Config, s: State, s': State, t: nat)
    requires ValidConfig(cfg) && Inv(cfg, s) && AheadTakes(cfg, s, s', t)
    ensures Inv(cfg, s') && Mono(s, s')
  {
    hide CallsOk, AttemptsOk, TokensOk, ThreadsOk, CacheOk, Steady;
    Registered(cfg, s, t);
    AheadTakesMono(cfg, s, s', t);
    AheadTakesTokens(cfg, s, s', t);
    AheadTakesCalls(cfg, s, s', t);
    AheadTakesAttempts(cfg, s, s', t);
    CacheSame(cfg, s, s');
    assert IsReader(s', s.threads[t].parent);
    OthersKept(cfg, s, s', {t});
  }

  ghost predicate AheadGives(s: State, s': State, t: nat) {
    && IsAhead(s, t) && s.threads[t].apc == AheadReleasing
    && s' == Leave(s, t, s.threads[t].(apc := AheadDone)).(tokens := s.tokens - {ByAhead(t)})
  }

  lemma AheadGivesMono(cfg: Config, s: State, s': State, t: nat)
    requires AheadGives(s, s', t)
    ensures Mono(s, s')
  {
  }

  lemma AheadGivesTokens(cfg: Config, s: State, s': State, t: nat)
    requires TokensOk(cfg, s) && AheadGives(s, s', t)
    ensures TokensOk(cfg, s')
  {
    forall k | k in s'.tokens ensures TokenInv(s', k) {
      assert TokenInv(s, k);
    }
  }

  lemma AheadGivesCalls(cfg: Config, s: State, s': State, t: nat)
    requires CallsOk(cfg, s) && AheadGives(s, s', t) && Steady(s, s')
    ensures CallsOk(cfg, s')
  {
    hide Steady;
    forall c | c in s'.calls ensures CallUntouched(s, s', c) {
      assert CallInv(cfg, s, c);
    }
    CallsKept(cfg, s, s', {});
  }

  lemma AheadGivesAttempts(cfg: Config, s: State, s': State, t: nat)
    requires AttemptsOk(cfg, s) && AheadGives(s, s', t) && Steady(s, s')
    ensures AttemptsOk(cfg, s')
  {
    hide Steady;
    forall a | a in s'.attempts ensures AttemptUntouched(s, s', a) {
      assert AttemptInv(cfg, s, a);
    }
    AttemptsKept(cfg, s, s', {});
  }

  lemma AheadGivesKeeps(cfg: Config, s: State, s': State, t: nat)
    requires ValidConfig(cfg) && Inv(cfg, s) && AheadGives(s, s', t)
    ensures Inv(cfg, s') && Mono(s, s')
  {
    hide CallsOk, AttemptsOk, TokensOk, ThreadsOk, CacheOk, Steady;
    Registered(cfg, s, t);
    AheadGivesMono(cfg, s, s', t);
    AheadGivesTokens(cfg, s, s', t);
    AheadGivesCalls(cfg, s, s', t);
    AheadGivesAttempts(cfg, s, s', t);
    CacheSame(cfg, s, s');
    assert IsReader(s', s.threads[t].parent);
    OthersKept(cfg, s, s', {t});
  }

  lemma AheadStoreKeeps(cfg: Config, s: State, s': State, t: nat, victims: set<nat>)
    requires ValidConfig(cfg) && Inv(cfg, s) && HelperStep(cfg, s, s', AheadStore(t, victims))
    ensures Inv(cfg, s') && Mono(s, s')
  {
    hide Inv, Mono, Good;
    Registered(cfg, s, t);
    var ch := Chunk(s.threads[t].index, OfAhead(t), s.threads[t].apc.n);
    var s1 := AddChunk(s, ch, victims);
    CacheAdded(cfg, s, s1, ch, victims);
    AheadMoved(cfg, s1, s', t, AheadReleasing);
    MonoTransitive(s, s1, s');
  }

  lemma AheadWriteKeeps(cfg: Config, s: State, s': State, t: nat, content: seq<byte>)
    requires ValidConfig(cfg) && Inv(cfg, s) && HelperStep(cfg, s, s', AheadWrite(t, content))
    ensures Inv(cfg, s') && Mono(s, s')
  {
    hide CallsOk, TokensOk, CacheOk;
    Registered(cfg, s, t);
    ReadMoved(cfg, s, s', {});
  }

  lemma AheadStepKeeps(cfg: Config, s: State, s': State, e: Step)
    requires ValidConfig(cfg) && Inv(cfg, s) && HelperStep(cfg, s, s', e)
    requires e.AheadCheck? || e.AheadTry? || e.AheadRead? || e.AheadRelease?
    ensures Inv(cfg, s') && Mono(s, s')
  {
    hide Inv, Mono;
    match e
    case AheadCheck(t) => AheadMoved(cfg, s, s', t, s'.threads[t].apc);
    case AheadTry(t) =>
      if |s.tokens| < cfg.maxParallelReads {
        AheadTakesKeeps(cfg, s, s', t);
      } else {
        AheadMoved(cfg, s, s', t, AheadDone);
      }
    case AheadRead(t, n, ok) => AheadMoved(cfg, s, s', t, if ok then AheadStoring(n) else AheadReleasing);
    case AheadRelease(t) => AheadGivesKeeps(cfg, s, s', t);
  }

  lemma HelperStepKeeps(cfg: Config, s: State, s': State, e: Step)
    requires ValidConfig(cfg) && Inv(cfg, s) && HelperStep(cfg, s, s', e)
    ensures Inv(cfg, s') && Mono(s, s')
  {
    hide Inv, Mono;
    if e.TaskSkip? || e.TaskJoin? || e.TaskLead? || e.TaskResume? {
      TaskStepKeeps(cfg, s, s', e);
    } else if e.AheadStore? {
      AheadStoreKeeps(cfg, s, s', e.t, e.victims);
    } else if e.AheadWrite? {
      AheadWriteKeeps(cfg, s, s', e.t, e.content);
    } else {
      AheadStepKeeps(cfg, s, s', e);
    }
  }

  // ---- single-flight fetches ----

  lemma TokenBound(cfg: Config, s: State)
    requires ValidConfig(cfg) && Inv(cfg, s)
    ensures |s.tokens| <= cfg.maxParallelReads
  {
  }

  lemma CallFacts(cfg: Config, s: State, c: nat)
    requires ValidConfig(cfg) && Inv(cfg, s) && c in s.calls
    ensures CallInv(cfg, s, c)
  {
  }

  lemma CachedGood(cfg: Config, s: State, i: nat)
    requires ValidConfig(cfg) && Inv(cfg, s) && i in s.cache
    ensures s.cache[i].index == i && Good(cfg, s, s.cache[i])
  {
  }

  lemma LeaderRegistered(cfg: Config, s: State, c: nat)
    requires ValidConfig(cfg) && Inv(cfg, s) && c in s.calls && !s.calls[c].pc.Returned?
    ensures s.registered != {}
  {
    assert CallInv(cfg, s, c);
    assert s.calls[c].leader in s.registered;
  }

  lemma SmallerSet<T>(a: set<T>, x: T)
    ensures |a - {x}| <= |a|
  {
    if x in a {
      assert a == (a - {x}) + {x};
    } else {
      assert a - {x} == a;
    }
  }

  /** The call ends with `result`. */
  lemma CallEnds(cfg: Config, s: State, s': State, c: nat, result: Option<Chunk>)
    requires ValidConfig(cfg) && Inv(cfg, s) && c in s.calls && !s.calls[c].pc.Returned?
    requires result.Some? ==> result.value.index == s.calls[c].index && Good(cfg, s, result.value)
    requires s' == EndCall(s, c, result).(abandoned := s'.abandoned)
    requires s'.abandoned == if s.calls[c].pc.Awaiting? && s'.abandoned != s.abandoned
        then s.abandoned + {s.calls[c].pc.attempt} else s.abandoned
    requires var pc := s.calls[c].pc;
             pc.Awaiting? && pc.attempt in s.attempts && s.attempts[pc.attempt].status == Running ==>
               pc.attempt in s'.abandoned
    ensures Inv(cfg, s') && Mono(s, s')
  {
    hide Inv, Mono, Good;
    TokenBound(cfg, s);
    SmallerSet(s.tokens, ByCall(c));
    CallMoved(cfg, s, s', c);
  }

  lemma CallGoesOn(cfg: Config, s: State, s': State, c: nat, pc: CallPc)
    requires ValidConfig(cfg) && Inv(cfg, s) && c in s.calls && !s.calls[c].pc.Returned?
    requires !pc.Returned? && !pc.Awaiting? && OwnsToken(pc) == OwnsToken(s.calls[c].pc)
    requires PcChunkGood(cfg, s, s.calls[c].index, pc)
    requires s' == SetCall(s, c, pc).(abandoned := s'.abandoned)
    requires s'.abandoned == if s.calls[c].pc.Awaiting? && s'.abandoned != s.abandoned
        then s.abandoned + {s.calls[c].pc.attempt} else s.abandoned
    requires var p := s.calls[c].pc;
             p.Awaiting? && p.attempt in s.attempts && s.attempts[p.attempt].status == Running ==>
               p.attempt in s'.abandoned
    ensures Inv(cfg, s') && Mono(s, s')
  {
    hide Inv, Mono, Good, PcChunkGood;
    TokenBound(cfg, s);
    CallFacts(cfg, s, c);
    CallMoved(cfg, s, s', c);
  }

  lemma CallCheckKeeps(cfg: Config, s: State, s': State, c: nat)
    requires ValidConfig(cfg) && Inv(cfg, s) && FetchStep(cfg, s, s', CallCheck(c))
    ensures Inv(cfg, s') && Mono(s, s')
  {
    hide Inv, Mono, Good;
    if s.calls[c].index in s.cache {
      CachedGood(cfg, s, s.calls[c].index);
      CallEnds(cfg, s, s', c, Some(s.cache[s.calls[c].index]));
    } else {
      CallGoesOn(cfg, s, s', c, Acquiring);
    }
  }

  lemma CallAcquireKeeps(cfg: Config, s: State, s': State, c: nat)
    requires ValidConfig(cfg) && Inv(cfg, s) && FetchStep(cfg, s, s', CallAcquire(c))
    ensures Inv(cfg, s') && Mono(s, s')
  {
    hide Inv, Mono;
    CallMoved(cfg, s, s', c);
  }

  lemma CallTimeoutKeeps(cfg: Config, s: State, s': State, c: nat)
    requires ValidConfig(cfg) && Inv(cfg, s) && FetchStep(cfg, s, s', CallTimeout(c))
    ensures Inv(cfg, s') && Mono(s, s')
  {
    hide Inv, Mono;
    var started := s.calls[c].pc.started;
    if started <= cfg.maxRetries {
      CallGoesOn(cfg, s, s', c, Holding(started));
    } else {
      CallEnds(cfg, s, s', c, None);
    }
  }

  lemma CallReceiveKeeps(cfg: Config, s: State, s': State, c: nat)
    requires ValidConfig(cfg) && Inv(cfg, s) && FetchStep(cfg, s, s', CallReceive(c))
    ensures Inv(cfg, s') && Mono(s, s')
  {
    hide Inv, Mono, Good;
    var Awaiting(started, a) := s.calls[c].pc;
    CallFacts(cfg, s, c);
    AttemptFacts(cfg, s, a);
    if s.attempts[a].status.ok {
      CallGoesOn(cfg, s, s', c, Storing(Chunk(s.calls[c].index, OfAttempt(a), s.attempts[a].status.n)));
    } else if started <= cfg.maxRetries {
      CallGoesOn(cfg, s, s', c, Holding(started));
    } else {
      CallEnds(cfg, s, s', c, None);
    }
  }

  lemma AttemptFacts(cfg: Config, s: State, a: nat)
    requires ValidConfig(cfg) && Inv(cfg, s) && a in s.attempts
    ensures AttemptInv(cfg, s, a)
  {
  }

  lemma CallStoreKeeps(cfg: Config, s: State, s': State, c: nat, victims: set<nat>)
    requires ValidConfig(cfg) && Inv(cfg, s) && FetchStep(cfg, s, s', CallStore(c, victims))
    ensures Inv(cfg, s') && Mono(s, s')
  {
    hide Inv, Mono, Good;
    var ch := s.calls[c].pc.ch;
    CallFacts(cfg, s, c);
    LeaderRegistered(cfg, s, c);
    var s1 := AddChunk(s, ch, victims);
    CacheAdded(cfg, s, s1, ch, victims);
    CallFacts(cfg, s1, c);
    CallGoesOn(cfg, s1, s', c, Releasing(ch));
    MonoTransitive(s, s1, s');
  }

  lemma CallReturnKeeps(cfg: Config, s: State, s': State, c: nat)
    requires ValidConfig(cfg) && Inv(cfg, s) && FetchStep(cfg, s, s', CallReturn(c))
    ensures Inv(cfg, s') && Mono(s, s')
  {
    hide Inv, Mono, Good;
    CallFacts(cfg, s, c);
    CallEnds(cfg, s, s', c, Some(s.calls[c].pc.ch));
  }

  // ---- underlying reads ----

  ghost predicate Attempts(cfg: Config, s: State, s': State, c: nat, a: nat) {
    && c in s.calls && s.calls[c].pc.Holding? && a !in s.attempts
    && s' == SetCall(s, c, Awaiting(s.calls[c].pc.started + 1, a))
             .(attempts := s.attempts[a := Attempt(s.calls[c].index, c, Running)],
               buffers := s.buffers[OfAttempt(a) := Zeroes(cfg.chunkSize)])
  }

  lemma AttemptsMono(cfg: Config, s: State, s': State, c: nat, a: nat)
    requires AttemptsOk(cfg, s) && Attempts(cfg, s, s', c, a)
    ensures Mono(s, s')
  {
  }

  lemma AttemptsTokens(cfg: Config, s: State, s': State, c: nat, a: nat)
    requires TokensOk(cfg, s) && Attempts(cfg, s, s', c, a)
    ensures TokensOk(cfg, s')
  {
    forall k | k in s'.tokens ensures TokenInv(s', k) {
      assert TokenInv(s, k);
    }
  }

  lemma AttemptsCalls(cfg: Config, s: State, s': State, c: nat, a: nat)
    requires CallsOk(cfg, s) && Attempts(cfg, s, s', c, a) && Steady(s, s') && a !in s.abandoned
    ensures CallsOk(cfg, s')
  {
    hide Steady;
    assert CallInv(cfg, s, c);
    forall d | d in s'.calls && d != c ensures CallUntouched(s, s', d) {
      assert CallInv(cfg, s, d);
    }
    CallsKept(cfg, s, s', {c});
  }

  lemma AttemptsAttempts(cfg: Config, s: State, s': State, c: nat, a: nat)
    requires AttemptsOk(cfg, s) && Attempts(cfg, s, s', c, a) && Steady(s, s')
    ensures AttemptsOk(cfg, s')
  {
    hide Steady;
    forall d | d in s'.attempts && d != a ensures AttemptUntouched(s, s', d) {
      assert AttemptInv(cfg, s, d);
    }
    AttemptsKept(cfg, s, s', {a});
  }

  lemma CallAttemptKeeps(cfg: Config, s: State, s': State, c: nat, a: nat)
    requires ValidConfig(cfg) && Inv(cfg, s) && Attempts(cfg, s, s', c, a) && a !in s.abandoned
    ensures Inv(cfg, s') && Mono(s, s')
  {
    hide CallsOk, AttemptsOk, TokensOk, ThreadsOk, CacheOk, Steady;
    AttemptsMono(cfg, s, s', c, a);
    AttemptsTokens(cfg, s, s', c, a);
    AttemptsCalls(cfg, s, s', c, a);
    AttemptsAttempts(cfg, s, s', c, a);
    CacheSame(cfg, s, s');
    OthersKept(cfg, s, s', {});
  }

  lemma AttemptWriteKeeps(cfg: Config, s: State, s': State, a: nat, content: seq<byte>)
    requires ValidConfig(cfg) && Inv(cfg, s) && FetchStep(cfg, s, s', AttemptWrite(a, content))
    ensures Inv(cfg, s') && Mono(s, s')
  {
    hide CallsOk, TokensOk, CacheOk, ThreadsOk;
    AttemptFacts(cfg, s, a);
    ReadMoved(cfg, s, s', {});
  }

  lemma AttemptFinishKeeps(cfg: Config, s: State, s': State, a: nat, n: nat, ok: bool)
    requires ValidConfig(cfg) && Inv(cfg, s) && FetchStep(cfg, s, s', AttemptFinish(a, n, ok))
    ensures Inv(cfg, s') && Mono(s, s')
  {
    hide CallsOk, TokensOk, CacheOk, ThreadsOk;
    AttemptFacts(cfg, s, a);
    ReadMoved(cfg, s, s', {a});
  }

  lemma FetchStepKeeps(cfg: Config, s: State, s': State, e: Step)
    requires ValidConfig(cfg) && Inv(cfg, s) && FetchStep(cfg, s, s', e)
    ensures Inv(cfg, s') && Mono(s, s')
  {
    hide Inv, Mono;
    match e
    case CallCheck(c) => CallCheckKeeps(cfg, s, s', c);
    case CallAcquire(c) => CallAcquireKeeps(cfg, s, s', c);
    case CallGiveUp(c) => CallEnds(cfg, s, s', c, None);
    case CallAttempt(c, a) =>
      AbandonedKnown(cfg, s, a);
      CallAttemptKeeps(cfg, s, s', c, a);
    case CallTimeout(c) => CallTimeoutKeeps(cfg, s, s', c);
    case CallReceive(c) => CallReceiveKeeps(cfg, s, s', c);
    case CallStore(c, victims) => CallStoreKeeps(cfg, s, s', c, victims);
    case CallReturn(c) => CallReturnKeeps(cfg, s, s', c);
    case AttemptWrite(a, content) => AttemptWriteKeeps(cfg, s, s', a, content);
    case AttemptFinish(a, n, ok) => AttemptFinishKeeps(cfg, s, s', a, n, ok);
    case _ =>
  }

  lemma AbandonedKnown(cfg: Config, s: State, a: nat)
    requires ValidConfig(cfg) && Inv(cfg, s) && a !in s.attempts
    ensures a !in s.abandoned
  {
  }

  // ---- shutdown ----

  lemma CloserMoved(cfg: Config, s: State, s': State, t: nat, pc: CloserPc, closed: bool)
    requires ValidConfig(cfg) && Inv(cfg, s) && (t in s.threads ==> s.threads[t].Closer?) && t !in s.registered
    requires s' == SetThread(s, t, Closer(pc)).(closed := closed)
    requires ThreadInv(cfg, s.(closed := closed), Closer(pc), t) && (s.closed ==> closed)
    ensures Inv(cfg, s') && Mono(s, s')
  {
    hide CallsOk, AttemptsOk, TokensOk, ThreadsOk, CacheOk;
    if t in s.threads {
      NotWaitingLeadsNothing(cfg, s, t);
    } else {
      NewThreadLeadsNothing(cfg, s, t);
    }
    ThreadMoved(cfg, s, s', t);
  }

  lemma CloserFacts(cfg: Config, s: State, t: nat)
    requires ValidConfig(cfg) && Inv(cfg, s) && (t in s.threads ==> s.threads[t].Closer?)
    ensures t !in s.registered && (t in s.threads ==> ThreadInv(cfg, s, s.threads[t], t))
  {
  }

  lemma CloseClearKeeps(cfg: Config, s: State, s': State, t: nat)
    requires ValidConfig(cfg) && Inv(cfg, s) && CloseStep(s, s', CloseClear(t))
    ensures Inv(cfg, s') && Mono(s, s')
  {
    hide CallsOk, AttemptsOk, TokensOk, ThreadsOk, CacheOk, Steady;
    CloserFacts(cfg, s, t);
    var s1 := s.(cache := map[]);
    CacheMovedRest(cfg, s, s1);
    CacheMovedCalls(cfg, s, s1);
    CacheShrinks(cfg, s, s1);
    OthersKept(cfg, s, s1, {});
    CloserMoved(cfg, s1, s', t, CloseReturned(true), s.closed);
    MonoTransitive(s, s1, s');
  }

  lemma CloseStepKeeps(cfg: Config, s: State, s': State, e: Step)
    requires ValidConfig(cfg) && Inv(cfg, s) && CloseStep(s, s', e)
    ensures Inv(cfg, s') && Mono(s, s')
  {
    hide Inv, Mono;
    CloserFacts(cfg, s, e.t);
    match e
    case InvokeClose(t) => CloserMoved(cfg, s, s', t, CloseCalled, s.closed);
    case CloseBegin(t) => CloserMoved(cfg, s, s', t, if s.closed then CloseReturned(false) else CloseWaiting, true);
    case CloseWaited(t) => CloserMoved(cfg, s, s', t, CloseClearing, s.closed);
    case CloseClear(t) => CloseClearKeeps(cfg, s, s', t);
    case _ =>
  }

  lemma NextKeeps(cfg: Config, s: State, s': State, e: Step)
    requires ValidConfig(cfg) && Inv(cfg, s) && Next(cfg, s, s', e)
    ensures Inv(cfg, s') && Mono(s, s')
  {
    hide Inv, Mono, ReaderStep, HelperStep, FetchStep, CloseStep;
    if ReaderStep(cfg, s, s', e) {
      ReaderStepKeeps(cfg, s, s', e);
    } else if HelperStep(cfg, s, s', e) {
      HelperStepKeeps(cfg, s, s', e);
    } else if FetchStep(cfg, s, s', e) {
      FetchStepKeeps(cfg, s, s', e);
    } else {
      CloseStepKeeps(cfg, s, s', e);
    }
  }
}
