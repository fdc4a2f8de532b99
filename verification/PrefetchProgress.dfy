/** Every read can be completed: from each state that a run reaches, some undisturbed continuation answers it. */
module PrefetchProgress {
  import opened Basics
  import opened Prefetch
  import opened PrefetchInvariant
  import opened PrefetchRuns
  import opened PrefetchSteps
  import opened PrefetchTheorems

  // ---- undisturbed continuations ----

  /** Nothing fails, is given up on or shut down, and no new read arrives. */
  predicate Undisturbed(e: Step) {
    && !Failure(e) && !(e.AheadRead? && !e.ok) && !e.Invoke?
    && !e.InvokeClose? && !e.CloseBegin? && !e.CloseWaited? && !e.CloseClear?
  }

  ghost predicate LeadsTo(cfg: Config, s: State, s': State, n: nat)
    requires ValidConfig(cfg)
    decreases n
  {
    if n == 0 then s' == s
    else exists m, e :: Next(cfg, s, m, e) && Undisturbed(e) && LeadsTo(cfg, m, s', n - 1)
  }

  ghost predicate CanReach(cfg: Config, s: State, s': State)
    requires ValidConfig(cfg)
  {
    exists n: nat :: LeadsTo(cfg, s, s', n)
  }

  lemma Stay(cfg: Config, s: State)
    requires ValidConfig(cfg)
    ensures CanReach(cfg, s, s)
  {
    assert LeadsTo(cfg, s, s, 0);
  }

  lemma {:induction false} LeadsOn(cfg: Config, s: State, m: State, s': State, n: nat, k: nat)
    requires ValidConfig(cfg) && LeadsTo(cfg, s, m, n) && LeadsTo(cfg, m, s', k)
    ensures LeadsTo(cfg, s, s', n + k)
    decreases n
  {
    hide Next;
    if n > 0 {
      var m', e :| Next(cfg, s, m', e) && Undisturbed(e) && LeadsTo(cfg, m', m, n - 1);
      LeadsOn(cfg, m', m, s', n - 1, k);
      assert LeadsTo(cfg, m', s', n + k - 1);
    }
  }

  lemma Then(cfg: Config, s: State, m: State, s': State)
    requires ValidConfig(cfg) && CanReach(cfg, s, m) && CanReach(cfg, m, s')
    ensures CanReach(cfg, s, s')
  {
    hide LeadsTo;
    var n: nat :| LeadsTo(cfg, s, m, n);
    var k: nat :| LeadsTo(cfg, m, s', k);
    LeadsOn(cfg, s, m, s', n, k);
  }

  /** One step on the way. */
  lemma GoOn(cfg: Config, s: State, m: State, s': State, e: Step)
    requires ValidConfig(cfg) && CanReach(cfg, s, m) && Inv(cfg, m) && Next(cfg, m, s', e) && Undisturbed(e)
    ensures Inv(cfg, s') && CanReach(cfg, s, s')
  {
    hide Inv, Mono;
    NextKeeps(cfg, m, s', e);
    hide Next;
    assert LeadsTo(cfg, s', s', 0);
    assert LeadsTo(cfg, m, s', 1);
    Then(cfg, s, m, s');
  }

  lemma GoFetch(cfg: Config, s: State, m: State, s': State, e: Step)
    requires ValidConfig(cfg) && CanReach(cfg, s, m) && Inv(cfg, m) && FetchStep(cfg, m, s', e) && Undisturbed(e)
    ensures Inv(cfg, s') && CanReach(cfg, s, s')
  {
    hide Inv, CanReach, FetchStep, HelperStep, ReaderStep, CloseStep;
    GoOn(cfg, s, m, s', e);
  }

  lemma GoHelper(cfg: Config, s: State, m: State, s': State, e: Step)
    requires ValidConfig(cfg) && CanReach(cfg, s, m) && Inv(cfg, m) && HelperStep(cfg, m, s', e) && Undisturbed(e)
    ensures Inv(cfg, s') && CanReach(cfg, s, s')
  {
    hide Inv, CanReach, FetchStep, HelperStep, ReaderStep, CloseStep;
    GoOn(cfg, s, m, s', e);
  }

  lemma GoReader(cfg: Config, s: State, m: State, s': State, e: Step)
    requires ValidConfig(cfg) && CanReach(cfg, s, m) && Inv(cfg, m) && ReaderStep(cfg, m, s', e) && Undisturbed(e)
    ensures Inv(cfg, s') && CanReach(cfg, s, s')
  {
    hide Inv, CanReach, FetchStep, HelperStep, ReaderStep, CloseStep;
    GoOn(cfg, s, m, s', e);
  }

  lemma {:induction false} FreshNumber(used: set<nat>) returns (k: nat)
    ensures forall u | u in used :: u < k
    decreases |used|
  {
    if used == {} {
      k := 0;
    } else {
      var u :| u in used;
      var k' := FreshNumber(used - {u});
      k := if k' <= u then u + 1 else k';
      forall v | v in used ensures v < k {
        assert v == u || v in used - {u};
      }
    }
  }

  // ---- a fetch that holds a token returns ----

  /** Nothing changes but the call, its token, its attempts, buffers and the cache. */
  ghost predicate OnlyCall(s: State, s': State, c: nat) {
    && s'.threads == s.threads && s'.closed == s.closed && s'.tokens - {ByCall(c)} == s.tokens - {ByCall(c)}
    && s'.calls.Keys == s.calls.Keys
    && forall d | d in s.calls && d != c :: s'.calls[d] == s.calls[d]
  }

  lemma OnlyCallTransitive(s: State, m: State, s': State, c: nat)
    requires OnlyCall(s, m, c) && OnlyCall(m, s', c)
    ensures OnlyCall(s, s', c)
  {
  }

  /** What a successful read leaves in the buffer. */
  function Filled(cfg: Config, index: nat): (content: seq<byte>)
    requires cfg.chunkSize > 0
    ensures |content| == cfg.chunkSize && ChunkData(cfg, index) <= content
  {
    ChunkData(cfg, index) + Zeroes(cfg.chunkSize - |ChunkData(cfg, index)|)
  }

  /** A running attempt reads its chunk to the end. */
  lemma AttemptReads(cfg: Config, s: State, a: nat) returns (s': State)
    requires ValidConfig(cfg) && Inv(cfg, s) && a in s.attempts && s.attempts[a].status == Running
    ensures Inv(cfg, s') && CanReach(cfg, s, s')
    ensures s' == s.(buffers := s'.buffers, attempts := s'.attempts) && a in s'.attempts
    ensures s'.attempts[a].status.Finished? && s'.attempts[a].status.ok
  {
    hide CanReach, Inv, ChunkData, Zeroes;
    var index, b := s.attempts[a].index, OfAttempt(a);
    var content, n := Filled(cfg, index), |ChunkData(cfg, index)|;
    Stay(cfg, s);
    var s1 := s.(buffers := s.buffers[b := content]);
    GoFetch(cfg, s, s, s1, AttemptWrite(a, content));
    assert Delivered(cfg, s1, b, index, n);
    s' := s1.(attempts := s1.attempts[a := s1.attempts[a].(status := Finished(n, true))]);
    hide Delivered, Filled;
    GoFetch(cfg, s, s1, s', AttemptFinish(a, n, true));
  }

  lemma AwaitedAttempt(cfg: Config, s: State, c: nat)
    requires ValidConfig(cfg) && Inv(cfg, s) && c in s.calls && s.calls[c].pc.Awaiting?
    ensures s.calls[c].pc.attempt in s.attempts
  {
    hide ThreadsOk, AttemptsOk, CacheOk, TokensOk;
    assert CallInv(cfg, s, c);
  }

  lemma ReceiveStep(cfg: Config, s: State, c: nat) returns (s': State)
    requires c in s.calls && s.calls[c].pc.Awaiting?
    requires s.calls[c].pc.attempt in s.attempts && s.attempts[s.calls[c].pc.attempt].status.Finished?
    ensures Receives(cfg, s, s', c) && OnlyCall(s, s', c) && c in s'.calls
    ensures s.attempts[s.calls[c].pc.attempt].status.ok ==> s'.calls[c].pc.Storing?
    ensures HasResult(s', c)
  {
    var Awaiting(started, a) := s.calls[c].pc;
    if s.attempts[a].status.ok {
      s' := SetCall(s, c, Storing(Chunk(s.calls[c].index, OfAttempt(a), s.attempts[a].status.n)));
    } else {
      s' := AttemptFailed(cfg, s, c, started);
    }
  }

  /** The call has its chunk, may try again, or has returned its token and failed. */
  ghost predicate HasResult(s: State, c: nat)
    requires c in s.calls
  {
    var pc := s.calls[c].pc;
    pc.Storing? || pc.Holding? || (pc.Returned? && ByCall(c) !in s.tokens)
  }

  /** The call takes the attempt's result: it has its chunk, tries again, or has failed. */
  lemma CallTakes(cfg: Config, s: State, c: nat) returns (s': State)
    requires ValidConfig(cfg) && Inv(cfg, s) && c in s.calls && s.calls[c].pc.Awaiting?
    requires s.calls[c].pc.attempt in s.attempts && s.attempts[s.calls[c].pc.attempt].status.Finished?
    ensures Inv(cfg, s') && CanReach(cfg, s, s') && OnlyCall(s, s', c) && c in s'.calls && HasResult(s', c)
    ensures s.attempts[s.calls[c].pc.attempt].status.ok ==> s'.calls[c].pc.Storing?
  {
    hide CanReach, Inv, Receives, FetchStep, OnlyCall;
    Stay(cfg, s);
    s' := ReceiveStep(cfg, s, c);
    FetchIs(cfg, s, s', CallReceive(c));
    GoFetch(cfg, s, s, s', CallReceive(c));
  }

  lemma CallReceives(cfg: Config, s: State, c: nat) returns (s': State)
    requires ValidConfig(cfg) && Inv(cfg, s) && c in s.calls && s.calls[c].pc.Awaiting?
    ensures Inv(cfg, s') && CanReach(cfg, s, s') && OnlyCall(s, s', c) && c in s'.calls
    ensures var a := s.calls[c].pc.attempt; a in s.attempts && (s.attempts[a].status == Running ==>
              s'.calls[c].pc.Storing?)
    ensures HasResult(s', c)
  {
    hide CanReach, Inv;
    AwaitedAttempt(cfg, s, c);
    var a := s.calls[c].pc.attempt;
    if s.attempts[a].status == Running {
      var s1 := AttemptReads(cfg, s, a);
      s' := CallTakes(cfg, s1, c);
      Then(cfg, s, s1, s');
    } else {
      s' := CallTakes(cfg, s, c);
    }
  }

  lemma PutStep(cfg: Config, s: State, c: nat) returns (s': State)
    requires c in s.calls && s.calls[c].pc.Storing?
    ensures FetchStep(cfg, s, s', CallStore(c, {})) && OnlyCall(s, s', c) && c in s'.calls
        && s'.calls[c].pc.Releasing?
  {
    hide AddChunk, LooksUp, Receives;
    s' := SetCall(AddChunk(s, s.calls[c].pc.ch, {}), c, Releasing(s.calls[c].pc.ch));
  }

  lemma ReleaseStep(cfg: Config, s: State, c: nat) returns (s': State)
    requires c in s.calls && s.calls[c].pc.Releasing?
    ensures FetchStep(cfg, s, s', CallReturn(c)) && OnlyCall(s, s', c)
    ensures c in s'.calls && s'.calls[c].pc.Returned? && ByCall(c) !in s'.tokens
  {
    hide AddChunk, LooksUp, Receives;
    s' := EndCall(s, c, Some(s.calls[c].pc.ch));
  }

  lemma CallPuts(cfg: Config, s: State, c: nat) returns (s': State)
    requires ValidConfig(cfg) && Inv(cfg, s) && c in s.calls && s.calls[c].pc.Storing?
    ensures Inv(cfg, s') && CanReach(cfg, s, s') && OnlyCall(s, s', c) && c in s'.calls && s'.calls[c].pc.Releasing?
  {
    hide CanReach, Inv, FetchStep, OnlyCall;
    Stay(cfg, s);
    s' := PutStep(cfg, s, c);
    GoFetch(cfg, s, s, s', CallStore(c, {}));
  }

  lemma CallReleases(cfg: Config, s: State, c: nat) returns (s': State)
    requires ValidConfig(cfg) && Inv(cfg, s) && c in s.calls && s.calls[c].pc.Releasing?
    ensures Inv(cfg, s') && CanReach(cfg, s, s') && OnlyCall(s, s', c)
    ensures c in s'.calls && s'.calls[c].pc.Returned? && ByCall(c) !in s'.tokens
  {
    hide CanReach, Inv, FetchStep, OnlyCall;
    Stay(cfg, s);
    s' := ReleaseStep(cfg, s, c);
    GoFetch(cfg, s, s, s', CallReturn(c));
  }

  /** A chunk in hand is stored and returned. */
  lemma CallStores(cfg: Config, s: State, c: nat) returns (s': State)
    requires ValidConfig(cfg) && Inv(cfg, s) && c in s.calls && (s.calls[c].pc.Storing? || s.calls[c].pc.Releasing?)
    ensures Inv(cfg, s') && CanReach(cfg, s, s') && OnlyCall(s, s', c)
    ensures c in s'.calls && s'.calls[c].pc.Returned? && ByCall(c) !in s'.tokens
  {
    hide CanReach, Inv, OnlyCall;
    if s.calls[c].pc.Storing? {
      var s1 := CallPuts(cfg, s, c);
      s' := CallReleases(cfg, s1, c);
      Then(cfg, s, s1, s');
      OnlyCallTransitive(s, s1, s', c);
    } else {
      s' := CallReleases(cfg, s, c);
    }
  }

  /** Between attempts: one more attempt. */
  lemma CallAttempts(cfg: Config, s: State, c: nat) returns (s': State)
    requires ValidConfig(cfg) && Inv(cfg, s) && c in s.calls && s.calls[c].pc.Holding?
    ensures Inv(cfg, s') && CanReach(cfg, s, s') && OnlyCall(s, s', c)
    ensures c in s'.calls && s'.calls[c].pc.Awaiting? && s'.calls[c].pc.attempt in s'.attempts
    ensures s'.attempts[s'.calls[c].pc.attempt].status == Running
  {
    hide CanReach, Inv, Zeroes;
    var a := FreshNumber(s.attempts.Keys);
    s' := s.(calls := s.calls[c := s.calls[c].(pc := Awaiting(s.calls[c].pc.started + 1, a))],
             attempts := s.attempts[a := Attempt(s.calls[c].index, c, Running)],
             buffers := s.buffers[OfAttempt(a) := Zeroes(cfg.chunkSize)]);
    Stay(cfg, s);
    GoFetch(cfg, s, s, s', CallAttempt(c, a));
  }

  lemma HoldingReturns(cfg: Config, s: State, c: nat) returns (s': State)
    requires ValidConfig(cfg) && Inv(cfg, s) && c in s.calls && s.calls[c].pc.Holding?
    ensures Inv(cfg, s') && CanReach(cfg, s, s') && OnlyCall(s, s', c)
    ensures c in s'.calls && s'.calls[c].pc.Returned? && ByCall(c) !in s'.tokens
  {
    hide CanReach, Inv, OnlyCall;
    var s1 := CallAttempts(cfg, s, c);
    var s2 := CallReceives(cfg, s1, c);
    Then(cfg, s, s1, s2);
    OnlyCallTransitive(s, s1, s2, c);
    s' := CallStores(cfg, s2, c);
    Then(cfg, s, s2, s');
    OnlyCallTransitive(s, s2, s', c);
  }

  lemma HolderReturns(cfg: Config, s: State, c: nat) returns (s': State)
    requires ValidConfig(cfg) && Inv(cfg, s) && c in s.calls && OwnsToken(s.calls[c].pc)
    ensures Inv(cfg, s') && CanReach(cfg, s, s') && OnlyCall(s, s', c)
    ensures c in s'.calls && s'.calls[c].pc.Returned? && ByCall(c) !in s'.tokens
  {
    hide CanReach, Inv, OnlyCall;
    if s.calls[c].pc.Storing? || s.calls[c].pc.Releasing? {
      s' := CallStores(cfg, s, c);
    } else if s.calls[c].pc.Holding? {
      s' := HoldingReturns(cfg, s, c);
    } else {
      var s1 := CallReceives(cfg, s, c);
      s' := s1;
      if s1.calls[c].pc.Storing? {
        s' := CallStores(cfg, s1, c);
      } else if s1.calls[c].pc.Holding? {
        s' := HoldingReturns(cfg, s1, c);
      }
      if !s1.calls[c].pc.Returned? {
        Then(cfg, s, s1, s');
        OnlyCallTransitive(s, s1, s', c);
      }
    }
  }

  // ---- the semaphore has room, or can be given room ----

  /** Readers and the call are as before. */
  ghost predicate Waits(s: State, s': State, c: nat) {
    && s'.closed == s.closed && c in s.calls && c in s'.calls && s'.calls[c] == s.calls[c]
    && forall t | IsReader(s, t) :: IsReader(s', t) && s'.threads[t] == s.threads[t]
  }

  /** Nothing changes but the read-ahead task, its buffer and the cache. */
  ghost predicate OnlyAhead(s: State, s': State, u: nat) {
    && s'.closed == s.closed && s'.calls == s.calls && IsAhead(s', u) && s'.threads == s.threads[u := s'.threads[u]]
  }

  lemma AheadReads(cfg: Config, s: State, u: nat) returns (s': State)
    requires ValidConfig(cfg) && Inv(cfg, s) && IsAhead(s, u) && s.threads[u].apc.AheadReading?
    ensures Inv(cfg, s') && CanReach(cfg, s, s') && OnlyAhead(s, s', u) && s'.tokens == s.tokens
    ensures s'.threads[u].apc.AheadStoring?
  {
    hide CanReach, Inv, ChunkData, Zeroes;
    var index, b := s.threads[u].index, OfAhead(u);
    var content, n := Filled(cfg, index), |ChunkData(cfg, index)|;
    Stay(cfg, s);
    var s1 := s.(buffers := s.buffers[b := content]);
    GoHelper(cfg, s, s, s1, AheadWrite(u, content));
    assert Delivered(cfg, s1, b, index, n);
    hide Delivered, Filled;
    s' := SetThread(s1, u, s1.threads[u].(apc := AheadStoring(n)));
    GoHelper(cfg, s, s1, s', AheadRead(u, n, true));
  }

  lemma AheadStores(cfg: Config, s: State, u: nat) returns (s': State)
    requires ValidConfig(cfg) && Inv(cfg, s) && IsAhead(s, u) && s.threads[u].apc.AheadStoring?
    ensures Inv(cfg, s') && CanReach(cfg, s, s') && OnlyAhead(s, s', u) && s'.tokens == s.tokens
    ensures s'.threads[u].apc.AheadReleasing?
  {
    hide CanReach, Inv, AddChunk;
    var ch := Chunk(s.threads[u].index, OfAhead(u), s.threads[u].apc.n);
    s' := SetThread(AddChunk(s, ch, {}), u, s.threads[u].(apc := AheadReleasing));
    Stay(cfg, s);
    GoHelper(cfg, s, s, s', AheadStore(u, {}));
  }

  lemma AheadReleases(cfg: Config, s: State, u: nat) returns (s': State)
    requires ValidConfig(cfg) && Inv(cfg, s) && IsAhead(s, u) && s.threads[u].apc.AheadReleasing?
    ensures Inv(cfg, s') && CanReach(cfg, s, s') && OnlyAhead(s, s', u) && s'.tokens == s.tokens - {ByAhead(u)}
  {
    hide CanReach, Inv;
    s' := s.(threads := s.threads[u := s.threads[u].(apc := AheadDone)], registered := s.registered - {u},
             tokens := s.tokens - {ByAhead(u)});
    Stay(cfg, s);
    GoHelper(cfg, s, s, s', AheadRelease(u));
  }

  lemma OnlyAheadTransitive(s: State, m: State, s': State, u: nat)
    requires OnlyAhead(s, m, u) && OnlyAhead(m, s', u)
    ensures OnlyAhead(s, s', u)
  {
  }

  /** A read-ahead task that holds a token finishes and gives it back. */
  lemma AheadReturns(cfg: Config, s: State, u: nat) returns (s': State)
    requires ValidConfig(cfg) && Inv(cfg, s) && IsAhead(s, u) && AheadOwnsToken(s.threads[u].apc)
    ensures Inv(cfg, s') && CanReach(cfg, s, s') && OnlyAhead(s, s', u) && s'.tokens == s.tokens - {ByAhead(u)}
  {
    Stay(cfg, s);
    assert OnlyAhead(s, s, u);
    hide CanReach, Inv, OnlyAhead;
    var s1 := s;
    if s.threads[u].apc.AheadReading? {
      s1 := AheadReads(cfg, s, u);
      AheadStays(s, s1, u);
    }
    var s2 := s1;
    if s1.threads[u].apc.AheadStoring? {
      s2 := AheadStores(cfg, s1, u);
      AheadStays(s1, s2, u);
      Then(cfg, s, s1, s2);
      OnlyAheadTransitive(s, s1, s2, u);
    }
    s' := AheadReleases(cfg, s2, u);
    Then(cfg, s, s2, s');
    OnlyAheadTransitive(s, s2, s', u);
  }

  lemma AheadStays(s: State, s': State, u: nat)
    requires OnlyAhead(s, s', u)
    ensures IsAhead(s', u)
  {
  }

  lemma TokenOwner(cfg: Config, s: State, k: Token)
    requires ValidConfig(cfg) && Inv(cfg, s) && k in s.tokens
    ensures match k
            case ByCall(d) => d in s.calls && OwnsToken(s.calls[d].pc)
            case ByAhead(u) => IsAhead(s, u) && AheadOwnsToken(s.threads[u].apc)
  {
    hide ThreadsOk, AttemptsOk, CacheOk;
    assert TokenInv(s, k);
    if k.ByCall? {
      assert CallInv(cfg, s, k.call);
    }
  }

  lemma TokensFit(cfg: Config, s: State)
    requires ValidConfig(cfg) && Inv(cfg, s)
    ensures |s.tokens| <= cfg.maxParallelReads && 0 < cfg.maxParallelReads
  {
  }

  /** Whoever holds a token, a call that waits for one can get it. */
  lemma RoomForCall(cfg: Config, s: State, c: nat) returns (s': State)
    requires ValidConfig(cfg) && Inv(cfg, s) && c in s.calls && s.calls[c].pc == Acquiring
    ensures Inv(cfg, s') && CanReach(cfg, s, s') && Waits(s, s', c) && |s'.tokens| < cfg.maxParallelReads
  {
    TokensFit(cfg, s);
    hide CanReach, Inv, OnlyCall, OnlyAhead;
    if |s.tokens| < cfg.maxParallelReads {
      s' := s;
      Stay(cfg, s);
    } else {
      assert s.tokens != {};
      var k :| k in s.tokens;
      TokenOwner(cfg, s, k);
      if k.ByCall? {
        s' := HolderReturns(cfg, s, k.call);
        CallTokenFreed(s, s', k.call, c);
      } else {
        s' := AheadReturns(cfg, s, k.thread);
        AheadTokenFreed(s, s', k.thread, c);
      }
    }
  }

  lemma CallTokenFreed(s: State, s': State, d: nat, c: nat)
    requires OnlyCall(s, s', d) && ByCall(d) in s.tokens && ByCall(d) !in s'.tokens
    requires c in s.calls && c != d
    ensures Waits(s, s', c) && |s'.tokens| < |s.tokens|
  {
    assert s'.tokens == s.tokens - {ByCall(d)};
  }

  lemma AheadTokenFreed(s: State, s': State, u: nat, c: nat)
    requires IsAhead(s, u) && OnlyAhead(s, s', u) && ByAhead(u) in s.tokens && s'.tokens == s.tokens - {ByAhead(u)}
    requires c in s.calls
    ensures Waits(s, s', c) && |s'.tokens| < |s.tokens|
  {
  }

  /** A call that anyone waits for returns. */
  lemma CallReturns(cfg: Config, s: State, c: nat) returns (s': State)
    requires ValidConfig(cfg) && Inv(cfg, s) && c in s.calls
    ensures Inv(cfg, s') && CanReach(cfg, s, s') && c in s'.calls && s'.calls[c].pc.Returned?
    ensures s'.closed == s.closed
    ensures forall t | IsReader(s, t) :: IsReader(s', t) && s'.threads[t] == s.threads[t]
  {
    hide CanReach, Inv, OnlyCall;
    Stay(cfg, s);
    if s.calls[c].pc == Checking {
      var s1 := CallLooks(cfg, s, c);
      if s1.calls[c].pc == Acquiring {
        s' := AcquiringReturns(cfg, s1, c);
        Then(cfg, s, s1, s');
      } else {
        s' := s1;
      }
    } else if s.calls[c].pc == Acquiring {
      s' := AcquiringReturns(cfg, s, c);
    } else if OwnsToken(s.calls[c].pc) {
      s' := HolderReturns(cfg, s, c);
      OthersUntouched(s, s', c);
    } else {
      s' := s;
    }
  }

  lemma OthersUntouched(s: State, s': State, c: nat)
    requires OnlyCall(s, s', c)
    ensures s'.threads == s.threads && s'.closed == s.closed
  {
  }

  lemma LookUpStep(s: State, c: nat) returns (s': State)
    requires c in s.calls && s.calls[c].pc == Checking
    ensures LooksUp(s, s', c) && s'.threads == s.threads && s'.closed == s.closed
    ensures c in s'.calls && (s'.calls[c].pc == Acquiring || s'.calls[c].pc.Returned?)
  {
    if s.calls[c].index in s.cache {
      s' := EndCall(s, c, Some(s.cache[s.calls[c].index]));
    } else {
      s' := SetCall(s, c, Acquiring);
    }
  }

  lemma FetchIs(cfg: Config, s: State, s': State, e: Step)
    requires (e.CallCheck? && LooksUp(s, s', e.c)) || (e.CallReceive? && Receives(cfg, s, s', e.c))
    ensures FetchStep(cfg, s, s', e)
  {
    hide LooksUp, Receives;
  }

  lemma CallLooks(cfg: Config, s: State, c: nat) returns (s': State)
    requires ValidConfig(cfg) && Inv(cfg, s) && c in s.calls && s.calls[c].pc == Checking
    ensures Inv(cfg, s') && CanReach(cfg, s, s') && s'.threads == s.threads && s'.closed == s.closed
    ensures c in s'.calls && (s'.calls[c].pc == Acquiring || s'.calls[c].pc.Returned?)
  {
    hide CanReach, Inv, LooksUp, FetchStep;
    Stay(cfg, s);
    s' := LookUpStep(s, c);
    FetchIs(cfg, s, s', CallCheck(c));
    GoFetch(cfg, s, s, s', CallCheck(c));
  }

  lemma AcquireStep(cfg: Config, s: State, c: nat) returns (s': State)
    requires c in s.calls && s.calls[c].pc == Acquiring && |s.tokens| < cfg.maxParallelReads
    ensures FetchStep(cfg, s, s', CallAcquire(c)) && s'.threads == s.threads && s'.closed == s.closed
    ensures c in s'.calls && s'.calls[c].pc.Holding?
  {
    hide LooksUp, Receives;
    s' := s.(calls := s.calls[c := s.calls[c].(pc := Holding(0))], tokens := s.tokens + {ByCall(c)});
  }

  lemma CallAcquires(cfg: Config, s: State, c: nat) returns (s': State)
    requires ValidConfig(cfg) && Inv(cfg, s) && c in s.calls && s.calls[c].pc == Acquiring
    requires |s.tokens| < cfg.maxParallelReads
    ensures Inv(cfg, s') && CanReach(cfg, s, s') && s'.threads == s.threads && s'.closed == s.closed
    ensures c in s'.calls && s'.calls[c].pc.Holding?
  {
    hide CanReach, Inv, FetchStep;
    Stay(cfg, s);
    s' := AcquireStep(cfg, s, c);
    GoFetch(cfg, s, s, s', CallAcquire(c));
  }

  lemma AcquiringReturns(cfg: Config, s: State, c: nat) returns (s': State)
    requires ValidConfig(cfg) && Inv(cfg, s) && c in s.calls && s.calls[c].pc == Acquiring
    ensures Inv(cfg, s') && CanReach(cfg, s, s') && c in s'.calls && s'.calls[c].pc.Returned?
    ensures s'.closed == s.closed
    ensures forall t | IsReader(s, t) :: IsReader(s', t) && s'.threads[t] == s.threads[t]
  {
    hide CanReach, Inv, OnlyCall;
    var s1 := RoomForCall(cfg, s, c);
    var s2 := CallAcquires(cfg, s1, c);
    Then(cfg, s, s1, s2);
    s' := HolderReturns(cfg, s2, c);
    OthersUntouched(s2, s', c);
    Then(cfg, s, s2, s');
  }

  // ---- a reader goes on to its answer ----

  ghost predicate IsAnswered(s: State, t: nat) { IsReader(s, t) && s.threads[t].rpc.Answered? }

  lemma EnterStep(cfg: Config, s: State, t: nat) returns (s': State)
    requires ValidConfig(cfg) && IsReader(s, t) && s.threads[t].rpc == Invoked
    ensures ReaderStep(cfg, s, s', Enter(t)) && IsReader(s', t) && (IsAnswered(s', t) || s'.threads[t].rpc == Entered)
  {
    hide Starts, Resumes, CopiesBytes;
    s' := if s.closed then SetThread(s, t, s.threads[t].(rpc := Answered([], PrefetcherClosed)))
          else s.(threads := s.threads[t := s.threads[t].(rpc := Entered)], registered := s.registered + {t});
  }

  lemma ReaderEnters(cfg: Config, s: State, t: nat) returns (s': State)
    requires ValidConfig(cfg) && Inv(cfg, s) && IsReader(s, t) && s.threads[t].rpc == Invoked
    ensures Inv(cfg, s') && CanReach(cfg, s, s') && IsReader(s', t)
    ensures IsAnswered(s', t) || s'.threads[t].rpc == Entered
  {
    hide CanReach, Inv, ReaderStep;
    Stay(cfg, s);
    s' := EnterStep(cfg, s, t);
    GoReader(cfg, s, s, s', Enter(t));
  }

  lemma StartStep(cfg: Config, s: State, t: nat) returns (s': State)
    requires ValidConfig(cfg) && IsReader(s, t) && s.threads[t].rpc == Entered
    ensures Starts(cfg, s, s', t) && IsReader(s', t) && (IsAnswered(s', t) || s'.threads[t].rpc.Requiring?)
  {
    hide StartChunk, Overruns;
    var req := s.threads[t].req;
    if !Proceeds(cfg, req) {
      s' := Leave(s, t, Reader(req, Answered([], ValidateRead(cfg, req))));
    } else if Overruns(cfg, req) {
      s' := Leave(EvictBefore(s, StartChunk(cfg, req)), t, Reader(req, Answered([], EOF)));
    } else {
      s' := SetThread(EvictBefore(s, StartChunk(cfg, req)), t, Reader(req, Requiring(StartChunk(cfg, req))));
    }
  }

  lemma ReaderStarts(cfg: Config, s: State, t: nat) returns (s': State)
    requires ValidConfig(cfg) && Inv(cfg, s) && IsReader(s, t) && s.threads[t].rpc == Entered
    ensures Inv(cfg, s') && CanReach(cfg, s, s') && IsReader(s', t)
    ensures IsAnswered(s', t) || s'.threads[t].rpc.Requiring?
  {
    hide CanReach, Inv, Starts, Resumes, CopiesBytes;
    Stay(cfg, s);
    s' := StartStep(cfg, s, t);
    StepIs(cfg, s, s', Start(t));
    hide ReaderStep;
    GoReader(cfg, s, s, s', Start(t));
  }

  lemma StepIs(cfg: Config, s: State, s': State, e: Step)
    requires ValidConfig(cfg)
    requires || (e.Start? && Starts(cfg, s, s', e.t)) || (e.Resume? && Resumes(s, s', e.t))
             || (e.CopyBytes? && CopiesBytes(cfg, s, s', e.t))
    ensures ReaderStep(cfg, s, s', e)
  {
    hide Starts, Resumes, CopiesBytes;
  }

  lemma ReaderAsked(cfg: Config, s: State, t: nat)
    requires ValidConfig(cfg) && Inv(cfg, s) && IsReader(s, t)
    requires var pc := s.threads[t].rpc; !pc.Invoked? && !pc.Entered? && !pc.Answered?
    ensures Proceeds(cfg, s.threads[t].req)
  {
    hide CallsOk, AttemptsOk, CacheOk, TokensOk, CopyInv, Good, LoopGoesOn, Overruns, ValidateRead;
    assert ThreadInv(cfg, s, s.threads[t], t);
  }

  lemma SkipRequiredStep(cfg: Config, s: State, t: nat) returns (s': State)
    requires ValidConfig(cfg) && IsReader(s, t) && s.threads[t].rpc.Requiring? && Proceeds(cfg, s.threads[t].req)
    requires var next := s.threads[t].rpc.next;
             next > EndChunk(cfg, s.threads[t].req) || next in s.cache || s.closed
    ensures ReaderStep(cfg, s, s', SkipRequired(t)) && IsReader(s', t) && s'.threads[t].req == s.threads[t].req
    ensures s'.threads[t].rpc.Prefetching?
            || (s'.threads[t].rpc == Requiring(s.threads[t].rpc.next + 1)
                && s.threads[t].rpc.next <= EndChunk(cfg, s.threads[t].req))
  {
    hide Starts, Resumes, CopiesBytes, EndChunk;
    var Reader(req, Requiring(next)) := s.threads[t];
    s' := SetThread(s, t, Reader(req, if next > EndChunk(cfg, req) then Prefetching(EndChunk(cfg, req) + 1, 0)
                                      else Requiring(next + 1)));
  }

  lemma SpawnRequiredStep(cfg: Config, s: State, t: nat, u: nat) returns (s': State)
    requires ValidConfig(cfg) && IsReader(s, t) && s.threads[t].rpc.Requiring? && Proceeds(cfg, s.threads[t].req)
    requires s.threads[t].rpc.next <= EndChunk(cfg, s.threads[t].req) && !s.closed && u !in s.threads
    ensures ReaderStep(cfg, s, s', SpawnRequired(t, u)) && IsReader(s', t) && s'.threads[t].req == s.threads[t].req
    ensures s'.threads[t].rpc == Requiring(s.threads[t].rpc.next + 1)
  {
    hide Starts, Resumes, CopiesBytes, EndChunk, Proceeds;
    var Reader(req, Requiring(next)) := s.threads[t];
    s' := s.(threads := s.threads[t := Reader(req, Requiring(next + 1))][u := Task(next, TaskReady)],
             registered := s.registered + {u});
  }

  /** One required chunk is skipped, or gets a task. */
  lemma RequiresOne(cfg: Config, s: State, t: nat) returns (s': State)
    requires ValidConfig(cfg) && Inv(cfg, s) && IsReader(s, t) && s.threads[t].rpc.Requiring?
    ensures Inv(cfg, s') && CanReach(cfg, s, s') && IsReader(s', t) && s'.threads[t].req == s.threads[t].req
    ensures Proceeds(cfg, s.threads[t].req)
    ensures s'.threads[t].rpc.Prefetching?
            || (s'.threads[t].rpc == Requiring(s.threads[t].rpc.next + 1)
                && s.threads[t].rpc.next <= EndChunk(cfg, s.threads[t].req))
  {
    Stay(cfg, s);
    ReaderAsked(cfg, s, t);
    var next := s.threads[t].rpc.next;
    if next > EndChunk(cfg, s.threads[t].req) || next in s.cache || s.closed {
      s' := SkipRequiredStep(cfg, s, t);
      hide ReaderStep, CanReach, Inv;
      GoReader(cfg, s, s, s', SkipRequired(t));
    } else {
      var u := FreshNumber(s.threads.Keys);
      s' := SpawnRequiredStep(cfg, s, t, u);
      hide ReaderStep, CanReach, Inv;
      GoReader(cfg, s, s, s', SpawnRequired(t, u));
    }
  }

  lemma {:induction false} ReaderRequires(cfg: Config, s: State, t: nat) returns (s': State)
    requires ValidConfig(cfg) && Inv(cfg, s) && IsReader(s, t) && s.threads[t].rpc.Requiring?
    ensures Inv(cfg, s') && CanReach(cfg, s, s') && IsReader(s', t) && s'.threads[t].rpc.Prefetching?
    decreases var req := s.threads[t].req; if Proceeds(cfg, req) then EndChunk(cfg, req) + 1 - s.threads[t].rpc.next
        else 0
  {
    hide CanReach, Inv;
    s' := RequiresOne(cfg, s, t);
    if s'.threads[t].rpc.Requiring? {
      var s1 := s';
      s' := ReaderRequires(cfg, s1, t);
      Then(cfg, s, s1, s');
    }
  }

  lemma SkipAheadStep(cfg: Config, s: State, t: nat) returns (s': State)
    requires ValidConfig(cfg) && IsReader(s, t) && s.threads[t].rpc.Prefetching? && Proceeds(cfg, s.threads[t].req)
    requires var Prefetching(next, scheduled) := s.threads[t].rpc;
             || next > WindowEnd(cfg, StartChunk(cfg, s.threads[t].req)) || scheduled >= ReadAheadLimit(cfg)
             || next in s.cache || s.closed
    ensures ReaderStep(cfg, s, s', SkipAhead(t)) && IsReader(s', t) && s'.threads[t].req == s.threads[t].req
    ensures s'.threads[t].rpc.Copying?
            || (s'.threads[t].rpc.Prefetching? && s'.threads[t].rpc.next == s.threads[t].rpc.next + 1
                && s.threads[t].rpc.next <= WindowEnd(cfg, StartChunk(cfg, s.threads[t].req)))
  {
    hide Starts, Resumes, CopiesBytes, StartChunk, WindowEnd, ReadAheadLimit;
    var Reader(req, Prefetching(next, scheduled)) := s.threads[t];
    var over := next > WindowEnd(cfg, StartChunk(cfg, req)) || scheduled >= ReadAheadLimit(cfg);
    s' := SetThread(s, t, Reader(req, if over then Copying(StartChunk(cfg, req), [])
                                      else Prefetching(next + 1, scheduled)));
  }

  lemma SpawnAheadStep(cfg: Config, s: State, t: nat, u: nat) returns (s': State)
    requires ValidConfig(cfg) && IsReader(s, t) && s.threads[t].rpc.Prefetching? && Proceeds(cfg, s.threads[t].req)
    requires var Prefetching(next, scheduled) := s.threads[t].rpc;
             next <= WindowEnd(cfg, StartChunk(cfg, s.threads[t].req)) && scheduled < ReadAheadLimit(cfg)
    requires !s.closed && u !in s.threads
    ensures ReaderStep(cfg, s, s', SpawnAhead(t, u)) && IsReader(s', t) && s'.threads[t].req == s.threads[t].req
    ensures s'.threads[t].rpc.Prefetching? && s'.threads[t].rpc.next == s.threads[t].rpc.next + 1
  {
    hide Starts, Resumes, CopiesBytes, StartChunk, Proceeds, WindowEnd, ReadAheadLimit;
    var Reader(req, Prefetching(next, scheduled)) := s.threads[t];
    s' := s.(threads := s.threads[t := Reader(req, Prefetching(next + 1, scheduled + 1))]
                                 [u := Ahead(next, t, AheadReady)],
             registered := s.registered + {u});
  }

  /** One chunk of the window is skipped, or gets a read-ahead task. */
  lemma PrefetchesOne(cfg: Config, s: State, t: nat) returns (s': State)
    requires ValidConfig(cfg) && Inv(cfg, s) && IsReader(s, t) && s.threads[t].rpc.Prefetching?
    ensures Inv(cfg, s') && CanReach(cfg, s, s') && IsReader(s', t) && s'.threads[t].req == s.threads[t].req
    ensures Proceeds(cfg, s.threads[t].req)
    ensures s'.threads[t].rpc.Copying?
            || (s'.threads[t].rpc.Prefetching? && s'.threads[t].rpc.next == s.threads[t].rpc.next + 1
                && s.threads[t].rpc.next <= WindowEnd(cfg, StartChunk(cfg, s.threads[t].req)))
  {
    hide ReaderStep, CanReach, Inv, WindowEnd, ReadAheadLimit, StartChunk;
    Stay(cfg, s);
    ReaderAsked(cfg, s, t);
    var Prefetching(next, scheduled) := s.threads[t].rpc;
    if next > WindowEnd(cfg, StartChunk(cfg, s.threads[t].req)) || scheduled >= ReadAheadLimit(cfg)
       || next in s.cache || s.closed {
      s' := SkipAheadStep(cfg, s, t);
      GoReader(cfg, s, s, s', SkipAhead(t));
    } else {
      var u := FreshNumber(s.threads.Keys);
      s' := SpawnAheadStep(cfg, s, t, u);
      GoReader(cfg, s, s, s', SpawnAhead(t, u));
    }
  }

  lemma {:induction false} ReaderPrefetches(cfg: Config, s: State, t: nat) returns (s': State)
    requires ValidConfig(cfg) && Inv(cfg, s) && IsReader(s, t) && s.threads[t].rpc.Prefetching?
    ensures Inv(cfg, s') && CanReach(cfg, s, s') && IsReader(s', t) && s'.threads[t].rpc.Copying?
    decreases var req := s.threads[t].req;
              if Proceeds(cfg, req) then WindowEnd(cfg, StartChunk(cfg, req)) + 1 - s.threads[t].rpc.next else 0
  {
    hide CanReach, Inv;
    s' := PrefetchesOne(cfg, s, t);
    if s'.threads[t].rpc.Prefetching? {
      var s1 := s';
      s' := ReaderPrefetches(cfg, s1, t);
      Then(cfg, s, s1, s');
    }
  }

  lemma FoundStep(cfg: Config, s: State, t: nat) returns (s': State, e: Step)
    requires ValidConfig(cfg) && IsReader(s, t) && s.threads[t].rpc.Copying?
    requires var Reader(req, Copying(index, out)) := s.threads[t]; !LoopGoesOn(cfg, req, index, out) || index in s.cache
    ensures ReaderStep(cfg, s, s', e) && Undisturbed(e) && IsReader(s', t) && s'.threads[t].req == s.threads[t].req
    ensures var pc := s'.threads[t].rpc; pc.Answered? || (pc.Using? && pc.index == s.threads[t].rpc.index)
  {
    hide Starts, Resumes, CopiesBytes, LoopGoesOn, Answer;
    var Reader(req, Copying(index, out)) := s.threads[t];
    if LoopGoesOn(cfg, req, index, out) {
      s', e := SetThread(s, t, Reader(req, Using(index, out, s.cache[index]))), Hit(t);
    } else {
      s', e := Leave(s, t, Reader(req, Answer(cfg, req, out))), Finish(t);
      assert s'.threads[t].rpc.Answered? by { AnswerAnswers(cfg, req, out); }
    }
  }

  lemma AnswerAnswers(cfg: Config, req: Request, out: seq<byte>)
    ensures Answer(cfg, req, out).Answered?
  {
  }

  lemma WaitStep(cfg: Config, s: State, t: nat, c: nat) returns (s': State, e: Step)
    requires ValidConfig(cfg) && IsReader(s, t) && s.threads[t].rpc.Copying? && c !in s.calls
    requires var Reader(req, Copying(index, out)) := s.threads[t]; LoopGoesOn(cfg, req, index, out)
    ensures ReaderStep(cfg, s, s', e) && Undisturbed(e) && IsReader(s', t) && s'.threads[t].req == s.threads[t].req
    ensures var pc := s'.threads[t].rpc; pc.Fetching? && pc.index == s.threads[t].rpc.index
  {
    hide Starts, Resumes, CopiesBytes, LoopGoesOn, Answer;
    var Reader(req, Copying(index, out)) := s.threads[t];
    if index in s.group {
      s', e := SetThread(s, t, Reader(req, Fetching(index, out, s.group[index]))), Join(t);
    } else {
      s', e := NewCall(s, t, index, c, Reader(req, Fetching(index, out, c))), Lead(t, c);
    }
  }

  /** The next chunk is looked up, and found or waited for. */
  lemma ReaderLooks(cfg: Config, s: State, t: nat) returns (s': State)
    requires ValidConfig(cfg) && Inv(cfg, s) && IsReader(s, t) && s.threads[t].rpc.Copying?
    ensures Inv(cfg, s') && CanReach(cfg, s, s') && IsReader(s', t) && s'.threads[t].req == s.threads[t].req
    ensures var pc := s'.threads[t].rpc;
            pc.Answered? || ((pc.Using? || pc.Fetching?) && pc.index == s.threads[t].rpc.index)
  {
    hide CanReach, Inv, ReaderStep, Undisturbed, LoopGoesOn;
    Stay(cfg, s);
    var Reader(req, Copying(index, out)) := s.threads[t];
    var e;
    if !LoopGoesOn(cfg, req, index, out) || index in s.cache {
      s', e := FoundStep(cfg, s, t);
    } else {
      var c := FreshNumber(s.calls.Keys);
      s', e := WaitStep(cfg, s, t, c);
    }
    GoReader(cfg, s, s, s', e);
  }

  lemma FetchedCall(cfg: Config, s: State, t: nat)
    requires ValidConfig(cfg) && Inv(cfg, s) && IsReader(s, t) && s.threads[t].rpc.Fetching?
    ensures s.threads[t].rpc.call in s.calls
  {
    hide CallsOk, AttemptsOk, CacheOk, TokensOk, CopyInv;
    assert ThreadInv(cfg, s, s.threads[t], t);
  }

  lemma ResumeStep(s: State, t: nat) returns (s': State)
    requires IsReader(s, t) && s.threads[t].rpc.Fetching?
    requires s.threads[t].rpc.call in s.calls && s.calls[s.threads[t].rpc.call].pc.Returned?
    ensures Resumes(s, s', t) && IsReader(s', t) && s'.threads[t].req == s.threads[t].req
    ensures var pc := s'.threads[t].rpc; pc.Answered? || (pc.Using? && pc.index == s.threads[t].rpc.index)
  {
    var Reader(req, Fetching(index, out, c)) := s.threads[t];
    var result := s.calls[c].pc.result;
    if result.Some? {
      s' := SetThread(s, t, Reader(req, Using(index, out, result.value)));
    } else {
      s' := Leave(s, t, Reader(req, Answered(out, FetchFailed)));
    }
  }

  lemma ReaderResumes(cfg: Config, s: State, t: nat) returns (s': State)
    requires ValidConfig(cfg) && Inv(cfg, s) && IsReader(s, t) && s.threads[t].rpc.Fetching?
    requires s.threads[t].rpc.call in s.calls && s.calls[s.threads[t].rpc.call].pc.Returned?
    ensures Inv(cfg, s') && CanReach(cfg, s, s') && IsReader(s', t) && s'.threads[t].req == s.threads[t].req
    ensures var pc := s'.threads[t].rpc; pc.Answered? || (pc.Using? && pc.index == s.threads[t].rpc.index)
  {
    hide CanReach, Inv, Resumes, ReaderStep;
    Stay(cfg, s);
    s' := ResumeStep(s, t);
    StepIs(cfg, s, s', Resume(t));
    GoReader(cfg, s, s, s', Resume(t));
  }

  /** Whatever the fetch was doing, the reader gets its chunk, or its answer. */
  lemma ReaderFetches(cfg: Config, s: State, t: nat) returns (s': State)
    requires ValidConfig(cfg) && Inv(cfg, s) && IsReader(s, t) && s.threads[t].rpc.Fetching?
    ensures Inv(cfg, s') && CanReach(cfg, s, s') && IsReader(s', t) && s'.threads[t].req == s.threads[t].req
    ensures var pc := s'.threads[t].rpc; pc.Answered? || (pc.Using? && pc.index == s.threads[t].rpc.index)
  {
    hide CanReach, Inv;
    FetchedCall(cfg, s, t);
    var s1 := CallReturns(cfg, s, s.threads[t].rpc.call);
    s' := ReaderResumes(cfg, s1, t);
    Then(cfg, s, s1, s');
  }

  /** The reader has a chunk in hand, of its own request and with a buffer to copy from. */
  ghost predicate HoldsChunk(cfg: Config, s: State, t: nat)
    requires ValidConfig(cfg) && IsReader(s, t) && s.threads[t].rpc.Using?
  {
    var Reader(req, Using(index, out, ch)) := s.threads[t];
    && req.off >= 0 && req.len > 0 && |out| <= req.len && index <= EndChunk(cfg, req)
    && ch.buffer in s.buffers && ch.size <= |s.buffers[ch.buffer]|
  }

  lemma HeldChunk(cfg: Config, s: State, t: nat)
    requires ValidConfig(cfg) && Inv(cfg, s) && IsReader(s, t) && s.threads[t].rpc.Using?
    ensures HoldsChunk(cfg, s, t)
  {
    hide CallsOk, AttemptsOk, CacheOk, TokensOk, CopyInv, EndChunk;
    assert ThreadInv(cfg, s, s.threads[t], t);
  }

  lemma ReaderCopies(cfg: Config, s: State, t: nat) returns (s': State)
    requires ValidConfig(cfg) && Inv(cfg, s) && IsReader(s, t) && s.threads[t].rpc.Using?
    ensures Inv(cfg, s') && CanReach(cfg, s, s') && IsReader(s', t) && s'.threads[t].req == s.threads[t].req
    ensures var pc := s'.threads[t].rpc; pc.Answered? || (pc.Copying? && pc.index == s.threads[t].rpc.index + 1)
  {
    hide CanReach, Inv, CopiesBytes, ReaderStep, HoldsChunk;
    Stay(cfg, s);
    HeldChunk(cfg, s, t);
    s' := CopyStep(cfg, s, t);
    StepIs(cfg, s, s', CopyBytes(t));
    GoReader(cfg, s, s, s', CopyBytes(t));
  }

  lemma CopyStep(cfg: Config, s: State, t: nat) returns (s': State)
    requires ValidConfig(cfg) && IsReader(s, t) && s.threads[t].rpc.Using? && HoldsChunk(cfg, s, t)
    ensures CopiesBytes(cfg, s, s', t) && IsReader(s', t) && s'.threads[t].req == s.threads[t].req
    ensures var pc := s'.threads[t].rpc; pc.Answered? || (pc.Copying? && pc.index == s.threads[t].rpc.index + 1)
  {
    hide CopyRound;
    var Reader(req, Using(index, out, ch)) := s.threads[t];
    var round := CopyRound(cfg, req, index, out, s.buffers[ch.buffer][..ch.size]);
    if round.Some? {
      s' := SetThread(s, t, Reader(req, Copying(index + 1, round.value)));
    } else {
      s' := Leave(s, t, Reader(req, Answer(cfg, req, out)));
    }
  }

  /** How many chunks the copy loop has still to look at. */
  function ChunksLeft(cfg: Config, req: Request, index: nat): nat
    requires cfg.chunkSize > 0
  {
    if req.off >= 0 && req.len > 0 && index <= EndChunk(cfg, req) then EndChunk(cfg, req) + 1 - index else 0
  }

  lemma {:induction false} ReaderFinishes(cfg: Config, s: State, t: nat) returns (s': State)
    requires ValidConfig(cfg) && Inv(cfg, s) && IsReader(s, t)
    requires s.threads[t].rpc.Copying? || s.threads[t].rpc.Fetching? || s.threads[t].rpc.Using?
    ensures CanReach(cfg, s, s') && IsAnswered(s', t)
    decreases ChunksLeft(cfg, s.threads[t].req, s.threads[t].rpc.index),
              if s.threads[t].rpc.Copying? then 2 else if s.threads[t].rpc.Fetching? then 1 else 0
  {
    hide CanReach, Inv, EndChunk;
    var s1;
    if s.threads[t].rpc.Copying? {
      s1 := ReaderLooks(cfg, s, t);
    } else if s.threads[t].rpc.Fetching? {
      s1 := ReaderFetches(cfg, s, t);
    } else {
      HeldChunk(cfg, s, t);
      s1 := ReaderCopies(cfg, s, t);
    }
    s' := s1;
    if !s1.threads[t].rpc.Answered? {
      s' := ReaderFinishes(cfg, s1, t);
      Then(cfg, s, s1, s');
    }
  }

  lemma SchedulingFinishes(cfg: Config, s: State, t: nat) returns (s': State)
    requires ValidConfig(cfg) && Inv(cfg, s) && IsReader(s, t)
    requires s.threads[t].rpc.Requiring? || s.threads[t].rpc.Prefetching?
    ensures CanReach(cfg, s, s') && IsAnswered(s', t)
  {
    hide CanReach, Inv;
    Stay(cfg, s);
    var s1 := s;
    if s.threads[t].rpc.Requiring? {
      s1 := ReaderRequires(cfg, s, t);
    }
    var s2 := ReaderPrefetches(cfg, s1, t);
    Then(cfg, s, s1, s2);
    s' := ReaderFinishes(cfg, s2, t);
    Then(cfg, s, s2, s');
  }

  lemma StartFinishes(cfg: Config, s: State, t: nat) returns (s': State)
    requires ValidConfig(cfg) && Inv(cfg, s) && IsReader(s, t) && s.threads[t].rpc == Entered
    ensures CanReach(cfg, s, s') && IsAnswered(s', t)
  {
    hide CanReach, Inv;
    var s1 := ReaderStarts(cfg, s, t);
    s' := s1;
    if !IsAnswered(s1, t) {
      s' := SchedulingFinishes(cfg, s1, t);
      Then(cfg, s, s1, s');
    }
  }

  lemma ReadFinishes(cfg: Config, s: State, t: nat) returns (s': State)
    requires ValidConfig(cfg) && Inv(cfg, s) && IsReader(s, t)
    ensures CanReach(cfg, s, s') && IsAnswered(s', t)
  {
    hide CanReach, Inv;
    Stay(cfg, s);
    match s.threads[t].rpc
    case Invoked =>
      var s1 := ReaderEnters(cfg, s, t);
      s' := s1;
      if !IsAnswered(s1, t) {
        s' := StartFinishes(cfg, s1, t);
        Then(cfg, s, s1, s');
      }
    case Entered => s' := StartFinishes(cfg, s, t);
    case Requiring(_) => s' := SchedulingFinishes(cfg, s, t);
    case Prefetching(_, _) => s' := SchedulingFinishes(cfg, s, t);
    case Answered(_, _) => s' := s;
    case Copying(_, _) => s' := ReaderFinishes(cfg, s, t);
    case Fetching(_, _, _) => s' := ReaderFinishes(cfg, s, t);
    case Using(_, _, _) => s' := ReaderFinishes(cfg, s, t);
  }

  /** In every state of every run, whatever the other reads, the read-ahead tasks and the semaphore are up to,
      each read can still be answered without any failure, timeout, shutdown or new read. */
  lemma ReadsCanFinish(cfg: Config, run: seq<State>, steps: seq<Step>, i: nat, t: nat)
    requires ValidConfig(cfg) && IsRun(cfg, run, steps) && i < |run| && IsReader(run[i], t)
    ensures exists s' :: CanReach(cfg, run[i], s') && IsAnswered(s', t)
  {
    hide IsRun, CanReach, Inv;
    RunKeeps(cfg, run, steps, i);
    var s' := ReadFinishes(cfg, run[i], t);
  }
}
