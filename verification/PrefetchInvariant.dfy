/** What every step of the prefetcher keeps. */
module PrefetchInvariant {
  import opened Basics
  import opened Prefetch
  import opened PrefetchRuns

  // ---- buffers ----

  /** Some goroutine may still write into the buffer. */
  ghost predicate Writing(s: State, b: Buffer) {
    match b
    case OfAttempt(a) => a in s.attempts && s.attempts[a].status == Running
    case OfAhead(t) => IsAhead(s, t) && s.threads[t].apc == AheadReading
  }

  /** The chunk holds the right bytes and nobody writes into its buffer any more. */
  ghost predicate Good(cfg: Config, s: State, ch: Chunk) {
    Delivered(cfg, s, ch.buffer, ch.index, ch.size) && !Writing(s, ch.buffer)
  }

  /** A buffer that is no longer written keeps its bytes and is never written again. */
  ghost predicate Steady(s: State, s': State) {
    forall b | b in s.buffers && !Writing(s, b) :: b in s'.buffers && s'.buffers[b] == s.buffers[b] && !Writing(s', b)
  }

  lemma GoodKept(cfg: Config, s: State, s': State, ch: Chunk)
    requires Good(cfg, s, ch) && Steady(s, s')
    ensures Good(cfg, s', ch)
  {
  }

  // ---- one entity at a time ----

  predicate WaitsOn(th: Thread, c: nat) {
    (th.Reader? && th.rpc.Fetching? && th.rpc.call == c) || (th.Task? && th.tpc == TaskFetching(c))
  }

  /** The goroutine is registered with the wait group. */
  predicate Active(th: Thread) {
    match th
    case Reader(_, pc) => pc != Invoked && !pc.Answered?
    case Task(_, pc) => pc != TaskDone
    case Ahead(_, _, pc) => pc != AheadDone
    case Closer(_) => false
  }

  predicate OwnsToken(pc: CallPc) { pc.Holding? || pc.Awaiting? || pc.Storing? || pc.Releasing? }

  predicate AheadOwnsToken(pc: AheadPc) { pc == AheadReading || pc.AheadStoring? || pc == AheadReleasing }

  predicate GoesOn(cfg: Config, req: Request)
    requires cfg.chunkSize > 0
  {
    Proceeds(cfg, req) && !Overruns(cfg, req)
  }

  /** What an answered read has delivered. */
  ghost predicate AnswerOk(cfg: Config, req: Request, out: seq<byte>, err: Err)
    requires cfg.chunkSize > 0
  {
    && Matches(cfg, req.off, out)
    && (err == FetchFailed || (err == PrefetcherClosed && out == []) || (|out|, err) == ReadSpec(cfg, req))
  }

  ghost predicate ReaderInv(cfg: Config, s: State, req: Request, pc: ReaderPc)
    requires ValidConfig(cfg)
  {
    match pc
    case Invoked => true
    case Entered => true
    case Requiring(next) => GoesOn(cfg, req) && StartChunk(cfg, req) <= next
    case Prefetching(next, scheduled) => GoesOn(cfg, req) && scheduled <= ReadAheadLimit(cfg)
    case Copying(index, out) => GoesOn(cfg, req) && CopyInv(cfg, req, index, out)
    case Fetching(index, out, c) =>
      && GoesOn(cfg, req) && CopyInv(cfg, req, index, out) && LoopGoesOn(cfg, req, index, out)
      && c in s.calls && s.calls[c].index == index
    case Using(index, out, ch) =>
      && GoesOn(cfg, req) && CopyInv(cfg, req, index, out) && LoopGoesOn(cfg, req, index, out)
      && ch.index == index && Good(cfg, s, ch)
    case Answered(out, err) => AnswerOk(cfg, req, out, err) && (err == PrefetcherClosed ==> s.closed)
  }

  ghost predicate ThreadInv(cfg: Config, s: State, th: Thread, t: nat)
    requires ValidConfig(cfg)
  {
    match th
    case Reader(req, pc) => ReaderInv(cfg, s, req, pc)
    case Task(index, pc) => pc.TaskFetching? ==> pc.call in s.calls && s.calls[pc.call].index == index
    case Ahead(index, parent, pc) =>
      && (cfg.size > 0 ==> index * cfg.chunkSize < cfg.size)
      && IsReader(s, parent)
      && (pc.AheadStoring? ==> Good(cfg, s, Chunk(index, OfAhead(t), pc.n)))
      && (AheadOwnsToken(pc) ==> OfAhead(t) in s.buffers)
    case Closer(pc) =>
      && (pc != CloseCalled ==> s.closed)
      && (pc == CloseClearing ==> s.registered == {})
      && (pc == CloseReturned(true) ==> s.registered == {} && s.cache == map[])
  }

  ghost predicate CallInv(cfg: Config, s: State, c: nat)
    requires c in s.calls
  {
    var Call(index, leader, pc) := s.calls[c];
    && (!pc.Returned? ==>
          && leader in s.threads && WaitsOn(s.threads[leader], c)
          && index in s.group && s.group[index] == c)
    && (pc.Awaiting? ==>
          && pc.attempt in s.attempts && pc.attempt !in s.abandoned
          && s.attempts[pc.attempt].call == c && s.attempts[pc.attempt].index == index)
    && (pc.Storing? || pc.Releasing? ==> pc.ch.index == index && Good(cfg, s, pc.ch))
    && (pc.Returned? && pc.result.Some? ==> pc.result.value.index == index && Good(cfg, s, pc.result.value))
    && (ByCall(c) in s.tokens <==> OwnsToken(pc))
  }

  ghost predicate AttemptInv(cfg: Config, s: State, a: nat)
    requires a in s.attempts
  {
    var Attempt(index, c, status) := s.attempts[a];
    && OfAttempt(a) in s.buffers
    && (status.Finished? && status.ok ==> Good(cfg, s, Chunk(index, OfAttempt(a), status.n)))
    && (status == Running && a !in s.abandoned ==>
          c in s.calls && s.calls[c].pc.Awaiting? && s.calls[c].pc.attempt == a)
  }

  ghost predicate TokenInv(s: State, k: Token) {
    match k
    case ByCall(c) => c in s.calls
    case ByAhead(t) => IsAhead(s, t) && AheadOwnsToken(s.threads[t].apc)
  }

  // ---- all together ----

  ghost predicate ThreadsOk(cfg: Config, s: State)
    requires ValidConfig(cfg)
  {
    && s.registered <= s.threads.Keys
    && forall t | t in s.threads :: ThreadInv(cfg, s, s.threads[t], t) && (t in s.registered <==> Active(s.threads[t]))
  }

  ghost predicate CallsOk(cfg: Config, s: State) {
    && (forall c | c in s.calls :: CallInv(cfg, s, c))
    && (forall i | i in s.group ::
          s.group[i] in s.calls && s.calls[s.group[i]].index == i && !s.calls[s.group[i]].pc.Returned?)
  }

  ghost predicate AttemptsOk(cfg: Config, s: State) {
    && (forall a | a in s.attempts :: AttemptInv(cfg, s, a))
    && s.abandoned <= s.attempts.Keys
    && (forall b | b in s.buffers :: |s.buffers[b]| == cfg.chunkSize)
    && (forall b | b in s.buffers && b.OfAttempt? :: b.attempt in s.attempts)
    && (forall b | b in s.buffers && b.OfAhead? ::
          IsAhead(s, b.thread) && s.threads[b.thread].apc !in {AheadReady, AheadChosen})
  }

  ghost predicate CacheOk(cfg: Config, s: State) {
    forall i | i in s.cache :: s.minIndex <= i && s.cache[i].index == i && Good(cfg, s, s.cache[i])
  }

  ghost predicate TokensOk(cfg: Config, s: State) {
    && |s.tokens| <= cfg.maxParallelReads
    && (forall k | k in s.tokens :: TokenInv(s, k))
    && (forall t | IsAhead(s, t) && AheadOwnsToken(s.threads[t].apc) :: ByAhead(t) in s.tokens)
  }

  ghost predicate Inv(cfg: Config, s: State)
    requires ValidConfig(cfg)
  {
    ThreadsOk(cfg, s) && CallsOk(cfg, s) && AttemptsOk(cfg, s) && CacheOk(cfg, s) && TokensOk(cfg, s)
  }

  /** What no step ever takes back. */
  ghost predicate Mono(s: State, s': State) {
    && Steady(s, s') && s.buffers.Keys <= s'.buffers.Keys
    && (forall c | c in s.calls :: c in s'.calls && s'.calls[c].index == s.calls[c].index)
    && (forall t | IsReader(s, t) :: IsReader(s', t))
    && (s.closed ==> s'.closed)
    && (s.closed && s.registered == {} ==> s'.registered == {} && (s.cache == map[] ==> s'.cache == map[]))
  }

  lemma ThreadKept(cfg: Config, s: State, s': State, th: Thread, t: nat)
    requires ValidConfig(cfg) && ThreadInv(cfg, s, th, t) && Mono(s, s')
    ensures ThreadInv(cfg, s', th, t)
  {
  }

  /** Threads that a step leaves alone stay as they were. */
  lemma OthersKept(cfg: Config, s: State, s': State, moved: set<nat>)
    requires ValidConfig(cfg) && ThreadsOk(cfg, s) && Mono(s, s')
    requires forall t | t in s.threads && t !in moved :: t in s'.threads && s'.threads[t] == s.threads[t]
    requires forall t | t in s'.threads && t !in moved :: t in s.threads
    requires s'.registered - moved == s.registered - moved
    requires forall t | t in moved && t in s'.threads ::
               ThreadInv(cfg, s', s'.threads[t], t) && (t in s'.registered <==> Active(s'.threads[t]))
    requires forall t | t in moved && t in s'.registered :: t in s'.threads
    ensures ThreadsOk(cfg, s')
  {
    hide ThreadInv, Mono;
    forall t | t in s'.threads
      ensures ThreadInv(cfg, s', s'.threads[t], t) && (t in s'.registered <==> Active(s'.threads[t]))
    {
      if t !in moved {
        ThreadKept(cfg, s, s', s.threads[t], t);
        assert t in s.registered <==> t in s.registered - moved;
        assert t in s'.registered <==> t in s'.registered - moved;
      }
    }
    forall t | t in s'.registered ensures t in s'.threads {
      if t !in moved {
        assert t in s'.registered - moved;
      }
    }
  }

  // ---- steps of one thread ----

  /** Only thread `t`, its registration and the shutdown flag change. */
  ghost predicate OnlyThread(s: State, s': State, t: nat) {
    && t in s'.threads
    && s' == s.(threads := s.threads[t := s'.threads[t]], registered := s'.registered, closed := s'.closed)
    && s'.registered - {t} == s.registered - {t}
    && (s.closed ==> s'.closed)
    && (s.closed && s.registered == {} ==> s'.registered == {})
  }

  /** The thread keeps its kind, its token and the call it leads. */
  ghost predicate SameRole(s: State, t: nat, th: Thread) {
    if t in s.threads then
      && (s.threads[t].Reader? ==> th.Reader?)
      && (s.threads[t].Ahead? <==> th.Ahead?)
      && (th.Ahead? ==>
            && AheadOwnsToken(th.apc) == AheadOwnsToken(s.threads[t].apc)
            && (th.apc == AheadReading ==> s.threads[t].apc == AheadReading)
            && (th.apc in {AheadReady, AheadChosen} ==> s.threads[t].apc in {AheadReady, AheadChosen}))
      && (forall c | c in s.calls && s.calls[c].leader == t && !s.calls[c].pc.Returned? :: WaitsOn(th, c))
    else th.Ahead? ==> th.apc == AheadReady
  }

  lemma ThreadMovedMono(cfg: Config, s: State, s': State, t: nat)
    requires AttemptsOk(cfg, s) && OnlyThread(s, s', t) && SameRole(s, t, s'.threads[t])
    ensures Mono(s, s')
  {
    forall b | b in s.buffers && !Writing(s, b) ensures !Writing(s', b) {
      if b == OfAhead(t) { assert t in s.threads; }
    }
  }

  lemma ThreadMovedCalls(cfg: Config, s: State, s': State, t: nat)
    requires CallsOk(cfg, s) && OnlyThread(s, s', t) && SameRole(s, t, s'.threads[t]) && Steady(s, s')
    ensures CallsOk(cfg, s')
  {
    hide Steady;
    forall c | c in s'.calls ensures CallUntouched(s, s', c) {
      assert CallInv(cfg, s, c);
    }
    CallsKept(cfg, s, s', {});
  }

  lemma ThreadMovedAttempts(cfg: Config, s: State, s': State, t: nat)
    requires AttemptsOk(cfg, s) && OnlyThread(s, s', t) && SameRole(s, t, s'.threads[t]) && Steady(s, s')
    ensures AttemptsOk(cfg, s')
  {
    hide Steady;
    forall a | a in s'.attempts ensures AttemptUntouched(s, s', a) {
      assert AttemptInv(cfg, s, a);
    }
    AttemptsKept(cfg, s, s', {});
  }

  lemma ThreadMovedTokens(cfg: Config, s: State, s': State, t: nat)
    requires TokensOk(cfg, s) && OnlyThread(s, s', t) && SameRole(s, t, s'.threads[t])
    ensures TokensOk(cfg, s')
  {
    forall k | k in s'.tokens ensures TokenInv(s', k) {
      assert TokenInv(s, k);
    }
  }

  lemma CacheShrinks(cfg: Config, s: State, s': State)
    requires CacheOk(cfg, s) && Steady(s, s')
    requires forall i | i in s'.cache :: i in s.cache && s'.cache[i] == s.cache[i] && s'.minIndex <= i
    ensures CacheOk(cfg, s')
  {
    hide Steady, Good;
    forall i | i in s'.cache ensures Good(cfg, s', s'.cache[i]) {
      GoodKept(cfg, s, s', s.cache[i]);
    }
  }

  lemma ThreadMoved(cfg: Config, s: State, s': State, t: nat)
    requires ValidConfig(cfg) && Inv(cfg, s) && OnlyThread(s, s', t)
    requires SameRole(s, t, s'.threads[t])
    requires ThreadInv(cfg, s', s'.threads[t], t) && (t in s'.registered <==> Active(s'.threads[t]))
    ensures Inv(cfg, s') && Mono(s, s')
  {
    hide ThreadInv, SameRole, CallsOk, AttemptsOk, CacheOk, TokensOk, ThreadsOk, Steady;
    ThreadMovedMono(cfg, s, s', t);
    ThreadMovedTokens(cfg, s, s', t);
    OthersKept(cfg, s, s', {t});
    ThreadMovedCalls(cfg, s, s', t);
    ThreadMovedAttempts(cfg, s, s', t);
    CacheSame(cfg, s, s');
  }

  /** Calls that a step leaves alone. */
  ghost predicate CallUntouched(s: State, s': State, c: nat)
    requires c in s.calls
  {
    && c in s'.calls && s'.calls[c] == s.calls[c]
    && (ByCall(c) in s'.tokens <==> ByCall(c) in s.tokens)
    && (!s.calls[c].pc.Returned? ==>
          && var leader := s.calls[c].leader;
          && (leader in s.threads && WaitsOn(s.threads[leader], c) ==>
                leader in s'.threads && WaitsOn(s'.threads[leader], c))
          && (s.calls[c].index in s.group && s.group[s.calls[c].index] == c ==>
                s.calls[c].index in s'.group && s'.group[s.calls[c].index] == c))
    && (s.calls[c].pc.Awaiting? ==>
          && var a := s.calls[c].pc.attempt;
          && (a in s.attempts && a !in s.abandoned ==>
                a in s'.attempts && a !in s'.abandoned
                && s'.attempts[a].call == s.attempts[a].call && s'.attempts[a].index == s.attempts[a].index))
  }

  lemma CallKept(cfg: Config, s: State, s': State, c: nat)
    requires c in s.calls && CallInv(cfg, s, c) && CallUntouched(s, s', c) && Steady(s, s')
    ensures CallInv(cfg, s', c)
  {
    var pc := s.calls[c].pc;
    if pc.Storing? || pc.Releasing? {
      GoodKept(cfg, s, s', pc.ch);
    } else if pc.Returned? && pc.result.Some? {
      GoodKept(cfg, s, s', pc.result.value);
    }
  }

  lemma CallsKept(cfg: Config, s: State, s': State, moved: set<nat>)
    requires CallsOk(cfg, s) && Steady(s, s')
    requires forall c | c in s'.calls && c !in moved :: c in s.calls && CallUntouched(s, s', c)
    requires forall c | c in moved && c in s'.calls :: CallInv(cfg, s', c)
    requires forall i | i in s'.group ::
               s'.group[i] in s'.calls && s'.calls[s'.group[i]].index == i && !s'.calls[s'.group[i]].pc.Returned?
    ensures CallsOk(cfg, s')
  {
    hide CallInv, CallUntouched, Steady;
    forall c | c in s'.calls ensures CallInv(cfg, s', c) {
      if c !in moved {
        CallKept(cfg, s, s', c);
      }
    }
  }

  ghost predicate AttemptUntouched(s: State, s': State, a: nat)
    requires a in s.attempts
  {
    && a in s'.attempts && s'.attempts[a] == s.attempts[a]
    && OfAttempt(a) in s'.buffers
    && (s.attempts[a].status == Running && a !in s'.abandoned ==>
          && a !in s.abandoned
          && var c := s.attempts[a].call;
          && (c in s.calls && s.calls[c].pc.Awaiting? && s.calls[c].pc.attempt == a ==>
                c in s'.calls && s'.calls[c].pc == s.calls[c].pc))
  }

  lemma AttemptsKept(cfg: Config, s: State, s': State, moved: set<nat>)
    requires AttemptsOk(cfg, s) && Steady(s, s')
    requires forall a | a in s'.attempts && a !in moved :: a in s.attempts && AttemptUntouched(s, s', a)
    requires forall a | a in moved && a in s'.attempts :: AttemptInv(cfg, s', a)
    requires s'.abandoned <= s'.attempts.Keys
    requires forall b | b in s'.buffers :: |s'.buffers[b]| == cfg.chunkSize
    requires forall b | b in s'.buffers && b.OfAttempt? :: b.attempt in s'.attempts
    requires forall b | b in s'.buffers && b.OfAhead? ::
          IsAhead(s', b.thread) && s'.threads[b.thread].apc !in {AheadReady, AheadChosen}
    ensures AttemptsOk(cfg, s')
  {
    forall a | a in s'.attempts ensures AttemptInv(cfg, s', a) {
      if a !in moved {
        assert AttemptInv(cfg, s, a) && AttemptUntouched(s, s', a);
        if s.attempts[a].status.Finished? && s.attempts[a].status.ok {
          GoodKept(cfg, s, s', Chunk(s.attempts[a].index, OfAttempt(a), s.attempts[a].status.n));
        }
      }
    }
  }

  // ---- steps of one call ----

  ghost predicate PcChunkGood(cfg: Config, s: State, index: nat, pc: CallPc) {
    && (pc.Storing? || pc.Releasing? ==> pc.ch.index == index && Good(cfg, s, pc.ch))
    && (pc.Returned? && pc.result.Some? ==> pc.result.value.index == index && Good(cfg, s, pc.result.value))
  }

  /** Only call `c` moves; a running attempt it stops waiting for is abandoned. */
  ghost predicate OnlyCall(s: State, s': State, c: nat) {
    && c in s.calls && c in s'.calls && !s.calls[c].pc.Returned?
    && var index, before, after := s.calls[c].index, s.calls[c].pc, s'.calls[c].pc;
    && s' == s.(calls := s.calls[c := s.calls[c].(pc := after)], group := s'.group, tokens := s'.tokens,
        abandoned := s'.abandoned)
    && s'.group == (if after.Returned? then s.group - {index} else s.group)
    && s'.tokens == (if OwnsToken(after) then s.tokens + {ByCall(c)} else s.tokens - {ByCall(c)})
    && !after.Awaiting?
    && s.abandoned <= s'.abandoned
    && (forall a | a in s'.abandoned && a !in s.abandoned :: before.Awaiting? && a == before.attempt)
    && (before.Awaiting? && before.attempt in s.attempts && s.attempts[before.attempt].status == Running
        ==> before.attempt in s'.abandoned)
  }

  lemma CallMovedCalls(cfg: Config, s: State, s': State, c: nat)
    requires CallsOk(cfg, s) && OnlyCall(s, s', c) && PcChunkGood(cfg, s, s.calls[c].index, s'.calls[c].pc)
        && Steady(s, s')
    ensures CallsOk(cfg, s')
  {
    hide Steady;
    var pc := s'.calls[c].pc;
    assert CallInv(cfg, s, c);
    forall d | d in s'.calls && d != c ensures CallUntouched(s, s', d) {
      assert CallInv(cfg, s, d);
    }
    assert CallInv(cfg, s', c) by {
      if pc.Storing? || pc.Releasing? { GoodKept(cfg, s, s', pc.ch); }
      if pc.Returned? && pc.result.Some? { GoodKept(cfg, s, s', pc.result.value); }
    }
    CallsKept(cfg, s, s', {c});
  }

  lemma CallMovedAttempts(cfg: Config, s: State, s': State, c: nat)
    requires AttemptsOk(cfg, s) && CallsOk(cfg, s) && OnlyCall(s, s', c) && Steady(s, s')
    ensures AttemptsOk(cfg, s')
  {
    hide Steady;
    assert CallInv(cfg, s, c);
    forall a | a in s'.attempts ensures AttemptUntouched(s, s', a) {
      assert AttemptInv(cfg, s, a);
    }
    AttemptsKept(cfg, s, s', {});
  }

  lemma CallMovedMono(cfg: Config, s: State, s': State, c: nat)
    requires OnlyCall(s, s', c)
    ensures Mono(s, s')
  {
  }

  lemma CallMovedTokens(cfg: Config, s: State, s': State, c: nat)
    requires TokensOk(cfg, s) && OnlyCall(s, s', c) && |s'.tokens| <= cfg.maxParallelReads
    ensures TokensOk(cfg, s')
  {
    forall k | k in s'.tokens ensures TokenInv(s', k) {
      if k in s.tokens { assert TokenInv(s, k); }
    }
  }

  lemma CallMoved(cfg: Config, s: State, s': State, c: nat)
    requires ValidConfig(cfg) && Inv(cfg, s) && OnlyCall(s, s', c) && |s'.tokens| <= cfg.maxParallelReads
    requires PcChunkGood(cfg, s, s.calls[c].index, s'.calls[c].pc)
    ensures Inv(cfg, s') && Mono(s, s')
  {
    hide CallsOk, AttemptsOk, CacheOk, TokensOk, ThreadsOk, Steady, PcChunkGood;
    CallMovedMono(cfg, s, s', c);
    CallMovedTokens(cfg, s, s', c);
    OthersKept(cfg, s, s', {});
    CallMovedCalls(cfg, s, s', c);
    CallMovedAttempts(cfg, s, s', c);
    CacheSame(cfg, s, s');
  }

  lemma CacheSame(cfg: Config, s: State, s': State)
    requires CacheOk(cfg, s) && Steady(s, s') && s'.cache == s.cache && s'.minIndex == s.minIndex
    ensures CacheOk(cfg, s')
  {
    CacheShrinks(cfg, s, s');
  }

  /** A thread that waits on nothing becomes the leader of a new call. */
  ghost predicate Leads(s: State, s': State, t: nat, index: nat, c: nat, th: Thread) {
    && s' == NewCall(s, t, index, c, th)
    && c !in s.calls && index !in s.group
    && t in s.threads && t in s.registered && Active(th) && WaitsOn(th, c)
    && !s.threads[t].Ahead? && (s.threads[t].Reader? ==> th.Reader?)
    && (forall d | d in s.calls :: !WaitsOn(s.threads[t], d))
  }

  lemma CallMadeCalls(cfg: Config, s: State, s': State, t: nat, index: nat, c: nat, th: Thread)
    requires CallsOk(cfg, s) && TokensOk(cfg, s) && Leads(s, s', t, index, c, th) && Steady(s, s')
    ensures CallsOk(cfg, s')
  {
    hide Steady;
    assert ByCall(c) in s.tokens ==> TokenInv(s, ByCall(c));
    forall d | d in s'.calls && d != c ensures CallUntouched(s, s', d) {
      assert CallInv(cfg, s, d);
    }
    CallsKept(cfg, s, s', {c});
  }

  lemma CallMadeRest(cfg: Config, s: State, s': State, t: nat, index: nat, c: nat, th: Thread)
    requires TokensOk(cfg, s) && Leads(s, s', t, index, c, th)
    ensures Mono(s, s') && TokensOk(cfg, s')
  {
    forall k | k in s'.tokens ensures TokenInv(s', k) {
      assert TokenInv(s, k);
    }
  }

  lemma CallMadeAttempts(cfg: Config, s: State, s': State, t: nat, index: nat, c: nat, th: Thread)
    requires AttemptsOk(cfg, s) && Leads(s, s', t, index, c, th) && Steady(s, s')
    ensures AttemptsOk(cfg, s')
  {
    hide Steady;
    forall a | a in s'.attempts ensures AttemptUntouched(s, s', a) {
      assert AttemptInv(cfg, s, a);
    }
    AttemptsKept(cfg, s, s', {});
  }

  lemma CallMade(cfg: Config, s: State, s': State, t: nat, index: nat, c: nat, th: Thread)
    requires ValidConfig(cfg) && Inv(cfg, s) && Leads(s, s', t, index, c, th) && ThreadInv(cfg, s', th, t)
    ensures Inv(cfg, s') && Mono(s, s')
  {
    hide ThreadInv, CallsOk, AttemptsOk, CacheOk, TokensOk, ThreadsOk, Steady;
    CallMadeRest(cfg, s, s', t, index, c, th);
    OthersKept(cfg, s, s', {t});
    CallMadeCalls(cfg, s, s', t, index, c, th);
    CallMadeAttempts(cfg, s, s', t, index, c, th);
    CacheSame(cfg, s, s');
  }

  /** Steps that change only the cache and its window. */
  lemma CacheMovedCalls(cfg: Config, s: State, s': State)
    requires CallsOk(cfg, s) && s' == s.(cache := s'.cache, minIndex := s'.minIndex) && Steady(s, s')
    ensures CallsOk(cfg, s')
  {
    hide Steady;
    forall c | c in s'.calls ensures CallUntouched(s, s', c) {}
    CallsKept(cfg, s, s', {});
  }

  lemma CacheMovedRest(cfg: Config, s: State, s': State)
    requires AttemptsOk(cfg, s) && TokensOk(cfg, s) && s' == s.(cache := s'.cache, minIndex := s'.minIndex)
    requires s.registered == {} ==> s'.cache.Keys <= s.cache.Keys
    ensures Mono(s, s') && TokensOk(cfg, s') && AttemptsOk(cfg, s')
  {
    forall k | k in s'.tokens ensures TokenInv(s', k) {
      assert TokenInv(s, k);
    }
    forall a | a in s'.attempts ensures AttemptUntouched(s, s', a) {
      assert AttemptInv(cfg, s, a);
    }
    AttemptsKept(cfg, s, s', {});
  }

  lemma CacheAddedCache(cfg: Config, s: State, s': State, ch: Chunk)
    requires CacheOk(cfg, s) && Good(cfg, s, ch) && Steady(s, s') && s'.minIndex == s.minIndex <= ch.index
    requires forall i | i in s'.cache ::
               (i == ch.index && s'.cache[i] == ch) || (i in s.cache && s'.cache[i] == s.cache[i])
    ensures CacheOk(cfg, s')
  {
    hide Good, Steady;
    forall i | i in s'.cache ensures Good(cfg, s', s'.cache[i]) {
      GoodKept(cfg, s, s', s'.cache[i]);
    }
  }

  /** A chunk enters the cache; some goroutine is still registered. */
  lemma CacheAdded(cfg: Config, s: State, s': State, ch: Chunk, victims: set<nat>)
    requires ValidConfig(cfg) && Inv(cfg, s) && Good(cfg, s, ch) && s.registered != {}
    requires s' == AddChunk(s, ch, victims)
    ensures Inv(cfg, s') && Mono(s, s')
  {
    hide Good, CallsOk, AttemptsOk, CacheOk, TokensOk, ThreadsOk, Steady;
    if ch.index >= s.minIndex {
      CacheMovedRest(cfg, s, s');
      CacheMovedCalls(cfg, s, s');
      CacheAddedCache(cfg, s, s', ch);
      OthersKept(cfg, s, s', {});
    } else {
      assert s' == s;
      MonoSelf(s);
    }
  }

  lemma Evicted(cfg: Config, s: State, s': State, lo: nat)
    requires ValidConfig(cfg) && Inv(cfg, s) && s' == EvictBefore(s, lo)
    ensures Inv(cfg, s') && Mono(s, s')
    ensures s'.threads == s.threads && s'.registered == s.registered && s'.calls == s.calls
  {
    hide Good, CallsOk, AttemptsOk, CacheOk, TokensOk, ThreadsOk, Steady;
    if lo > s.minIndex {
      CacheMovedRest(cfg, s, s');
      CacheMovedCalls(cfg, s, s');
      CacheShrinks(cfg, s, s');
      OthersKept(cfg, s, s', {});
    } else {
      MonoSelf(s);
    }
  }

  lemma MonoSelf(s: State)
    ensures Mono(s, s)
  {
  }

  // ---- steps of one underlying read ----

  /** Only attempts and buffers change, and only buffers being written or new ones. */
  ghost predicate OnlyReads(s: State, s': State) {
    && s' == s.(attempts := s'.attempts, buffers := s'.buffers)
    && s.buffers.Keys <= s'.buffers.Keys
    && (forall a | a in s.attempts ::
          a in s'.attempts && s'.attempts[a].call == s.attempts[a].call && s'.attempts[a].index == s.attempts[a].index)
    && (forall a | a in s.attempts && s.attempts[a].status != Running :: s'.attempts[a] == s.attempts[a])
    && (forall b | b in s.buffers && !Writing(s, b) :: s'.buffers[b] == s.buffers[b] && !Writing(s', b))
  }

  lemma ReadMovedRest(cfg: Config, s: State, s': State)
    requires TokensOk(cfg, s) && CallsOk(cfg, s) && OnlyReads(s, s')
    ensures Mono(s, s') && TokensOk(cfg, s') && CallsOk(cfg, s')
  {
    forall k | k in s'.tokens ensures TokenInv(s', k) {
      assert TokenInv(s, k);
    }
    forall c | c in s'.calls ensures CallUntouched(s, s', c) {}
    CallsKept(cfg, s, s', {});
  }

  lemma ReadMovedAttempts(cfg: Config, s: State, s': State, moved: set<nat>)
    requires AttemptsOk(cfg, s) && OnlyReads(s, s') && Steady(s, s')
    requires forall a | a in s'.attempts && a !in moved :: a in s.attempts && s'.attempts[a] == s.attempts[a]
    requires forall a | a in moved && a in s'.attempts :: AttemptInv(cfg, s', a)
    requires forall b | b in s'.buffers :: |s'.buffers[b]| == cfg.chunkSize
    requires forall b | b in s'.buffers && b !in s.buffers :: b.OfAttempt? && b.attempt in s'.attempts
    ensures AttemptsOk(cfg, s')
  {
    forall a | a in s'.attempts && a !in moved ensures AttemptUntouched(s, s', a) {
      assert AttemptInv(cfg, s, a);
    }
    AttemptsKept(cfg, s, s', moved);
  }

  lemma ReadMoved(cfg: Config, s: State, s': State, moved: set<nat>)
    requires ValidConfig(cfg) && Inv(cfg, s) && OnlyReads(s, s')
    requires forall a | a in s'.attempts && a !in moved :: a in s.attempts && s'.attempts[a] == s.attempts[a]
    requires forall a | a in moved && a in s'.attempts :: AttemptInv(cfg, s', a)
    requires forall b | b in s'.buffers :: |s'.buffers[b]| == cfg.chunkSize
    requires forall b | b in s'.buffers && b !in s.buffers :: b.OfAttempt? && b.attempt in s'.attempts
    ensures Inv(cfg, s') && Mono(s, s')
  {
    hide AttemptInv, CallsOk, AttemptsOk, CacheOk, TokensOk, ThreadsOk, Steady;
    ReadMovedRest(cfg, s, s');
    ReadMovedAttempts(cfg, s, s', moved);
    OthersKept(cfg, s, s', {});
    CacheSame(cfg, s, s');
  }
}
