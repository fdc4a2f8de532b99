/** When a receive succeeds without a download, and when that hides an error of the stream. */
module TarStreamCached {
  import opened Basics
  import opened TarStream
  import opened TarStreamProofs
  import opened TarStreamProgress

  // ---- the packets that matter ----

  /** The header is the first packet, or the second after an unexpected one. */
  ghost predicate Opens(packets: seq<Packet>, header: Header) {
    || (|packets| >= 1 && Announces(packets[0], header))
    || OpensLate(packets, header)
  }

  ghost predicate OpensLate(packets: seq<Packet>, header: Header) {
    |packets| >= 2 && packets[0].Other? && Announces(packets[1], header)
  }

  // ---- before the first header ----

  /** A receiver without a header lets at most one unexpected packet pass. */
  ghost predicate NoHeaderYet(packets: seq<Packet>, s: State)
    requires s.next <= |packets|
  {
    || s.next == 0
    || (s.next == 1
        && (s.prod.Receiving? ==> packets[0].Other? && s.errCh == [Some(UnexpectedPacket)])
        && (s.prod.SendingError? && !s.prod.last ==> packets[0].Other? && s.prod.error == Some(UnexpectedPacket)))
    || (s.next == 2 && packets[0].Other? && s.errCh == [Some(UnexpectedPacket)] && !s.prod.Receiving?)
  }

  ghost predicate HeaderFirst(packets: seq<Packet>, s: State)
    requires s.next <= |packets|
  {
    && (s.cons.AwaitHeader? && Headers(Seen(packets, s)) == [] ==> NoHeaderYet(packets, s))
    && (Headers(Seen(packets, s)) != [] && (s.cons.AwaitHeader? || s.cons.GotHeader? || s.cons.UseCached?) ==>
          Opens(packets, Headers(Seen(packets, s))[0]))
  }

  /** Nothing is read after the last packet. */
  ghost predicate StopsAtLast(packets: seq<Packet>, s: State)
    requires s.next <= |packets|
  {
    && (s.next > 0 ==> NoneLast(packets[..s.next - 1]))
    && (s.recvError.Some? ==> NoneLast(Seen(packets, s)))
  }

  lemma ReadBeforeHeader(packets: seq<Packet>, s: State, s': State)
    requires s.next <= |packets| && NoHeaderYet(packets, s) && ProducerStep(packets, s, s', Recv)
    ensures s'.next <= |packets| && NoHeaderYet(packets, s')
    ensures HeaderOf(packets[s.next]).Some? ==> Opens(packets, HeaderOf(packets[s.next]).value)
  {
  }

  lemma RecvHeaderFirst(packets: seq<Packet>, s: State, s': State)
    requires Inv(packets, s) && HeaderFirst(packets, s) && ProducerStep(packets, s, s', Recv)
    ensures s'.next <= |packets| && HeaderFirst(packets, s')
  {
    SeenMore(packets, s.next);
    hide Bytes, FirstError, Headers, NoneLast, ErrorsOk, BytesOk, DoneOk, ProducerOk, ErrorOf, HeaderOf, Opens,
        NoHeaderYet, Handle;
    if s.cons.AwaitHeader? && Headers(Seen(packets, s)) == [] {
      ReadBeforeHeader(packets, s, s');
    }
  }

  lemma SendHeaderFirst(packets: seq<Packet>, s: State, s': State, e: Step)
    requires Inv(packets, s) && HeaderFirst(packets, s) && ProducerStep(packets, s, s', e) && !e.Recv?
    ensures s'.next <= |packets| && HeaderFirst(packets, s')
  {
    hide Bytes, FirstError, Headers, NoneLast, BytesOk, DoneOk, ErrorOf, HeaderOf;
  }

  lemma TakeHeaderFirst(packets: seq<Packet>, s: State, s': State, e: Step)
    requires Inv(packets, s) && HeaderFirst(packets, s) && HeaderStep(s, s', e)
    ensures s'.next <= |packets| && HeaderFirst(packets, s')
  {
    hide Bytes, FirstError, Headers, NoneLast, BytesOk, DoneOk, ErrorOf, HeaderOf, Opens;
  }

  lemma BodyHeaderFirst(packets: seq<Packet>, s: State, s': State, e: Step)
    requires Inv(packets, s) && HeaderFirst(packets, s) && BodyStep(s, s', e)
    ensures s'.next <= |packets| && HeaderFirst(packets, s')
  {
    hide Bytes, FirstError, Headers, NoneLast, BytesOk, DoneOk, ErrorOf, HeaderOf, ErrorsOk, ProducerOk, Opens;
  }

  lemma StepStops(packets: seq<Packet>, s: State, s': State, e: Step)
    requires Inv(packets, s) && StopsAtLast(packets, s) && Next(packets, s, s', e)
    ensures s'.next <= |packets| && StopsAtLast(packets, s')
  {
    hide Bytes, FirstError, Headers, NoneLast, BytesOk, DoneOk, ErrorsOk, HeaderOk, ErrorOf, HeaderOf;
  }

  lemma InitialHeaderFirst(packets: seq<Packet>)
    ensures HeaderFirst(packets, INITIAL) && StopsAtLast(packets, INITIAL)
  {
  }

  lemma StepHeaderFirst(packets: seq<Packet>, s: State, s': State, e: Step)
    requires Inv(packets, s) && HeaderFirst(packets, s) && Next(packets, s, s', e)
    ensures s'.next <= |packets| && HeaderFirst(packets, s')
  {
    hide HeaderFirst, ProducerStep, HeaderStep, BodyStep;
    if ProducerStep(packets, s, s', e) {
      if e.Recv? {
        RecvHeaderFirst(packets, s, s');
      } else {
        SendHeaderFirst(packets, s, s', e);
      }
    } else if HeaderStep(s, s', e) {
      TakeHeaderFirst(packets, s, s', e);
    } else {
      BodyHeaderFirst(packets, s, s', e);
    }
  }

  lemma {:induction false} RunHeaderFirst(packets: seq<Packet>, run: seq<State>, steps: seq<Step>, i: nat)
    requires IsRun(packets, run, steps) && i < |run|
    ensures run[i].next <= |packets| && HeaderFirst(packets, run[i]) && StopsAtLast(packets, run[i])
  {
    hide Inv, HeaderFirst, StopsAtLast, Next;
    if i == 0 {
      InitialHeaderFirst(packets);
    } else {
      RunHeaderFirst(packets, run, steps, i - 1);
      RunKeeps(packets, run, steps, i - 1);
      StepStops(packets, run[i - 1], run[i], steps[i - 1]);
      StepHeaderFirst(packets, run[i - 1], run[i], steps[i - 1]);
    }
  }

  // ---- theorems ----

  /** Some state of some run, disturbed or not. */
  ghost predicate Occurs(packets: seq<Packet>, s: State) {
    exists run, steps, i :: IsRun(packets, run, steps) && 0 <= i < |run| && run[i] == s
  }

  lemma ReachableOccurs(packets: seq<Packet>, s: State)
    requires Reachable(packets, s)
    ensures Occurs(packets, s)
  {
    hide Reachable, Next;
    var run, steps := CalmRunsAreRuns(packets, s);
    assert 0 <= |steps| < |run|;
  }

  lemma {:induction false} FirstErrorFirst(packets: seq<Packet>)
    requires packets != [] && ErrorOf(packets[0]).Some?
    ensures FirstError(packets) == ErrorOf(packets[0])
  {
    if |packets| > 1 {
      FirstErrorFirst(packets[..|packets| - 1]);
    }
  }

  /** Receiving failed, or some packet read is not faultless. */
  ghost predicate Troubled(packets: seq<Packet>, s: State)
    requires s.next <= |packets|
  {
    s.recvError.Some? || exists j | 0 <= j < s.next :: !Faultless(packets[j])
  }

  lemma TroubledIff(packets: seq<Packet>, s: State)
    requires s.next <= |packets|
    ensures Troubled(packets, s) <==> Trouble(packets, s).Some?
  {
    hide FirstError, Reports;
    var seen := Seen(packets, s);
    FirstErrorReports(seen);
    assert forall j | 0 <= j < s.next :: seen[j] == packets[j];
  }

  /** In every run, a receive that skips the download does so for a complete header that opens the
      stream; it has taken no data, and the stream has an error exactly when the header opens it late. */
  lemma DownloadSkipped(packets: seq<Packet>, run: seq<State>, steps: seq<Step>, i: nat)
    requires IsRun(packets, run, steps) && i < |run| && run[i].cons.UseCached?
    ensures run[i].cons.header.complete && Opens(packets, run[i].cons.header)
    ensures run[i].taken == [] && run[i].file == []
    ensures run[i].next <= |packets| && (Troubled(packets, run[i]) <==> packets[0].Other?)
  {
    var s := run[i];
    RunKeeps(packets, run, steps, i);
    RunHeaderFirst(packets, run, steps, i);
    hide IsRun, Bytes, Headers, FirstError, Troubled;
    SkippedTrouble(packets, s);
    TroubledIff(packets, s);
  }

  lemma SkippedTrouble(packets: seq<Packet>, s: State)
    requires Inv(packets, s) && HeaderFirst(packets, s) && StopsAtLast(packets, s) && s.cons.UseCached?
    ensures Opens(packets, s.cons.header) && (Trouble(packets, s).Some? <==> packets[0].Other?)
  {
    assert Headers([]) == [] by { NoHeaders(); }
    hide Bytes, Headers, FirstError, ErrorsOk, BytesOk, DoneOk, ProducerOk;
    var seen := Seen(packets, s);
    assert s.next > 0 by { assert packets[..0] == []; }
    if packets[0].Other? {
      FirstErrorFirst(seen);
    } else {
      LastIsLater(packets, s.next);
      assert seen[0] == packets[0];
      NoErrors(seen);
    }
  }

  lemma LastIsLater(packets: seq<Packet>, n: nat)
    requires 0 < n <= |packets| && NoneLast(packets[..n - 1])
    ensures n > 1 ==> !IsLast(packets[0])
  {
    if n > 1 {
      assert packets[..n - 1][0] == packets[0];
    }
  }

  /** A complete header that comes first is taken for a cached entry. */
  lemma OpeningHeaderIsUsed(packets: seq<Packet>, header: Header) returns (s: State)
    requires |packets| >= 1 && HeaderOf(packets[0]) == Some(header) && header.complete
    ensures Reachable(packets, s) && s.cons == UseCached(header)
  {
    hide Reachable;
    InitialReachable(packets);
    var s1 := INITIAL.(next := 1, prod := SendingHeader(header));
    ReachNext(packets, INITIAL, s1, Recv);
    s := HeaderIsUsed(packets, s1, header);
  }

  /** From the producer's hand through the channel to the receiver. */
  lemma HeaderIsUsed(packets: seq<Packet>, s: State, header: Header) returns (s': State)
    requires Reachable(packets, s) && s.prod == SendingHeader(header) && header.complete
    requires s.headerCh == [] && s.cons == AwaitHeader(true, true)
    ensures Reachable(packets, s') && s'.cons == UseCached(header) && s'.next == s.next && s'.recvError == s.recvError
  {
    hide Reachable;
    var s1 := s.(headerCh := [header], prod := SendingError(None, true));
    ReachNext(packets, s, s1, SendHeader);
    var s2 := s1.(headerCh := [], headers := s1.headers + [header], cons := GotHeader(header));
    ReachNext(packets, s1, s2, TakeHeader);
    s' := s2.(cons := UseCached(header));
    ReachNext(packets, s2, s', Decide(true));
  }

  /** So is one that comes second, after an unexpected packet whose error is still in the channel. */
  lemma LateHeaderIsUsed(packets: seq<Packet>, header: Header) returns (s: State)
    requires OpensLate(packets, header) && header.complete
    ensures Reachable(packets, s) && s.cons == UseCached(header)
  {
    hide Reachable;
    InitialReachable(packets);
    var s1 := INITIAL.(next := 1, prod := SendingError(Some(UnexpectedPacket), false));
    ReachNext(packets, INITIAL, s1, Recv);
    var s2 := s1.(errCh := [Some(UnexpectedPacket)], prod := Receiving);
    ReachNext(packets, s1, s2, SendError);
    var s3 := s2.(next := 2, prod := SendingHeader(header));
    ReachNext(packets, s2, s3, Recv);
    s := HeaderIsUsed(packets, s3, header);
  }

  /** The receive has succeeded, with a download or without. */
  ghost predicate Succeeded(s: State) { s.cons.Received? || s.cons.UseCached? }

  /** The receive has succeeded although the stream has an error. */
  ghost predicate Lost(packets: seq<Packet>, s: State) {
    s.next <= |packets| && Succeeded(s) && Troubled(packets, s)
  }

  /** The download is skipped in some run exactly when a complete header opens the stream. */
  lemma DownloadSkippedIff(packets: seq<Packet>)
    ensures (exists s :: Occurs(packets, s) && s.cons.UseCached?) <==>
            exists header: Header :: header.complete && Opens(packets, header)
    ensures (exists s :: Reachable(packets, s) && s.cons.UseCached?) <==>
            exists header: Header :: header.complete && Opens(packets, header)
  {
    hide Reachable, IsRun;
    if s :| Occurs(packets, s) && s.cons.UseCached? {
      var run, steps, i :| IsRun(packets, run, steps) && 0 <= i < |run| && run[i] == s;
      DownloadSkipped(packets, run, steps, i);
    }
    if header: Header :| header.complete && Opens(packets, header) {
      var s;
      if OpensLate(packets, header) {
        s := LateHeaderIsUsed(packets, header);
      } else {
        s := OpeningHeaderIsUsed(packets, header);
      }
      ReachableOccurs(packets, s);
    }
    forall s | Reachable(packets, s) ensures Occurs(packets, s) {
      ReachableOccurs(packets, s);
    }
  }

  /** An error of the stream is lost into a success in some run exactly when the stream begins with
      an unexpected packet and then a complete header. */
  lemma ErrorLostIff(packets: seq<Packet>)
    ensures (exists s :: Occurs(packets, s) && Lost(packets, s)) <==>
            exists header: Header :: header.complete && OpensLate(packets, header)
    ensures (exists s :: Reachable(packets, s) && Lost(packets, s)) <==>
            exists header: Header :: header.complete && OpensLate(packets, header)
  {
    hide Reachable, IsRun;
    if s :| Occurs(packets, s) && Lost(packets, s) {
      var run, steps, i :| IsRun(packets, run, steps) && 0 <= i < |run| && run[i] == s;
      ErrorsAreNotLost(packets, run, steps, i);
      DownloadSkipped(packets, run, steps, i);
    }
    if header: Header :| header.complete && OpensLate(packets, header) {
      var s := LateHeaderIsUsed(packets, header);
      ReachableOccurs(packets, s);
      var run, steps, i :| IsRun(packets, run, steps) && 0 <= i < |run| && run[i] == s;
      DownloadSkipped(packets, run, steps, i);
      assert Lost(packets, s);
    }
    forall s | Reachable(packets, s) ensures Occurs(packets, s) {
      ReachableOccurs(packets, s);
    }
  }

  // ---- the look into the cache ----

  /** Before state `i` the receiver, holding this header, looked into the cache and found this. */
  ghost predicate Looked(run: seq<State>, steps: seq<Step>, i: nat, header: Header, cached: bool)
    requires i < |run| == |steps| + 1
  {
    exists j | 0 <= j < i :: steps[j] == Decide(cached) && run[j].cons == GotHeader(header)
  }

  /** What the receiver does after its look into the cache depends on what it found there. */
  ghost predicate FollowsLook(run: seq<State>, steps: seq<Step>, i: nat)
    requires i < |run| == |steps| + 1
  {
    match run[i].cons
    case AwaitFirst(header, cached) => !header.complete && Looked(run, steps, i, header, cached)
    case Storing(header, cached, _, _) => !header.complete && Looked(run, steps, i, header, cached)
    case InBody(header, cached, _) => !header.complete && Looked(run, steps, i, header, cached)
    case Received(header, cached) => !header.complete && Looked(run, steps, i, header, cached)
    case UseCached(header) => header.complete && Looked(run, steps, i, header, true)
    case Failed(reason) =>
      reason == NotCached ==> exists header: Header :: header.complete && Looked(run, steps, i, header, false)
    case _ => true
  }

  lemma LookedLater(run: seq<State>, steps: seq<Step>, i: nat, header: Header, cached: bool)
    requires i + 1 < |run| == |steps| + 1 && Looked(run, steps, i, header, cached)
    ensures Looked(run, steps, i + 1, header, cached)
  {
  }

  /** In every run: a complete header succeeds only for an entry found in the cache and fails as not cached
      only for one that was not found; any other header leads to a download, which is written to the file
      exactly when the entry was not found. */
  lemma {:induction false} CacheDecides(packets: seq<Packet>, run: seq<State>, steps: seq<Step>, i: nat)
    requires IsRun(packets, run, steps) && i < |run|
    ensures FollowsLook(run, steps, i)
  {
    if i > 0 {
      CacheDecides(packets, run, steps, i - 1);
      assert Next(packets, run[i - 1], run[i], steps[i - 1]);
      LookStep(packets, run, steps, i - 1);
    }
  }

  lemma LookStep(packets: seq<Packet>, run: seq<State>, steps: seq<Step>, i: nat)
    requires i + 1 < |run| == |steps| + 1 && FollowsLook(run, steps, i)
    requires Next(packets, run[i], run[i + 1], steps[i])
    ensures FollowsLook(run, steps, i + 1)
  {
    hide Looked, ProducerStep;
    forall header, cached | Looked(run, steps, i, header, cached) ensures Looked(run, steps, i + 1, header, cached) {
      LookedLater(run, steps, i, header, cached);
    }
    if steps[i].Decide? && run[i].cons.GotHeader? {
      LookedNow(run, steps, i);
    }
    if ProducerStep(packets, run[i], run[i + 1], steps[i]) {
      ProducerLeaves(packets, run[i], run[i + 1], steps[i]);
    }
  }

  lemma LookedNow(run: seq<State>, steps: seq<Step>, i: nat)
    requires i + 1 < |run| == |steps| + 1 && steps[i].Decide? && run[i].cons.GotHeader?
    ensures Looked(run, steps, i + 1, run[i].cons.header, steps[i].cached)
  {
  }

  lemma ProducerLeaves(packets: seq<Packet>, s: State, s': State, e: Step)
    requires ProducerStep(packets, s, s', e)
    ensures s'.cons == s.cons
  {
  }
}
