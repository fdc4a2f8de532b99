/** Which streams are always received: exactly those whose outcome no interleaving can change. */
module TarStreamProgress {
  import opened Basics
  import opened TarStream
  import opened TarStreamProofs

  // ---- undisturbed runs ----

  /** A step of the receive itself: no cancellation, no local failure, no lost connection. */
  ghost predicate CalmStep(packets: seq<Packet>, s: State, s': State, e: Step) {
    Next(packets, s, s', e) && !e.RecvFails? && !e.Abort?
  }

  ghost predicate CanGoOn(packets: seq<Packet>, s: State) { exists s', e :: CalmStep(packets, s, s', e) }

  /** A finite run from the initial state in which nothing disturbs the receive. */
  ghost predicate IsCalmRun(packets: seq<Packet>, run: seq<State>, steps: seq<Step>) {
    && |run| == |steps| + 1 && run[0] == INITIAL
    && forall i | 0 <= i < |steps| :: CalmStep(packets, run[i], run[i + 1], steps[i])
  }

  ghost predicate Reachable(packets: seq<Packet>, s: State) {
    exists run, steps :: IsCalmRun(packets, run, steps) && run[|steps|] == s
  }

  lemma ReachNext(packets: seq<Packet>, s: State, s': State, e: Step)
    requires Reachable(packets, s) && CalmStep(packets, s, s', e)
    ensures Reachable(packets, s')
  {
    hide CalmStep;
    var run, steps :| IsCalmRun(packets, run, steps) && run[|steps|] == s;
    assert IsCalmRun(packets, run + [s'], steps + [e]);
  }

  lemma InitialReachable(packets: seq<Packet>)
    ensures Reachable(packets, INITIAL)
  {
    var steps: seq<Step> := [];
    assert IsCalmRun(packets, [INITIAL], steps);
  }

  lemma CalmRunsAreRuns(packets: seq<Packet>, s: State) returns (run: seq<State>, steps: seq<Step>)
    requires Reachable(packets, s)
    ensures IsRun(packets, run, steps) && run[|steps|] == s
  {
    hide Next;
    run, steps :| IsCalmRun(packets, run, steps) && run[|steps|] == s;
    forall i | 0 <= i < |steps| ensures Next(packets, run[i], run[i + 1], steps[i]) {
      assert CalmStep(packets, run[i], run[i + 1], steps[i]);
    }
  }

  lemma ReachableInv(packets: seq<Packet>, s: State)
    requires Reachable(packets, s)
    ensures Inv(packets, s)
  {
    hide Reachable, Next, Inv;
    var run, steps := CalmRunsAreRuns(packets, s);
    RunKeeps(packets, run, steps, |steps|);
  }

  /** Every undisturbed run comes to an end. */
  lemma {:induction false} RunsEnd(packets: seq<Packet>, s: State) returns (last: State)
    requires Reachable(packets, s)
    ensures Reachable(packets, last) && !CanGoOn(packets, last)
    decreases Work(packets, s)
  {
    hide Reachable, Next, Inv, Work;
    ReachableInv(packets, s);
    WorkIsPositive(packets, s);
    if s', e :| CalmStep(packets, s, s', e) {
      StepsDoWork(packets, s, s', e);
      ReachNext(packets, s, s', e);
      last := RunsEnd(packets, s');
    } else {
      last := s;
    }
  }

  // ---- the condition ----

  /** No undisturbed run fails, or gets stuck before it has received the stream. */
  ghost predicate AlwaysReceived(packets: seq<Packet>) {
    forall s | Reachable(packets, s) :: !s.cons.Failed? && (s.cons.Received? || CanGoOn(packets, s))
  }

  /** A whole stream with at most two headers, and with some data if it has two. */
  ghost predicate Receivable(packets: seq<Packet>, n: nat, header: Header) {
    && n <= |packets| && WholeStream(packets[..n], header)
    && |Headers(packets[..n])| <= 2
    && (|Headers(packets[..n])| == 2 ==> exists i :: 0 <= i < n && CarriesData(packets[i]))
  }

  // ---- receivable streams are always received ----

  lemma {:induction false} NoErrors(packets: seq<Packet>)
    requires forall i | 0 <= i < |packets| :: ErrorOf(packets[i]) == None
    ensures FirstError(packets) == None
  {
    if packets != [] {
      NoErrors(packets[..|packets| - 1]);
    }
  }

  lemma {:induction false} HeadersGrow(packets: seq<Packet>, m: nat, n: nat)
    requires m <= n <= |packets|
    ensures |Headers(packets[..m])| <= |Headers(packets[..n])|
    decreases n - m
  {
    if m < n {
      HeadersGrow(packets, m, n - 1);
      SeenMore(packets, n - 1);
    }
  }

  /** The producer has read no further than the end of the whole stream. */
  ghost predicate Within(packets: seq<Packet>, n: nat, header: Header, s: State) {
    && n <= |packets| && WholeStream(packets[..n], header)
    && Inv(packets, s) && s.next <= n && s.recvError == None
  }

  lemma NoTrouble(packets: seq<Packet>, n: nat, header: Header, s: State)
    requires Within(packets, n, header, s)
    ensures s.next <= |packets| && Trouble(packets, s) == None
  {
    var seen := packets[..s.next];
    forall i | 0 <= i < |seen| ensures ErrorOf(seen[i]) == None {
      assert seen[i] == packets[..n][i];
    }
    NoErrors(seen);
  }

  /** On a whole stream the producer reads on until the end, and reports it with a nil error. */
  lemma ProducerOnTrack(packets: seq<Packet>, n: nat, header: Header, s: State)
    requires Within(packets, n, header, s)
    ensures s.prod.Receiving? ==> s.next < n
    ensures s.prod.SendingError? ==> s.prod == SendingError(None, true) && s.next == n && s.errCh == []
    ensures s.prod.Closing? ==> s.next == n && s.prod.closed <= 3
    ensures s.errCh != [] ==> s.errCh == [None] && s.prod.Closing?
  {
    NoTrouble(packets, n, header, s);
    hide Headers, Bytes, FirstError, HeaderOk, BytesOk, DoneOk, Trouble, IsLast;
    assert packets[..n][n - 1] == packets[n - 1];
    assert forall i | 0 <= i < n - 1 :: packets[..n][..n - 1][i] == packets[i];
    assert forall i | 0 <= i < s.next :: packets[..s.next][i] == packets[i];
  }

  /** The headers in the channel and in hand come after the one that was taken. */
  lemma HeadersOnTrack(packets: seq<Packet>, n: nat, header: Header, s: State)
    requires Within(packets, n, header, s)
    ensures s.next > 0 ==> Headers(packets[..s.next]) != [] && Headers(packets[..s.next])[0] == header
    ensures |Headers(packets[..s.next])| <= |Headers(packets[..n])|
  {
    hide Headers, Inv;
    HeadersGrow(packets, s.next, n);
    if s.next > 0 {
      assert packets[..s.next][0] == packets[..n][0];
      FirstHeader(packets[..s.next]);
    }
  }

  ghost predicate NoBlockYet(c: Consumer) { c == AwaitHeader(true, true) || c.GotHeader? || c.AwaitFirst? }

  /** The receiver is on its way; before its first block no data packet has got past the producer. */
  ghost predicate OnTrack(packets: seq<Packet>, s: State) {
    && (NoBlockYet(s.cons) || s.cons.Storing? || s.cons.InBody? || s.cons.Received?)
    && (NoBlockYet(s.cons) ==>
          forall i | 0 <= i < s.next && i < |packets| && CarriesData(packets[i]) ::
            i == s.next - 1 && s.prod.SendingData?)
  }

  /** As long as the receiver waits for its first block the stream has not ended. */
  lemma NotEndedYet(packets: seq<Packet>, n: nat, header: Header, s: State)
    requires Within(packets, n, header, s) && OnTrack(packets, s) && NoBlockYet(s.cons)
    requires exists i :: 0 <= i < n && CarriesData(packets[i])
    ensures !s.prod.SendingError? && !s.prod.Closing? && s.errCh == []
  {
    hide WholeStream, Inv, CarriesData;
    ProducerOnTrack(packets, n, header, s);
    var i :| 0 <= i < n && CarriesData(packets[i]);
  }

  lemma ProducerStaysOnTrack(packets: seq<Packet>, n: nat, header: Header, s: State, s': State, e: Step)
    requires Within(packets, n, header, s) && OnTrack(packets, s)
    requires ProducerStep(packets, s, s', e) && !e.RecvFails?
    ensures s'.next <= n && s'.recvError == None && OnTrack(packets, s')
  {
    ProducerOnTrack(packets, n, header, s);
    hide Within, ErrorOf;
  }

  lemma HeaderStaysOnTrack(packets: seq<Packet>, n: nat, header: Header, s: State, s': State, e: Step)
    requires Within(packets, n, header, s) && OnTrack(packets, s) && HeaderStep(s, s', e)
    requires exists i :: 0 <= i < n && CarriesData(packets[i])
    ensures s'.next <= n && s'.recvError == None && OnTrack(packets, s')
  {
    if NoBlockYet(s.cons) {
      NotEndedYet(packets, n, header, s);
    }
    if s.cons.GotHeader? {
      TakenHeader(packets, n, header, s);
    }
    hide WholeStream, Inv, CarriesData;
  }

  lemma TakenHeader(packets: seq<Packet>, n: nat, header: Header, s: State)
    requires Within(packets, n, header, s) && s.cons.GotHeader?
    ensures !s.cons.header.complete
  {
    HeadersOnTrack(packets, n, header, s);
    hide Headers, Bytes, FirstError, ErrorsOk, BytesOk, DoneOk, ProducerOk;
    assert packets[..0] == [];
    assert Headers([]) == [] by { NoHeaders(); }
  }

  lemma NoHeaders()
    ensures Headers([]) == []
  {
  }

  lemma BodyStaysOnTrack(packets: seq<Packet>, n: nat, header: Header, s: State, s': State, e: Step)
    requires Within(packets, n, header, s) && OnTrack(packets, s) && BodyStep(s, s', e) && !e.Abort?
    requires exists i :: 0 <= i < n && CarriesData(packets[i])
    ensures s'.next <= n && s'.recvError == None && OnTrack(packets, s')
  {
    if NoBlockYet(s.cons) {
      NotEndedYet(packets, n, header, s);
    }
    ProducerOnTrack(packets, n, header, s);
    hide WholeStream, Inv, CarriesData;
  }

  lemma CalmStaysOnTrack(packets: seq<Packet>, n: nat, header: Header, s: State, s': State, e: Step)
    requires Within(packets, n, header, s) && OnTrack(packets, s) && CalmStep(packets, s, s', e)
    requires exists i :: 0 <= i < n && CarriesData(packets[i])
    ensures Within(packets, n, header, s') && OnTrack(packets, s')
  {
    hide WholeStream, Inv, OnTrack, CarriesData, ProducerStep, HeaderStep, BodyStep;
    NextKeeps(packets, s, s', e);
    if ProducerStep(packets, s, s', e) {
      ProducerStaysOnTrack(packets, n, header, s, s', e);
    } else if HeaderStep(s, s', e) {
      HeaderStaysOnTrack(packets, n, header, s, s', e);
    } else {
      BodyStaysOnTrack(packets, n, header, s, s', e);
    }
  }

  lemma {:induction false} CalmRunOnTrack(packets: seq<Packet>, n: nat, header: Header,
                                          run: seq<State>, steps: seq<Step>, i: nat)
    requires n <= |packets| && WholeStream(packets[..n], header) && exists i :: 0 <= i < n && CarriesData(packets[i])
    requires IsCalmRun(packets, run, steps) && i < |run|
    ensures Within(packets, n, header, run[i]) && OnTrack(packets, run[i])
  {
    hide CalmStep, WholeStream, CarriesData;
    if i == 0 {
      InitialOnTrack(packets);
    } else {
      hide Within, OnTrack;
      CalmRunOnTrack(packets, n, header, run, steps, i - 1);
      CalmStaysOnTrack(packets, n, header, run[i - 1], run[i], steps[i - 1]);
    }
  }

  lemma InitialOnTrack(packets: seq<Packet>)
    ensures Inv(packets, INITIAL) && OnTrack(packets, INITIAL)
  {
  }

  lemma ProducerCanStep(packets: seq<Packet>, s: State) returns (e: Step, s': State)
    requires !s.prod.SendingData? && !DataClosed(s) && (s.prod.Receiving? ==> s.next < |packets|)
    requires (s.prod.SendingHeader? ==> s.headerCh == []) && (s.prod.SendingError? ==> s.errCh == [])
    ensures ProducerStep(packets, s, s', e) && !e.RecvFails?
  {
    match s.prod
    case Receiving => e, s' := Recv, s.(next := s.next + 1, prod := Handle(packets[s.next]));
    case SendingHeader(header) => e, s' := SendHeader, s.(headerCh := [header], prod := AfterSend(header.complete));
    case SendingError(error, last) =>
      e, s' := SendError, s.(errCh := [error], prod := if last then Closing(0) else Receiving);
    case Closing(closed) => e, s' := Close, s.(prod := Closing(closed + 1));
  }

  lemma ConsumerCanStep(s: State) returns (e: Step, s': State)
    requires NoBlockYet(s.cons) || s.cons.Storing? || s.cons.InBody?
    requires s.cons.AwaitHeader? ==> s.headerCh != []
    requires s.cons.GotHeader? ==> !s.cons.header.complete
    requires s.cons.AwaitFirst? ==> s.prod.SendingData?
    requires s.cons.InBody? ==> s.prod.SendingData? || (DataClosed(s) && (s.errCh == [] || s.errCh == [None]))
    ensures (HeaderStep(s, s', e) || BodyStep(s, s', e)) && !e.Abort? && !e.RecvFails?
  {
    match s.cons
    case AwaitHeader(_, _) =>
      e, s' := TakeHeader, s.(headerCh := s.headerCh[1..], headers := s.headers + [s.headerCh[0]],
                              cons := GotHeader(s.headerCh[0]));
    case GotHeader(header) => e, s' := Decide(true), s.(cons := AwaitFirst(header, true));
    case Storing(header, cached, data, errOpen) =>
      e, s' := Store, s.(file := if cached then s.file else s.file + data, cons := InBody(header, cached, errOpen));
    case AwaitFirst(header, cached) =>
      e, s' := TakeData, s.(prod := AfterSend(s.prod.complete), taken := s.taken + s.prod.data,
                            cons := Storing(header, cached, s.prod.data, true));
    case InBody(header, cached, errOpen) =>
      if s.prod.SendingData? {
        e, s' := TakeData, s.(prod := AfterSend(s.prod.complete), taken := s.taken + s.prod.data,
                              cons := Storing(header, cached, s.prod.data, errOpen));
      } else {
        e, s' := Finish, s.(errCh := if errOpen && |s.errCh| > 0 then [] else s.errCh,
                            cons := Received(header, cached));
      }
  }

  /** With at most two headers the header channel never blocks the producer for good, and without a
      header in it the receiver is not kept waiting. */
  lemma HeaderChannel(packets: seq<Packet>, n: nat, header: Header, s: State)
    requires Within(packets, n, header, s) && OnTrack(packets, s) && |Headers(packets[..n])| <= 2
    ensures s.prod.SendingHeader? && !s.cons.AwaitHeader? ==> s.headerCh == []
    ensures s.cons.AwaitHeader? && s.headerCh == [] ==> s.prod.SendingHeader? || s.next == 0
  {
    HeadersOnTrack(packets, n, header, s);
    hide Headers, Bytes, FirstError, ErrorsOk, BytesOk, DoneOk, ProducerOk;
  }

  lemma OnTrackGoesOn(packets: seq<Packet>, n: nat, header: Header, s: State)
    requires Within(packets, n, header, s) && OnTrack(packets, s) && !s.cons.Received?
    requires |Headers(packets[..n])| <= 2 && exists i :: 0 <= i < n && CarriesData(packets[i])
    ensures CanGoOn(packets, s)
  {
    hide WholeStream, Inv, Headers, ProducerStep, HeaderStep, BodyStep, CarriesData;
    ProducerOnTrack(packets, n, header, s);
    HeaderChannel(packets, n, header, s);
    if NoBlockYet(s.cons) {
      NotEndedYet(packets, n, header, s);
    }
    if s.cons.GotHeader? {
      TakenHeader(packets, n, header, s);
    }
    var e, s';
    if s.cons.GotHeader? || s.cons.Storing? || (s.cons.AwaitHeader? && s.headerCh != [])
       || (!s.cons.AwaitHeader? && (s.prod.SendingData? || DataClosed(s))) {
      e, s' := ConsumerCanStep(s);
    } else {
      DataComesSecond(packets, n, header, s);
      e, s' := ProducerCanStep(packets, s);
    }
    assert CalmStep(packets, s, s', e);
  }

  /** A receiver without a header is never met by a data packet while the header channel is empty. */
  lemma DataComesSecond(packets: seq<Packet>, n: nat, header: Header, s: State)
    requires Within(packets, n, header, s) && OnTrack(packets, s)
    ensures s.cons.AwaitHeader? && s.headerCh == [] ==> !s.prod.SendingData?
  {
    HeadersOnTrack(packets, n, header, s);
    hide Headers, Bytes, FirstError, ErrorsOk, BytesOk, DoneOk;
  }

  /** A whole stream with a single header has data. */
  lemma SingleHeaderHasData(packets: seq<Packet>, header: Header)
    requires WholeStream(packets, header) && |Headers(packets)| == 1
    ensures exists i :: 0 <= i < |packets| && CarriesData(packets[i])
  {
    var n := |packets| - 1;
    assert packets[..n + 1] == packets;
    SeenMore(packets, n);
    if n > 0 {
      FirstHeader(packets[..n]);
    }
    hide Headers;
    assert CarriesData(packets[n]);
  }

  lemma ReceivableIsReceived(packets: seq<Packet>, n: nat, header: Header, s: State)
    requires Receivable(packets, n, header) && Reachable(packets, s)
    ensures !s.cons.Failed? && (s.cons.Received? || CanGoOn(packets, s))
  {
    hide WholeStream, CalmStep, CanGoOn, Headers, CarriesData, Within;
    SomeData(packets, n, header);
    var run, steps :| IsCalmRun(packets, run, steps) && run[|steps|] == s;
    CalmRunOnTrack(packets, n, header, run, steps, |steps|);
    if !s.cons.Received? {
      OnTrackGoesOn(packets, n, header, s);
    }
  }

  lemma SomeData(packets: seq<Packet>, n: nat, header: Header)
    requires Receivable(packets, n, header)
    ensures exists i :: 0 <= i < n && CarriesData(packets[i])
  {
    hide Headers, CarriesData;
    if |Headers(packets[..n])| != 2 {
      assert |Headers(packets[..n])| == 1 by { FirstHeader(packets[..n]); }
      SingleHeaderHasData(packets[..n], header);
      var i :| 0 <= i < n && CarriesData(packets[..n][i]);
      assert CarriesData(packets[i]);
    }
  }

  // ---- and no others ----

  /** Whatever the interleaving, a stream that is received had at most two headers. */
  lemma ReceivedHeaders(packets: seq<Packet>, s: State)
    requires Inv(packets, s) && s.cons.Received?
    ensures s.next <= |packets| && |Headers(packets[..s.next])| <= 2
  {
    hide Headers, Bytes, FirstError;
  }

  /** Two headers, of which the second is complete. */
  ghost predicate TwoHeaders(packets: seq<Packet>, h1: Header, h2: Header) {
    && |packets| >= 2 && Announces(packets[0], h1) && Announces(packets[1], h2)
    && !h1.complete && h2.complete
  }

  lemma FirstHeaderSent(packets: seq<Packet>, h1: Header, h2: Header) returns (s: State)
    requires TwoHeaders(packets, h1, h2)
    ensures Reachable(packets, s)
    ensures s == State(1, None, Receiving, [h1], [], AwaitHeader(true, true), [], [], [])
  {
    hide Reachable;
    InitialReachable(packets);
    var s1 := INITIAL.(next := 1, prod := SendingHeader(h1));
    ReachNext(packets, INITIAL, s1, Recv);
    s := s1.(headerCh := [h1], prod := Receiving);
    ReachNext(packets, s1, s, SendHeader);
  }

  lemma FirstHeaderTaken(packets: seq<Packet>, h1: Header, h2: Header) returns (s: State)
    requires TwoHeaders(packets, h1, h2)
    ensures Reachable(packets, s)
    ensures s == State(1, None, Receiving, [], [], AwaitFirst(h1, false), [], [], [h1])
  {
    hide Reachable, ProducerStep, HeaderOf;
    var s2 := FirstHeaderSent(packets, h1, h2);
    var s3 := s2.(headerCh := [], headers := [h1], cons := GotHeader(h1));
    ReachNext(packets, s2, s3, TakeHeader);
    s := s3.(cons := AwaitFirst(h1, false));
    ReachNext(packets, s3, s, Decide(false));
  }

  /** The second header and the final nil error are in the channels; the receiver waits for its first block. */
  lemma BothHeadersSent(packets: seq<Packet>, h1: Header, h2: Header) returns (s: State)
    requires TwoHeaders(packets, h1, h2)
    ensures Reachable(packets, s)
    ensures s == State(2, None, Closing(1), [h2], [None], AwaitFirst(h1, false), [], [], [h1])
  {
    hide Reachable;
    var s3 := FirstHeaderTaken(packets, h1, h2);
    var s4 := s3.(next := 2, prod := SendingHeader(h2));
    ReachNext(packets, s3, s4, Recv);
    var s5 := s4.(headerCh := [h2], prod := SendingError(None, true));
    ReachNext(packets, s4, s5, SendHeader);
    var s6 := s5.(errCh := [None], prod := Closing(0));
    ReachNext(packets, s5, s6, SendError);
    s := s6.(prod := Closing(1));
    ReachNext(packets, s6, s, Close);
  }

  lemma NilErrorFirst(packets: seq<Packet>, s: State, h1: Header, h2: Header) returns (r: State)
    requires Reachable(packets, s)
    requires s == State(2, None, Closing(1), [h2], [None], AwaitFirst(h1, false), [], [], [h1])
    ensures Reachable(packets, r) && r.cons == Received(h1, false) && r.file == []
  {
    hide Reachable, ProducerStep, HeaderStep;
    var s1 := s.(errCh := [], cons := Storing(h1, false, [], true));
    ReachNext(packets, s, s1, TakeFirstError);
    var s2 := s1.(cons := InBody(h1, false, true));
    ReachNext(packets, s1, s2, Store);
    r := s2.(cons := Received(h1, false));
    ReachNext(packets, s2, r, Finish);
  }

  lemma ClosedDataFirst(packets: seq<Packet>, s: State, h1: Header, h2: Header) returns (r: State)
    requires Reachable(packets, s)
    requires s == State(2, None, Closing(1), [h2], [None], AwaitFirst(h1, false), [], [], [h1])
    ensures Reachable(packets, r) && r.cons == Failed(NoData)
  {
    hide Reachable, ProducerStep, HeaderStep;
    var s1 := s.(cons := Draining);
    ReachNext(packets, s, s1, SeeDataClosed);
    r := s1.(errCh := [], cons := Failed(NoData));
    ReachNext(packets, s1, r, Drain);
  }

  /** Which channel the receiver looks at first decides between an empty archive and an error. */
  lemma TwoHeadersRace(packets: seq<Packet>, h1: Header, h2: Header)
    requires TwoHeaders(packets, h1, h2)
    ensures exists s :: Reachable(packets, s) && s.cons == Received(h1, false) && s.file == []
    ensures exists s :: Reachable(packets, s) && s.cons == Failed(NoData)
  {
    hide Reachable;
    var s := BothHeadersSent(packets, h1, h2);
    var received := NilErrorFirst(packets, s, h1, h2);
    var failed := ClosedDataFirst(packets, s, h1, h2);
  }

  /** Two headers and nothing else are two packets. */
  lemma TwoHeadersOnly(packets: seq<Packet>, header: Header)
    requires WholeStream(packets, header) && |Headers(packets)| == 2
    requires forall i | 0 <= i < |packets| :: !CarriesData(packets[i])
    ensures |packets| == 2 && HeaderOf(packets[1]).Some? && TwoHeaders(packets, header, HeaderOf(packets[1]).value)
  {
    OnlyHeaders(packets);
    assert packets[..1][0] == packets[0];
  }

  lemma {:induction false} OnlyHeaders(packets: seq<Packet>)
    requires forall i | 0 <= i < |packets| :: ErrorOf(packets[i]) == None && !CarriesData(packets[i])
    ensures |Headers(packets)| == |packets|
  {
    if packets != [] {
      OnlyHeaders(packets[..|packets| - 1]);
    }
  }

  /** The receiver waits for something, or has a block in hand. */
  ghost predicate Waits(s: State) { NoBlockYet(s.cons) || s.cons.Storing? || s.cons.InBody? }

  /** The third header finds the channel full for good. */
  lemma NeverEnds(packets: seq<Packet>, n: nat, header: Header, s: State)
    requires Within(packets, n, header, s) && Waits(s) && |Headers(packets[..n])| >= 3
    ensures !s.prod.SendingError? && !s.prod.Closing? && s.errCh == []
  {
    ProducerOnTrack(packets, n, header, s);
    hide Headers, Bytes, FirstError, ErrorsOk, BytesOk, DoneOk, ProducerOk;
  }

  lemma WaitsOn(packets: seq<Packet>, n: nat, header: Header, s: State, s': State, e: Step)
    requires Within(packets, n, header, s) && Waits(s) && |Headers(packets[..n])| >= 3 && CalmStep(packets, s, s', e)
    ensures Within(packets, n, header, s') && Waits(s')
  {
    hide WholeStream, Inv, Headers;
    NextKeeps(packets, s, s', e);
    NeverEnds(packets, n, header, s);
    ProducerOnTrack(packets, n, header, s);
    if s.cons.GotHeader? {
      TakenHeader(packets, n, header, s);
    }
  }

  lemma {:induction false} CalmRunWaits(packets: seq<Packet>, n: nat, header: Header,
                                        run: seq<State>, steps: seq<Step>, i: nat)
    requires n <= |packets| && WholeStream(packets[..n], header) && |Headers(packets[..n])| >= 3
    requires IsCalmRun(packets, run, steps) && i < |run|
    ensures Within(packets, n, header, run[i]) && Waits(run[i])
  {
    hide CalmStep, WholeStream, Headers;
    if i == 0 {
      InitialOnTrack(packets);
    } else {
      hide Within, Waits;
      CalmRunWaits(packets, n, header, run, steps, i - 1);
      WaitsOn(packets, n, header, run[i - 1], run[i], steps[i - 1]);
    }
  }

  /** With three headers or more an undisturbed receive neither succeeds nor fails: it gets stuck. */
  lemma ManyHeadersGetStuck(packets: seq<Packet>, n: nat, header: Header)
    requires n <= |packets| && WholeStream(packets[..n], header) && |Headers(packets[..n])| >= 3
    ensures forall s | Reachable(packets, s) :: !s.cons.Received? && !s.cons.Failed? && !s.cons.UseCached?
    ensures exists s :: Reachable(packets, s) && !CanGoOn(packets, s)
  {
    hide CalmStep, CanGoOn, WholeStream, Headers, Within;
    forall s | Reachable(packets, s) ensures !s.cons.Received? && !s.cons.Failed? && !s.cons.UseCached? {
      var run, steps :| IsCalmRun(packets, run, steps) && run[|steps|] == s;
      CalmRunWaits(packets, n, header, run, steps, |steps|);
    }
    hide Reachable;
    InitialReachable(packets);
    var s := RunsEnd(packets, INITIAL);
  }

  /** The packets decide: a stream is received in every undisturbed run exactly when it begins with a
      whole stream that has at most two headers and, if it has two, some data. */
  lemma AlwaysReceivedIff(packets: seq<Packet>)
    ensures AlwaysReceived(packets) <==> exists n: nat, header :: Receivable(packets, n, header)
  {
    hide Receivable, Reachable, CanGoOn;
    if n: nat, header :| Receivable(packets, n, header) {
      forall s | Reachable(packets, s) ensures !s.cons.Failed? && (s.cons.Received? || CanGoOn(packets, s)) {
        ReceivableIsReceived(packets, n, header, s);
      }
    }
    if AlwaysReceived(packets) {
      InitialReachable(packets);
      var s := RunsEnd(packets, INITIAL);
      ReceivedIsReceivable(packets, s);
    }
  }

  lemma ReceivedIsReceivable(packets: seq<Packet>, s: State)
    requires AlwaysReceived(packets) && Reachable(packets, s) && s.cons.Received?
    ensures Receivable(packets, s.next, s.cons.header)
  {
    hide Reachable, CanGoOn, Next, Inv, Headers, WholeStream, CarriesData;
    ReachableInv(packets, s);
    ReceivedHeaders(packets, s);
    var run, steps := CalmRunsAreRuns(packets, s);
    ReceiveIsExact(packets, run, steps, |steps|);
    var seen := packets[..s.next];
    if |Headers(seen)| == 2 && !exists i :: 0 <= i < s.next && CarriesData(packets[i]) {
      forall i | 0 <= i < |seen| ensures !CarriesData(seen[i]) {
        assert seen[i] == packets[i];
      }
      TwoHeadersOnly(seen, s.cons.header);
      assert seen[0] == packets[0] && seen[1] == packets[1];
      TwoHeadersRace(packets, s.cons.header, HeaderOf(packets[1]).value);
    }
  }
}
