/** What every run of the tar receive keeps, and what a finished receive therefore means. */
module TarStreamProofs {
  import opened Basics
  import opened TarStream

  // ---- what the stream has said so far ----

  /** The first error among the packets. */
  function FirstError(packets: seq<Packet>): Option<Error> {
    if packets == [] then None
    else
      var before := FirstError(packets[..|packets| - 1]);
      if before.Some? then before else ErrorOf(packets[|packets| - 1])
  }

  function Headers(packets: seq<Packet>): seq<Header> {
    if packets == [] then []
    else
      var p := packets[|packets| - 1];
      Headers(packets[..|packets| - 1]) + if Names(p) then [Header(p.metadata["hash"], p.complete)] else []
  }

  ghost predicate NoneLast(packets: seq<Packet>) {
    forall i | 0 <= i < |packets| :: !IsLast(packets[i])
  }

  ghost function Seen(packets: seq<Packet>, s: State): seq<Packet>
    requires s.next <= |packets|
  {
    packets[..s.next]
  }

  /** The first error of the stream, a failed receive included. */
  ghost function Trouble(packets: seq<Packet>, s: State): Option<Error>
    requires s.next <= |packets|
  {
    if FirstError(Seen(packets, s)).Some? then FirstError(Seen(packets, s)) else s.recvError
  }

  // ---- the invariant ----

  ghost predicate Active(c: Consumer) { !c.Failed? && !c.UseCached? }

  /** What the producer is doing follows from the packets it has read. */
  ghost predicate ProducerOk(packets: seq<Packet>, s: State)
    requires s.next <= |packets|
  {
    && (s.prod.Receiving? ==> NoneLast(Seen(packets, s)) && s.recvError == None)
    && (s.prod.SendingHeader? || s.prod.SendingData? ==>
          && s.next > 0 && NoneLast(packets[..s.next - 1]) && s.prod == Handle(packets[s.next - 1])
          && ErrorOf(packets[s.next - 1]) == None && s.recvError == None)
    && (s.prod.SendingError? ==>
          if s.prod.error == None then s.prod.last && Ended(packets, s)
          else Trouble(packets, s).Some? && (!s.prod.last ==> NoneLast(Seen(packets, s)) && s.recvError == None))
    && (s.prod.Closing? && Trouble(packets, s) == None ==> Ended(packets, s))
    && (s.prod.Closing? ==> s.prod.closed <= 3)
  }

  /** The stream has ended properly, with the packet read last. */
  ghost predicate Ended(packets: seq<Packet>, s: State)
    requires s.next <= |packets|
  {
    s.next > 0 && NoneLast(packets[..s.next - 1]) && IsLast(packets[s.next - 1]) && s.recvError == None
  }

  /** The first error is on its way until the consumer has it. */
  ghost predicate ErrorsOk(packets: seq<Packet>, s: State)
    requires s.next <= |packets|
  {
    && |s.errCh| <= 1
    && (|s.errCh| == 1 ==> if s.errCh[0] == None then s.prod.Closing? else Trouble(packets, s).Some?)
    && (Active(s.cons) && Trouble(packets, s).Some? ==>
          if |s.errCh| == 1 then s.errCh[0] == Trouble(packets, s)
          else s.prod.SendingError? && s.prod.error == Trouble(packets, s))
    && (s.cons.Failed? && s.cons.reason.StreamError? ==> Trouble(packets, s) == Some(s.cons.reason.error))
    && ((s.cons.AwaitHeader? || s.cons.Storing? || s.cons.InBody?) && !s.cons.errOpen ==> s.errCh == [] && ErrClosed(s))
  }

  /** What the consumer has written of what it has taken. */
  ghost predicate FileOk(cons: Consumer, taken: seq<byte>, file: seq<byte>) {
    match cons
    case AwaitHeader(_, _) => taken == [] && file == []
    case GotHeader(_) => taken == [] && file == []
    case AwaitFirst(_, _) => taken == [] && file == []
    case Storing(_, cached, data, _) => if cached then file == [] else file + data == taken
    case InBody(_, cached, _) => file == if cached then [] else taken
    case Received(_, cached) => file == if cached then [] else taken
    case UseCached(_) => taken == [] && file == []
    case _ => true
  }

  /** The consumer has every data byte but those still in the producer's hand. */
  ghost predicate BytesOk(packets: seq<Packet>, s: State)
    requires s.next <= |packets|
  {
    && (s.taken + (if s.prod.SendingData? then s.prod.data else []) == Bytes(Seen(packets, s)))
    && FileOk(s.cons, s.taken, s.file)
  }

  /** The consumer's header is the first one of the stream, and no data comes before it. */
  ghost predicate HeaderOk(packets: seq<Packet>, s: State)
    requires s.next <= |packets|
  {
    && |s.headerCh| <= 1
    && s.headers + s.headerCh + (if s.prod.SendingHeader? then [s.prod.header] else []) == Headers(Seen(packets, s))
    && (match s.cons
        case AwaitHeader(_, _) => s.headers == []
        case GotHeader(header) => s.headers == [header]
        case AwaitFirst(header, _) => s.headers == [header] && !header.complete
        case Storing(header, _, _, _) => s.headers == [header] && !header.complete
        case InBody(header, _, _) => s.headers == [header] && !header.complete
        case Received(header, _) => s.headers == [header] && !header.complete
        case UseCached(header) => s.headers == [header] && header.complete
        case _ => true)
    && (s.next > 0 && IsData(packets[0]) ==> s.next == 1 && s.prod.SendingData?)
  }

  /** The receiver has come to the end of the stream: with an archive, or without a header or any data. */
  ghost predicate AtEnd(c: Consumer) { c.Received? || c == Failed(NoHeader) || c == Failed(NoData) }

  ghost predicate DoneOk(packets: seq<Packet>, s: State)
    requires s.next <= |packets|
  {
    AtEnd(s.cons) ==> s.prod.Closing? && Trouble(packets, s) == None
  }

  ghost predicate Inv(packets: seq<Packet>, s: State) {
    && s.next <= |packets|
    && ProducerOk(packets, s) && ErrorsOk(packets, s) && BytesOk(packets, s) && HeaderOk(packets, s)
        && DoneOk(packets, s)
  }

  /** Reading one more packet. */
  lemma SeenMore(packets: seq<Packet>, n: nat)
    requires n < |packets|
    ensures Bytes(packets[..n + 1]) == Bytes(packets[..n]) + if IsData(packets[n]) then packets[n].data else []
    ensures FirstError(packets[..n + 1]) == if FirstError(packets[..n]).Some? then FirstError(packets[..n])
        else ErrorOf(packets[n])
    ensures Headers(packets[..n + 1]) == Headers(packets[..n]) + if HeaderOf(packets[n]).Some?
        then [HeaderOf(packets[n]).value] else []
    ensures n == 0 ==> Headers(packets[..n]) == []
    ensures NoneLast(packets[..n + 1]) <==> NoneLast(packets[..n]) && !IsLast(packets[n])
  {
    assert packets[..n + 1][..n] == packets[..n];
    assert packets[..n + 1][n] == packets[n];
    assert forall i | 0 <= i < n :: packets[..n + 1][i] == packets[..n][i];
  }

  lemma EndsMore(packets: seq<Packet>, n: nat)
    requires n < |packets|
    ensures FirstError(packets[..n + 1]) == if FirstError(packets[..n]).Some? then FirstError(packets[..n])
        else ErrorOf(packets[n])
    ensures NoneLast(packets[..n + 1]) <==> NoneLast(packets[..n]) && !IsLast(packets[n])
  {
    hide Bytes, FirstError, Headers, NoneLast, ErrorOf, HeaderOf;
    SeenMore(packets, n);
  }

  lemma RecvProducer(packets: seq<Packet>, s: State, s': State)
    requires Inv(packets, s) && ProducerStep(packets, s, s', Recv)
    ensures ProducerOk(packets, s')
  {
    hide Bytes, FirstError, Headers, NoneLast, ErrorOf, HeaderOf, HeaderOk, BytesOk, ErrorsOk, DoneOk;
    EndsMore(packets, s.next);
  }

  lemma RecvErrors(packets: seq<Packet>, s: State, s': State)
    requires Inv(packets, s) && ProducerStep(packets, s, s', Recv)
    ensures ErrorsOk(packets, s') && DoneOk(packets, s')
  {
    SeenMore(packets, s.next);
    hide Bytes, FirstError, Headers, NoneLast, ErrorOf, HeaderOk, BytesOk;
  }

  lemma RecvBytes(packets: seq<Packet>, s: State, s': State)
    requires Inv(packets, s) && ProducerStep(packets, s, s', Recv)
    ensures BytesOk(packets, s')
  {
    SeenMore(packets, s.next);
    hide Bytes, FirstError, Headers, NoneLast, ErrorOf, ErrorsOk, ProducerOk, DoneOk, HeaderOk, FileOk;
  }

  lemma RecvHeader(packets: seq<Packet>, s: State, s': State)
    requires Inv(packets, s) && ProducerStep(packets, s, s', Recv)
    ensures HeaderOk(packets, s')
  {
    SeenMore(packets, s.next);
    hide Bytes, FirstError, Headers, NoneLast, ErrorOf, ErrorsOk, ProducerOk, DoneOk, BytesOk;
  }

  lemma SendErrors(packets: seq<Packet>, s: State, s': State, e: Step)
    requires Inv(packets, s) && ProducerStep(packets, s, s', e) && !e.Recv?
    ensures ProducerOk(packets, s') && ErrorsOk(packets, s') && DoneOk(packets, s')
  {
    hide Bytes, FirstError, Headers, NoneLast, ErrorOf, HeaderOk, BytesOk;
    if e.SendHeader? {
      SeenMore(packets, s.next - 1);
    }
  }

  lemma SendData(packets: seq<Packet>, s: State, s': State, e: Step)
    requires Inv(packets, s) && ProducerStep(packets, s, s', e) && !e.Recv?
    ensures BytesOk(packets, s') && HeaderOk(packets, s')
  {
    hide Bytes, FirstError, Headers, NoneLast, ErrorOf, ErrorsOk, DoneOk;
  }

  lemma HeaderErrors(packets: seq<Packet>, s: State, s': State, e: Step)
    requires Inv(packets, s) && HeaderStep(s, s', e)
    ensures ProducerOk(packets, s') && ErrorsOk(packets, s') && DoneOk(packets, s')
  {
    hide Bytes, FirstError, Headers, NoneLast, ErrorOf, HeaderOf, HeaderOk, BytesOk;
  }

  lemma HeaderData(packets: seq<Packet>, s: State, s': State, e: Step)
    requires Inv(packets, s) && HeaderStep(s, s', e)
    ensures BytesOk(packets, s') && HeaderOk(packets, s')
  {
    hide Bytes, FirstError, Headers, NoneLast, ErrorOf, HeaderOf, ErrorsOk, ProducerOk, DoneOk;
  }

  lemma TakeDataKeeps(packets: seq<Packet>, s: State, s': State)
    requires Inv(packets, s) && BodyStep(s, s', TakeData)
    ensures Inv(packets, s')
  {
    hide Bytes, FirstError, Headers, NoneLast, ErrorOf;
    SeenMore(packets, s.next - 1);
  }

  lemma BodyErrors(packets: seq<Packet>, s: State, s': State, e: Step)
    requires Inv(packets, s) && BodyStep(s, s', e) && !e.TakeData?
    ensures ProducerOk(packets, s') && ErrorsOk(packets, s') && DoneOk(packets, s')
  {
    hide Bytes, FirstError, Headers, NoneLast, ErrorOf, HeaderOf, HeaderOk, BytesOk;
  }

  lemma BodyData(packets: seq<Packet>, s: State, s': State, e: Step)
    requires Inv(packets, s) && BodyStep(s, s', e) && !e.TakeData?
    ensures BytesOk(packets, s') && HeaderOk(packets, s')
  {
    hide Bytes, FirstError, Headers, NoneLast, ErrorOf, HeaderOf, ErrorsOk, ProducerOk, DoneOk;
  }

  lemma NextKeeps(packets: seq<Packet>, s: State, s': State, e: Step)
    requires Inv(packets, s) && Next(packets, s, s', e)
    ensures Inv(packets, s')
  {
    hide ProducerOk, ErrorsOk, BytesOk, HeaderOk, DoneOk;
    if e.Recv? {
      RecvProducer(packets, s, s');
      RecvErrors(packets, s, s');
      RecvBytes(packets, s, s');
      RecvHeader(packets, s, s');
    } else if ProducerStep(packets, s, s', e) {
      SendErrors(packets, s, s', e);
      SendData(packets, s, s', e);
    } else if HeaderStep(s, s', e) {
      HeaderErrors(packets, s, s', e);
      HeaderData(packets, s, s', e);
    } else if e.TakeData? {
      TakeDataKeeps(packets, s, s');
    } else {
      BodyErrors(packets, s, s', e);
      BodyData(packets, s, s', e);
    }
  }

  lemma {:induction false} RunKeeps(packets: seq<Packet>, run: seq<State>, steps: seq<Step>, i: nat)
    requires IsRun(packets, run, steps) && i < |run|
    ensures Inv(packets, run[i])
  {
    hide Next;
    if i > 0 {
      hide Inv;
      RunKeeps(packets, run, steps, i - 1);
      NextKeeps(packets, run[i - 1], run[i], steps[i - 1]);
    }
  }

  lemma {:induction false} NoFirstError(packets: seq<Packet>, i: nat)
    requires FirstError(packets) == None && i < |packets|
    ensures ErrorOf(packets[i]) == None
  {
    if i < |packets| - 1 {
      NoFirstError(packets[..|packets| - 1], i);
    }
  }

  lemma {:induction false} FirstHeader(packets: seq<Packet>)
    requires packets != [] && HeaderOf(packets[0]).Some?
    ensures Headers(packets) != [] && Headers(packets)[0] == HeaderOf(packets[0]).value
  {
    if |packets| > 1 {
      FirstHeader(packets[..|packets| - 1]);
    }
  }

  // ---- theorems ----

  /** The packets are a whole stream: a header, then no error, up to the first complete packet. */
  ghost predicate WholeStream(packets: seq<Packet>, header: Header) {
    && packets != [] && Announces(packets[0], header) && !header.complete
    && forall i | 0 <= i < |packets| :: Faultless(packets[i]) && (packets[i].complete <==> i == |packets| - 1)
  }

  /** A receive that succeeds has read a whole stream and written exactly its bytes; a cached one
      has read it and written nothing. */
  lemma ReceiveIsExact(packets: seq<Packet>, run: seq<State>, steps: seq<Step>, i: nat)
    requires IsRun(packets, run, steps) && i < |run| && run[i].cons.Received?
    ensures run[i].next <= |packets| && WholeStream(packets[..run[i].next], run[i].cons.header)
    ensures run[i].file == if run[i].cons.cached then [] else Bytes(packets[..run[i].next])
  {
    hide IsRun, FirstError, Headers, Bytes;
    RunKeeps(packets, run, steps, i);
    var seen := Seen(packets, run[i]);
    forall j | 0 <= j < |seen| ensures ErrorOf(seen[j]) == None {
      NoFirstError(seen, j);
    }
    assert seen[..|seen| - 1] == packets[..run[i].next - 1];
    FirstHeader(seen);
  }

  /** Where a whole stream ends depends on the packets only. */
  lemma ReceivesAgree(packets: seq<Packet>, run: seq<State>, steps: seq<Step>, i: nat, run': seq<State>,
      steps': seq<Step>, i': nat)
    requires IsRun(packets, run, steps) && i < |run| && run[i].cons.Received? && !run[i].cons.cached
    requires IsRun(packets, run', steps') && i' < |run'| && run'[i'].cons.Received? && !run'[i'].cons.cached
    ensures run[i].file == run'[i'].file && run[i].cons == run'[i'].cons
  {
    hide IsRun, Bytes;
    ReceiveIsExact(packets, run, steps, i);
    ReceiveIsExact(packets, run', steps', i');
    WholeStreamsEnd(packets, run[i].next, run[i].cons.header);
    WholeStreamsEnd(packets, run'[i'].next, run'[i'].cons.header);
  }

  lemma WholeStreamsEnd(packets: seq<Packet>, n: nat, header: Header)
    requires n <= |packets| && WholeStream(packets[..n], header)
    ensures n > 0 && HeaderOf(packets[0]) == Some(header) && IsLast(packets[n - 1])
    ensures forall i | 0 <= i < n - 1 :: !IsLast(packets[i])
  {
    assert forall i | 0 <= i < n - 1 :: packets[..n][..n - 1][i] == packets[i];
  }

  /** The first packet that is not faultless has index `j`. */
  ghost predicate FirstFault(packets: seq<Packet>, j: nat) {
    j < |packets| && !Faultless(packets[j]) && forall i | 0 <= i < j :: Faultless(packets[i])
  }

  /** The packets say what the reported error says. */
  ghost predicate Reports(packets: seq<Packet>, error: Error) {
    match error
    case ServerError(message) => exists j: nat ::
      FirstFault(packets, j) && !packets[j].Other? && packets[j].metadata["error"] == message
    case UnexpectedPacket => exists j: nat :: FirstFault(packets, j) && packets[j].Other?
    case ReceiveError(_) => forall i | 0 <= i < |packets| :: Faultless(packets[i])
  }

  lemma {:induction false} FirstErrorReports(packets: seq<Packet>)
    ensures FirstError(packets) == None <==> forall i | 0 <= i < |packets| :: Faultless(packets[i])
    ensures match FirstError(packets)
            case None => true
            case Some(error) => !error.ReceiveError? && Reports(packets, error)
  {
    if packets != [] {
      var n := |packets| - 1;
      FirstErrorReports(packets[..n]);
      if FirstError(packets[..n]).Some? {
        var j: nat :| FirstFault(packets[..n], j) && FirstError(packets[..n]) == ErrorOf(packets[j]);
        assert FirstFault(packets, j);
      } else if !Faultless(packets[n]) {
        assert forall i | 0 <= i < n :: packets[..n][i] == packets[i];
        assert FirstFault(packets, n);
      }
    }
  }

  /** An error reported from the stream is the first one on it, in the host's own words, and a stream with
      an error is neither received nor taken for an empty one; that leaves the other way to succeed, with a
      complete header and a cached entry. */
  lemma ErrorsAreNotLost(packets: seq<Packet>, run: seq<State>, steps: seq<Step>, i: nat)
    requires IsRun(packets, run, steps) && i < |run|
    ensures run[i].next <= |packets|
    ensures run[i].cons.Failed? && run[i].cons.reason.StreamError? ==>
              Reports(packets[..run[i].next], run[i].cons.reason.error)
    ensures AtEnd(run[i].cons) ==>
              run[i].recvError == None && forall j | 0 <= j < run[i].next :: Faultless(packets[j])
  {
    hide IsRun, FirstError, Headers, Bytes, Reports;
    RunKeeps(packets, run, steps, i);
    RunRecvError(packets, run, steps, i);
    var seen := Seen(packets, run[i]);
    FirstErrorReports(seen);
    if FirstError(seen) == None && run[i].recvError.Some? {
      ReportsFailure(seen, run[i].recvError.value);
    }
    assert forall j | 0 <= j < run[i].next :: seen[j] == packets[j];
  }

  lemma ReportsFailure(packets: seq<Packet>, error: Error)
    requires error.ReceiveError? && forall i | 0 <= i < |packets| :: Faultless(packets[i])
    ensures Reports(packets, error)
  {
  }

  lemma {:induction false} RunRecvError(packets: seq<Packet>, run: seq<State>, steps: seq<Step>, i: nat)
    requires IsRun(packets, run, steps) && i < |run|
    ensures run[i].recvError.Some? ==> run[i].recvError.value.ReceiveError?
  {
    if i > 0 {
      RunRecvError(packets, run, steps, i - 1);
      assert Next(packets, run[i - 1], run[i], steps[i - 1]);
    }
  }

  // ---- every run is finite ----

  function ProducerWork(p: Producer): nat {
    match p
    case Receiving => 6
    case SendingHeader(_) => 8
    case SendingData(_, _) => 8
    case SendingError(_, last) => if last then 5 else 8
    case Closing(closed) => if closed <= 3 then 3 - closed else 0
  }

  function ConsumerWork(c: Consumer): nat {
    match c
    case AwaitHeader(headerOpen, errOpen) => 20 + (if headerOpen then 1 else 0) + (if errOpen then 1 else 0)
    case GotHeader(_) => 15
    case AwaitFirst(_, _) => 12
    case Draining => 5
    case Storing(_, _, _, errOpen) => if errOpen then 8 else 7
    case InBody(_, _, errOpen) => if errOpen then 7 else 6
    case _ => 0
  }

  function Work(packets: seq<Packet>, s: State): int {
    10 * (|packets| - s.next) + ProducerWork(s.prod) + ConsumerWork(s.cons) + |s.headerCh| + |s.errCh|
  }

  lemma StepsDoWork(packets: seq<Packet>, s: State, s': State, e: Step)
    requires Next(packets, s, s', e)
    ensures Work(packets, s') < Work(packets, s)
  {
    hide ErrorOf, HeaderOf;
  }

  /** No run is longer than a fixed multiple of the stream: no select loop spins. */
  lemma {:induction false} RunsAreBounded(packets: seq<Packet>, run: seq<State>, steps: seq<Step>, i: nat)
    requires IsRun(packets, run, steps) && i < |run|
    ensures i + Work(packets, run[i]) <= 10 * |packets| + 28
    ensures i <= 10 * |packets| + 28
  {
    hide Next;
    if i > 0 {
      hide Work;
      RunsAreBounded(packets, run, steps, i - 1);
      StepsDoWork(packets, run[i - 1], run[i], steps[i - 1]);
    }
    RunKeeps(packets, run, steps, i);
    WorkIsPositive(packets, run[i]);
  }

  lemma WorkIsPositive(packets: seq<Packet>, s: State)
    requires Inv(packets, s)
    ensures Work(packets, s) >= 0
  {
  }
}
