/** The tar receive: a goroutine feeds three channels from the packet stream while the receiver
    selects over them; every interleaving is a run of this machine. */
module TarStream {
  import opened Basics

  // ---- packets ----

  datatype Packet =
    | Build(metadata: map<string, string>, data: seq<byte>, complete: bool)
    | Image(metadata: map<string, string>, data: seq<byte>, complete: bool)
    | Other

  datatype Error = ServerError(message: string) | UnexpectedPacket | ReceiveError(message: string)

  datatype Header = Header(checksum: string, complete: bool)

  // ---- what a packet is, by its fields ----

  /** Neither unexpected nor an error of the host. */
  predicate Faultless(p: Packet) { !p.Other? && "error" !in p.metadata }

  /** A build transfer that names the hash of the archive. */
  predicate Names(p: Packet) { Faultless(p) && p.Build? && "hash" in p.metadata }

  predicate Announces(p: Packet, header: Header) {
    Names(p) && header == Header(p.metadata["hash"], p.complete)
  }

  /** An image transfer, or a build transfer without a hash. */
  predicate CarriesData(p: Packet) { Faultless(p) && (p.Image? || "hash" !in p.metadata) }

  /** The archive bytes carried by the packets. */
  function Bytes(packets: seq<Packet>): seq<byte> {
    if packets == [] then []
    else
      var p := packets[|packets| - 1];
      Bytes(packets[..|packets| - 1]) + if CarriesData(p) then p.data else []
  }

  // ---- what the handlers make of a packet ----

  function ErrorOf(p: Packet): Option<Error> {
    match p
    case Build(metadata, _, _) => if "error" in metadata then Some(ServerError(metadata["error"])) else None
    case Image(metadata, _, _) => if "error" in metadata then Some(ServerError(metadata["error"])) else None
    case Other => Some(UnexpectedPacket)
  }

  function HeaderOf(p: Packet): Option<Header> {
    if p.Build? && ErrorOf(p) == None && "hash" in p.metadata then Some(Header(p.metadata["hash"], p.complete))
        else None
  }

  predicate IsData(p: Packet) { ErrorOf(p) == None && HeaderOf(p) == None }

  /** The packet after which the host sends nothing more. */
  predicate IsLast(p: Packet) { ErrorOf(p) == None && p.complete }

  // ---- state ----

  datatype Producer =
    | Receiving
    | SendingHeader(header: Header)
    | SendingData(data: seq<byte>, complete: bool)
    | SendingError(error: Option<Error>, last: bool)         // None is the nil error
    | Closing(closed: nat)                                   // 0 to 3: data, header and error channel closed

  datatype Reason = StreamError(error: Error) | NoHeader | NoData | NotCached | Aborted

  datatype Consumer =
    | AwaitHeader(headerOpen: bool, errOpen: bool)           // a channel seen closed is set to nil
    | GotHeader(header: Header)
    | AwaitFirst(header: Header, cached: bool)
    | Draining
    | Storing(header: Header, cached: bool, data: seq<byte>, errOpen: bool)
    | InBody(header: Header, cached: bool, errOpen: bool)
    | UseCached(header: Header)                              // the host sent only a complete header
    | Received(header: Header, cached: bool)
    | Failed(reason: Reason)

  /** `next` packets have been read; `file` is the temporary tar file; `taken` and `headers` record
      what the consumer has received. */
  datatype State = State(
    next: nat, recvError: Option<Error>, prod: Producer,
    headerCh: seq<Header>, errCh: seq<Option<Error>>,
    cons: Consumer, file: seq<byte>, taken: seq<byte>, headers: seq<Header>)

  const INITIAL := State(0, None, Receiving, [], [], AwaitHeader(true, true), [], [], [])

  predicate DataClosed(s: State) { s.prod.Closing? && s.prod.closed >= 1 }
  predicate HeaderClosed(s: State) { s.prod.Closing? && s.prod.closed >= 2 }
  predicate ErrClosed(s: State) { s.prod.Closing? && s.prod.closed >= 3 }

  // ---- steps ----

  datatype Step =
    | Recv | RecvFails(message: string) | SendHeader | SendError | Close
    | TakeHeader | SeeHeaderClosed | TakeEarlyError | SeeErrorClosedEarly | GiveUpHeader | Decide(cached: bool)
    | TakeData | TakeFirstError | SeeDataClosed | Drain | Store | TakeBodyError | SeeErrorClosed | Finish | Abort

  function Handle(p: Packet): Producer {
    if ErrorOf(p).Some? then SendingError(ErrorOf(p), !p.Other?)
    else if HeaderOf(p).Some? then SendingHeader(HeaderOf(p).value)
    else SendingData(p.data, p.complete)
  }

  function AfterSend(complete: bool): Producer {
    if complete then SendingError(None, true) else Receiving
  }

  /** `startTar` with its two handlers. */
  ghost predicate ProducerStep(packets: seq<Packet>, s: State, s': State, e: Step) {
    match e
    case Recv =>
      && s.prod.Receiving? && s.next < |packets|
      && s' == s.(next := s.next + 1, prod := Handle(packets[s.next]))
    case RecvFails(message) =>
      && s.prod.Receiving?
      && s' == s.(recvError := Some(ReceiveError(message)), prod := SendingError(Some(ReceiveError(message)), true))
    case SendHeader =>
      && s.prod.SendingHeader? && |s.headerCh| < 1
      && s' == s.(headerCh := s.headerCh + [s.prod.header], prod := AfterSend(s.prod.header.complete))
    case SendError =>
      && s.prod.SendingError? && |s.errCh| < 1
      && s' == s.(errCh := s.errCh + [s.prod.error], prod := if s.prod.last then Closing(0) else Receiving)
    case Close =>
      && s.prod.Closing? && s.prod.closed < 3
      && s' == s.(prod := Closing(s.prod.closed + 1))
    case _ => false
  }

  /** `readTarStreamHeader` and the choice that follows it. */
  ghost predicate HeaderStep(s: State, s': State, e: Step) {
    match e
    case TakeHeader =>
      && s.cons.AwaitHeader? && s.cons.headerOpen && |s.headerCh| > 0
      && s' == s.(headerCh := s.headerCh[1..], headers := s.headers + [s.headerCh[0]], cons := GotHeader(s.headerCh[0]))
    case SeeHeaderClosed =>
      && s.cons.AwaitHeader? && s.cons.headerOpen && |s.headerCh| == 0 && HeaderClosed(s)
      && s' == s.(cons := AwaitHeader(false, s.cons.errOpen))
    case TakeEarlyError =>
      && s.cons.AwaitHeader? && s.cons.errOpen && |s.errCh| > 0
      && s' == s.(errCh := s.errCh[1..],
                  cons := if s.errCh[0].Some? then Failed(StreamError(s.errCh[0].value)) else s.cons)
    case SeeErrorClosedEarly =>
      && s.cons.AwaitHeader? && s.cons.errOpen && |s.errCh| == 0 && ErrClosed(s)
      && s' == s.(cons := AwaitHeader(s.cons.headerOpen, false))
    case GiveUpHeader =>
      && s.cons == AwaitHeader(false, false)
      && s' == s.(cons := Failed(NoHeader))
    case Decide(cached) =>
      && s.cons.GotHeader?
      && s' == s.(cons := if !s.cons.header.complete then AwaitFirst(s.cons.header, cached)
                          else if cached then UseCached(s.cons.header) else Failed(NotCached))
    case _ => false
  }

  /** `readTarHeader`, `writeTar` and `readTarBody`; a data packet passes when both sides are ready. */
  ghost predicate BodyStep(s: State, s': State, e: Step) {
    match e
    case TakeData =>
      && s.prod.SendingData? && (s.cons.AwaitFirst? || s.cons.InBody?)
      && s' == s.(prod := AfterSend(s.prod.complete), taken := s.taken + s.prod.data,
                  cons := Storing(s.cons.header, s.cons.cached, s.prod.data, s.cons.AwaitFirst? || s.cons.errOpen))
    case TakeFirstError =>       // a nil error here is taken for an empty first block
      && s.cons.AwaitFirst? && (|s.errCh| > 0 || ErrClosed(s))
      && s' == s.(errCh := if |s.errCh| > 0 then s.errCh[1..] else [],
                  cons := if |s.errCh| > 0 && s.errCh[0].Some? then Failed(StreamError(s.errCh[0].value))
                          else Storing(s.cons.header, s.cons.cached, [], true))
    case SeeDataClosed =>
      && s.cons.AwaitFirst? && DataClosed(s)
      && s' == s.(cons := Draining)
    case Drain =>
      && s.cons.Draining? && (|s.errCh| > 0 || ErrClosed(s))
      && s' == s.(errCh := if |s.errCh| > 0 then s.errCh[1..] else [],
                  cons := Failed(if |s.errCh| > 0 && s.errCh[0].Some? then StreamError(s.errCh[0].value) else NoData))
    case Store =>
      && s.cons.Storing?
      && s' == s.(file := if s.cons.cached then s.file else s.file + s.cons.data,
                  cons := InBody(s.cons.header, s.cons.cached, s.cons.errOpen))
    case TakeBodyError =>
      && s.cons.InBody? && s.cons.errOpen && |s.errCh| > 0
      && s' == s.(errCh := s.errCh[1..],
                  cons := if s.errCh[0].Some? then Failed(StreamError(s.errCh[0].value)) else s.cons)
    case SeeErrorClosed =>
      && s.cons.InBody? && s.cons.errOpen && |s.errCh| == 0 && ErrClosed(s)
      && s' == s.(cons := s.cons.(errOpen := false))
    case Finish =>               // the data channel is closed; a last look at the error channel, without waiting
      && s.cons.InBody? && DataClosed(s)
      && s' == if s.cons.errOpen && |s.errCh| > 0 then
                 s.(errCh := s.errCh[1..],
                    cons := if s.errCh[0].Some? then Failed(StreamError(s.errCh[0].value))
                            else Received(s.cons.header, s.cons.cached))
               else s.(cons := Received(s.cons.header, s.cons.cached))
    case Abort =>                // cancellation, or a local failure of the receiver
      && !s.cons.UseCached? && !s.cons.Received? && !s.cons.Failed?
      && s' == s.(cons := Failed(Aborted))
    case _ => false
  }

  ghost predicate Next(packets: seq<Packet>, s: State, s': State, e: Step) {
    ProducerStep(packets, s, s', e) || HeaderStep(s, s', e) || BodyStep(s, s', e)
  }

  ghost predicate IsRun(packets: seq<Packet>, run: seq<State>, steps: seq<Step>) {
    && |run| == |steps| + 1 && run[0] == INITIAL
    && forall i | 0 <= i < |steps| :: Next(packets, run[i], run[i + 1], steps[i])
  }
}
