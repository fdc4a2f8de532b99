/** One duplex stream shared by several stages: the reader dispatches packets to stages, each stage
    looks up a demultiplexer by build id, and callers register, send and receive; every
    interleaving over the bounded channels is a run of this machine. */
module StreamDemux {
  import opened Basics
  import opened Filters

  const STAGE_CHANNEL: nat := 4
  const DEMUX_CHANNEL: nat := 32
  const SEND_CHANNEL: nat := 64

  /** `stage`, `id` and `filter` never change; `delivered` records what its consumer has received. */
  datatype Demux = Demux(stage: nat, id: string, filter: Filter, ch: seq<Packet>, delivered: seq<Packet>,
      cancelled: bool)

  datatype Reader = Reading | Forwarding(stage: nat, packet: Packet) | ReaderDone

  datatype StagePc =
    | Waiting
    | Taken(packet: Packet)
    | Loaded(packet: Packet, demux: nat)
    | Accepting(packet: Packet, demux: nat)
    | Stopped

  datatype Stage = Stage(recvCh: seq<Packet>, table: map<string, nat>, pc: StagePc)

  datatype CallerPc = Starting | Registering | Sending | Receiving(demux: nat) | CallFailed

  /** A `Request` sends a message after registering, a `RecvFilter` does not. */
  datatype Caller = Caller(stage: nat, id: string, filter: Filter, sends: bool, pc: CallerPc)

  datatype Message = Message(stage: nat, id: string, caller: nat)

  /** A caller's demultiplexer, if it makes one, has the caller's number. */
  datatype State = State(
    arrived: seq<Packet>, reader: Reader, stages: seq<Stage>, demuxes: map<nat, Demux>,
    sendCh: seq<Message>, wire: seq<Message>, callers: map<nat, Caller>, stopped: bool)

  ghost predicate Initial(filters: seq<Filter>, s: State) {
    && s == State([], Reading, s.stages, map[], [], [], map[], false)
    && |s.stages| == |filters| && forall i | 0 <= i < |s.stages| :: s.stages[i] == Stage([], map[], Waiting)
  }

  datatype Step =
    | Arrive(packet: Packet) | Forward | StopReading
    | StageTake(stage: nat) | StageLookup(stage: nat) | StageCheck(stage: nat) | StagePut(stage: nat)
    | StageGiveUp(stage: nat) | StageStop(stage: nat) | StageDrop(stage: nat, id: string)
    | Call(caller: nat, stage: nat, id: string, filter: Filter, sends: bool)
    | CallLoad(caller: nat) | CallRegister(caller: nat) | CallSend(caller: nat) | CallTimeout(caller: nat)
    | CallRecv(caller: nat) | CallCancelled(caller: nat)
    | Cancel(demux: nat) | SendOut | SendFails

  function SetStage(s: State, i: nat, x: Stage): State
    requires i < |s.stages|
  {
    s.(stages := s.stages[i := x])
  }

  function SetPc(s: State, i: nat, pc: StagePc): State
    requires i < |s.stages|
  {
    SetStage(s, i, s.stages[i].(pc := pc))
  }

  /** `closeFn`, `Delete`: whatever is registered under the id is removed. */
  function Delete(s: State, i: nat, id: string): State
    requires i < |s.stages|
  {
    SetStage(s, i, s.stages[i].(table := s.stages[i].table - {id}))
  }

  ghost predicate ReaderStep(filters: seq<Filter>, s: State, s': State, e: Step) {
    match e
    case Arrive(p) =>
      && s.reader.Reading?
      && s' == s.(arrived := s.arrived + [p],
                  reader := match Route(filters, p) case Some(i) => Forwarding(i, p) case None => Reading)
    case Forward =>
      && s.reader.Forwarding? && s.reader.stage < |s.stages| && |s.stages[s.reader.stage].recvCh| < STAGE_CHANNEL
      && s' == SetStage(s, s.reader.stage,
                        s.stages[s.reader.stage].(recvCh := s.stages[s.reader.stage].recvCh + [s.reader.packet]))
               .(reader := Reading)
    case StopReading =>
      && s.reader.Reading?
      && s' == s.(reader := ReaderDone, stopped := true)
    case _ => false
  }

  /** `Run` and `Accept`. */
  ghost predicate StageStep(s: State, s': State, e: Step) {
    match e
    case StageTake(i) =>
      && i < |s.stages| && s.stages[i].pc.Waiting? && s.stages[i].recvCh != []
      && s' == SetStage(s, i, s.stages[i].(recvCh := s.stages[i].recvCh[1..], pc := Taken(s.stages[i].recvCh[0])))
    case StageLookup(i) =>
      && i < |s.stages| && s.stages[i].pc.Taken?
      && var p := s.stages[i].pc.packet;
      && s' == SetPc(s, i, if p.buildId in s.stages[i].table then Loaded(p, s.stages[i].table[p.buildId]) else Waiting)
    case StageCheck(i) =>
      && i < |s.stages| && s.stages[i].pc.Loaded? && s.stages[i].pc.demux in s.demuxes
      && var Loaded(p, d) := s.stages[i].pc;
      && s' == if s.demuxes[d].cancelled then SetPc(Delete(s, i, s.demuxes[d].id), i, Waiting)
               else SetPc(s, i, if s.demuxes[d].filter(p) == Accept then Accepting(p, d) else Waiting)
    case StagePut(i) =>
      && i < |s.stages| && s.stages[i].pc.Accepting? && s.stages[i].pc.demux in s.demuxes
      && var Accepting(p, d) := s.stages[i].pc;
      && |s.demuxes[d].ch| < DEMUX_CHANNEL
      && s' == SetPc(s, i, Waiting).(demuxes := s.demuxes[d := s.demuxes[d].(ch := s.demuxes[d].ch + [p])])
    case StageGiveUp(i) =>
      && i < |s.stages| && s.stages[i].pc.Accepting? && s.stages[i].pc.demux in s.demuxes
      && s.demuxes[s.stages[i].pc.demux].cancelled
      && s' == SetPc(Delete(s, i, s.demuxes[s.stages[i].pc.demux].id), i, Waiting)
    case StageStop(i) =>
      && i < |s.stages| && s.stages[i].pc.Waiting? && s.stopped
      && s' == SetPc(s, i, Stopped)
    case StageDrop(i, id) =>
      && i < |s.stages| && s.stages[i].pc.Stopped?
      && s' == Delete(s, i, id)
    case _ => false
  }

  function SetCaller(s: State, r: nat, pc: CallerPc): State
    requires r in s.callers
  {
    s.(callers := s.callers[r := s.callers[r].(pc := pc)])
  }

  /** `Request`, `RecvFilter` and the consumer's `Recv`. */
  ghost predicate CallStep(s: State, s': State, e: Step) {
    match e
    case Call(r, stage, id, filter, sends) =>
      && r !in s.callers && stage < |s.stages|
      && s' == s.(callers := s.callers[r := Caller(stage, id, filter, sends, Starting)])
    case CallLoad(r) =>
      && r in s.callers && s.callers[r].pc.Starting? && s.callers[r].stage < |s.stages|
      && var Caller(i, id, _, _, _) := s.callers[r];
      && s' == SetCaller(s, r, if id in s.stages[i].table then Receiving(s.stages[i].table[id]) else Registering)
    case CallRegister(r) =>      // overwrites what another caller may have registered since
      && r in s.callers && s.callers[r].pc.Registering? && s.callers[r].stage < |s.stages|
      && var Caller(i, id, filter, sends, _) := s.callers[r];
      && s' == SetCaller(SetStage(s, i, s.stages[i].(table := s.stages[i].table[id := r])), r,
                         if sends then Sending else Receiving(r))
               .(demuxes := s.demuxes[r := Demux(i, id, filter, [], [], false)])
    case CallSend(r) =>
      && r in s.callers && s.callers[r].pc.Sending? && |s.sendCh| < SEND_CHANNEL
      && s' == SetCaller(s, r, Receiving(r)).(sendCh := s.sendCh + [Message(s.callers[r].stage, s.callers[r].id, r)])
    case CallTimeout(r) =>
      && r in s.callers && s.callers[r].pc.Sending? && s.callers[r].stage < |s.stages|
      && s' == SetCaller(Delete(s, s.callers[r].stage, s.callers[r].id), r, CallFailed)
    case CallRecv(r) =>
      && r in s.callers && s.callers[r].pc.Receiving? && s.callers[r].pc.demux in s.demuxes
      && var d := s.callers[r].pc.demux;
      && s.demuxes[d].ch != []
      && s' == s.(demuxes := s.demuxes[d := s.demuxes[d].(ch := s.demuxes[d].ch[1..],
                                                          delivered := s.demuxes[d].delivered + [s.demuxes[d].ch[0]])])
    case CallCancelled(r) =>
      && r in s.callers && s.callers[r].pc.Receiving? && s.callers[r].pc.demux in s.demuxes
      && var d := s.callers[r].pc.demux;
      && s.demuxes[d].cancelled && s.demuxes[d].stage < |s.stages|
      && s' == SetCaller(Delete(s, s.demuxes[d].stage, s.demuxes[d].id), r, CallFailed)
    case Cancel(d) =>
      && d in s.demuxes
      && s' == s.(demuxes := s.demuxes[d := s.demuxes[d].(cancelled := true)])
    case SendOut =>
      && s.sendCh != []
      && s' == s.(sendCh := s.sendCh[1..], wire := s.wire + [s.sendCh[0]])
    case SendFails => s' == s.(stopped := true)
    case _ => false
  }

  ghost predicate Next(filters: seq<Filter>, s: State, s': State, e: Step) {
    ReaderStep(filters, s, s', e) || StageStep(s, s', e) || CallStep(s, s', e)
  }

  ghost predicate IsRun(filters: seq<Filter>, run: seq<State>, steps: seq<Step>) {
    && |run| == |steps| + 1 && Initial(filters, run[0])
    && forall i | 0 <= i < |steps| :: Next(filters, run[i], run[i + 1], steps[i])
  }
}
