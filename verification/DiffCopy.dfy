/** The file-transfer sender: a walker, a receive loop and a pool of workers share an id table, a
    queue and one wire; every interleaving is a run of this machine. */
module DiffCopy {
  import opened Basics
  import opened TarPaths

  const ID_SPACE: nat := 0x1_0000_0000   // ids are 32-bit and wrap around
  const WORKERS: nat := 64
  const QUEUE: nat := 128

  datatype Entry = Entry(path: string, regular: bool)

  datatype Dockerfile = Dockerfile(dockerfile: seq<byte>, dockerignore: seq<byte>)

  /** The entries that the walk visits, the contents it can open, and the generated Dockerfile. */
  datatype World = World(entries: seq<Entry>, contents: map<string, seq<byte>>, proxy: Option<Dockerfile>)

  /** What `sendFile` reads for a path. */
  function Source(w: World, path: string): Option<seq<byte>> {
    if path == Join(DOCKERFILE) && w.proxy.Some? then Some(w.proxy.value.dockerfile)
    else if path == Join(DOCKERIGNORE) && w.proxy.Some? then Some(w.proxy.value.dockerignore)
    else if path in w.contents then Some(w.contents[path])
    else None
  }

  function IdOf(k: nat): nat { k % ID_SPACE }

  /** A request on its way to a worker; `entry` records which walked entry it came from. */
  datatype Handle = Handle(id: nat, path: string, entry: nat)

  datatype Walker = Visiting | Announcing | Quit

  datatype Loop = Listening | Pushing(handle: Handle) | Closed

  datatype Worker =
    | Idle
    | Opening(handle: Handle)
    | Copying(handle: Handle, data: seq<byte>, pos: nat)
    | Exited

  /** Packets on the wire; for a data packet also which worker sent it and for which entry. */
  datatype Sent = Stat(path: string) | LastStat | Data(id: nat, data: seq<byte>, worker: nat, entry: nat) | Fin | Err

  /** What has become of a regular entry; a record only, no thread reads it. */
  datatype Phase =
    | Pending | Held | Queued | Working(worker: nat) | Finished(worker: nat) | Abandoned(worker: nat) | Overwritten

  datatype State = State(
    next: nat, walker: Walker, files: map<nat, nat>, loop: Loop, pipe: seq<Handle>,
    workers: seq<Worker>, wire: seq<Sent>, phase: map<nat, Phase>)

  ghost predicate Initial(s: State) {
    && s == State(0, Visiting, map[], Listening, [], s.workers, [], map[])
    && |s.workers| == WORKERS && forall i | 0 <= i < WORKERS :: s.workers[i] == Idle
  }

  datatype Step =
    | Insert | Announce | EndWalk | FailWalk(reported: bool)
    | Request(id: nat) | Push | Finish | StopLoop
    | Take(worker: nat) | Open(worker: nat) | Chunk(worker: nat, size: nat) | Terminate(worker: nat)
    | Fail(worker: nat) | Exit(worker: nat)

  function HandleOf(w: World, k: nat): Handle
    requires k < |w.entries|
  {
    Handle(IdOf(k), w.entries[k].path, k)
  }

  /** The table entry that an insertion overwrites, if any, is lost. */
  function Inserted(s: State, k: nat): State {
    var phase := if IdOf(k) in s.files then s.phase[s.files[IdOf(k)] := Overwritten] else s.phase;
    s.(files := s.files[IdOf(k) := k], phase := phase[k := Pending])
  }

  ghost predicate WalkStep(w: World, s: State, s': State, e: Step) {
    match e
    case Insert =>               // the table first, then the packet
      && s.walker.Visiting? && s.next < |w.entries|
      && s' == (if w.entries[s.next].regular then Inserted(s, s.next) else s).(next := s.next + 1, walker := Announcing)
    case Announce =>
      && s.walker.Announcing? && 0 < s.next <= |w.entries|
      && s' == s.(walker := Visiting, wire := s.wire + [Stat(w.entries[s.next - 1].path)])
    case EndWalk =>
      && s.walker.Visiting? && s.next == |w.entries|
      && s' == s.(walker := Quit, wire := s.wire + [LastStat])
    case FailWalk(reported) =>
      && !s.walker.Quit?
      && s' == s.(walker := Quit, wire := if reported then s.wire + [Err] else s.wire)
    case _ => false
  }

  ghost predicate LoopStep(w: World, s: State, s': State, e: Step) {
    match e
    case Request(id) =>          // looked up and removed under one lock
      && s.loop.Listening?
      && s' == if id in s.files && s.files[id] < |w.entries| then
                 var k := s.files[id];
                 s.(files := s.files - {id}, loop := Pushing(Handle(id, w.entries[k].path, k)),
                     phase := s.phase[k := Held])
               else s.(loop := Closed)
    case Push =>
      && s.loop.Pushing? && |s.pipe| < QUEUE
      && s' == s.(loop := Listening, pipe := s.pipe + [s.loop.handle], phase := s.phase[s.loop.handle.entry := Queued])
    case Finish =>
      && s.loop.Listening?
      && s' == s.(loop := Closed, wire := s.wire + [Fin])
    case StopLoop =>
      && s.loop.Listening?
      && s' == s.(loop := Closed)
    case _ => false
  }

  function SetWorker(s: State, i: nat, x: Worker): State
    requires i < |s.workers|
  {
    s.(workers := s.workers[i := x])
  }

  ghost predicate WorkerStep(w: World, s: State, s': State, e: Step) {
    match e
    case Take(i) =>
      && i < |s.workers| && s.workers[i].Idle? && s.pipe != []
      && s' == SetWorker(s, i, Opening(s.pipe[0])).(pipe := s.pipe[1..],
          phase := s.phase[s.pipe[0].entry := Working(i)])
    case Open(i) =>
      && i < |s.workers| && s.workers[i].Opening? && Source(w, s.workers[i].handle.path).Some?
      && s' == SetWorker(s, i, Copying(s.workers[i].handle, Source(w, s.workers[i].handle.path).value, 0))
    case Chunk(i, size) =>       // empty writes put nothing on the wire
      && i < |s.workers| && s.workers[i].Copying?
      && var Copying(h, data, pos) := s.workers[i];
      && 0 < size && pos + size <= |data|
      && s' == SetWorker(s, i,
          Copying(h, data, pos + size)).(wire := s.wire + [Data(h.id, data[pos..pos + size], i, h.entry)])
    case Terminate(i) =>
      && i < |s.workers| && s.workers[i].Copying? && s.workers[i].pos == |s.workers[i].data|
      && var h := s.workers[i].handle;
      && s' == SetWorker(s, i, Idle).(wire := s.wire + [Data(h.id, [], i, h.entry)],
          phase := s.phase[h.entry := Finished(i)])
    case Fail(i) =>              // a failed open, read or send, or a cancelled context
      && i < |s.workers| && (s.workers[i].Opening? || s.workers[i].Copying?)
      && s' == SetWorker(s, i, Exited).(phase := s.phase[s.workers[i].handle.entry := Abandoned(i)])
    case Exit(i) =>
      && i < |s.workers| && s.workers[i].Idle? && s.pipe == [] && s.loop.Closed?
      && s' == SetWorker(s, i, Exited)
    case _ => false
  }

  ghost predicate Next(w: World, s: State, s': State, e: Step) {
    WalkStep(w, s, s', e) || LoopStep(w, s, s', e) || WorkerStep(w, s, s', e)
  }

  ghost predicate IsRun(w: World, run: seq<State>, steps: seq<Step>) {
    && |run| == |steps| + 1 && Initial(run[0])
    && forall i | 0 <= i < |steps| :: Next(w, run[i], run[i + 1], steps[i])
  }
}
