/** What every run of the file-transfer sender keeps. */
module DiffCopyProofs {
  import opened Basics
  import opened DiffCopy

  // ---- the packets of one entry ----

  /** The data packets sent for entry `k`, in wire order. */
  function OfEntry(wire: seq<Sent>, k: nat): seq<Sent> {
    if wire == [] then []
    else
      var p := wire[|wire| - 1];
      OfEntry(wire[..|wire| - 1], k) + if p.Data? && p.entry == k then [p] else []
  }

  lemma OfEntrySnoc(wire: seq<Sent>, p: Sent, k: nat)
    ensures OfEntry(wire + [p], k) == OfEntry(wire, k) + if p.Data? && p.entry == k then [p] else []
  {
    assert (wire + [p])[..|wire|] == wire;
  }

  function Joined(list: seq<Sent>): seq<byte> {
    if list == [] then []
    else Joined(list[..|list| - 1]) + if list[|list| - 1].Data? then list[|list| - 1].data else []
  }

  lemma JoinedSnoc(list: seq<Sent>, p: Sent)
    ensures Joined(list + [p]) == Joined(list) + if p.Data? then p.data else []
  {
    assert (list + [p])[..|list|] == list;
  }

  /** Non-empty packets of one worker that make up the first `pos` bytes of `data`. */
  ghost predicate Partial(list: seq<Sent>, id: nat, worker: nat, data: seq<byte>, pos: nat) {
    && (forall i | 0 <= i < |list| ::
          list[i].Data? && list[i].id == id && list[i].worker == worker && list[i].data != [])
    && pos <= |data| && Joined(list) == data[..pos]
  }

  /** A part of the content, without the end. */
  ghost predicate Cut(list: seq<Sent>, id: nat, worker: nat, data: seq<byte>) {
    exists pos :: Partial(list, id, worker, data, pos)
  }

  /** The whole content, then one empty packet. */
  ghost predicate Whole(list: seq<Sent>, id: nat, worker: nat, data: seq<byte>) {
    && list != []
    && Partial(list[..|list| - 1], id, worker, data, |data|)
    && var last := list[|list| - 1];
    && last.Data? && last.id == id && last.worker == worker && last.data == []
  }

  lemma PartialGrows(list: seq<Sent>, id: nat, worker: nat, data: seq<byte>, pos: nat, size: nat, k: nat)
    requires Partial(list, id, worker, data, pos) && 0 < size && pos + size <= |data|
    ensures Partial(list + [Data(id, data[pos..pos + size], worker, k)], id, worker, data, pos + size)
  {
    hide Joined;
    JoinedSnoc(list, Data(id, data[pos..pos + size], worker, k));
    assert data[..pos] + data[pos..pos + size] == data[..pos + size];
  }

  lemma PartialEnds(list: seq<Sent>, id: nat, worker: nat, data: seq<byte>, k: nat)
    requires Partial(list, id, worker, data, |data|)
    ensures Whole(list + [Data(id, [], worker, k)], id, worker, data)
  {
    hide Joined;
    assert (list + [Data(id, [], worker, k)])[..|list|] == list;
  }

  // ---- the invariant ----

  /** Entry `k` is where its phase says, and the wire holds the matching part of its content. */
  ghost predicate EntryOk(w: World, s: State, k: nat)
    requires k in s.phase
  {
    && k < |w.entries| && k < s.next && w.entries[k].regular
    && PhaseOk(w, s, k, s.phase[k], HandleOf(w, k), OfEntry(s.wire, k))
  }

  ghost predicate PhaseOk(w: World, s: State, k: nat, phase: Phase, h: Handle, sent: seq<Sent>) {
    match phase
    case Pending => h.id in s.files && s.files[h.id] == k && sent == []
    case Held => s.loop == Pushing(h) && sent == []
    case Queued => h in s.pipe && sent == []
    case Working(worker) =>
      && worker < |s.workers|
      && (if s.workers[worker].Opening? then s.workers[worker].handle == h && sent == []
          else
            && s.workers[worker].Copying? && s.workers[worker].handle == h
            && Source(w, h.path) == Some(s.workers[worker].data)
            && Partial(sent, h.id, worker, s.workers[worker].data, s.workers[worker].pos))
    case Finished(worker) => Source(w, h.path).Some? && Whole(sent, h.id, worker, Source(w, h.path).value)
    case Abandoned(worker) =>
      && worker < |s.workers| && s.workers[worker].Exited?
      && (sent == [] || (Source(w, h.path).Some? && Cut(sent, h.id, worker, Source(w, h.path).value)))
    case Overwritten => sent == [] && k + ID_SPACE < s.next
  }

  ghost predicate Entries(w: World, s: State) {
    && (forall k | k in s.phase :: EntryOk(w, s, k))
    && (forall k: nat | k !in s.phase :: OfEntry(s.wire, k) == [])
    && (forall k: nat | k < s.next && k < |w.entries| && w.entries[k].regular :: k in s.phase)
  }

  ghost predicate TableOk(s: State) {
    forall id | id in s.files :: s.files[id] in s.phase && s.phase[s.files[id]] == Pending && IdOf(s.files[id]) == id
  }

  ghost predicate QueueOk(s: State) {
    && (s.loop.Pushing? ==> s.loop.handle.entry in s.phase && s.phase[s.loop.handle.entry] == Held)
    && (forall i | 0 <= i < |s.pipe| :: s.pipe[i].entry in s.phase && s.phase[s.pipe[i].entry] == Queued)
    && (forall i, j | 0 <= i < j < |s.pipe| :: s.pipe[i].entry != s.pipe[j].entry)
    && |s.pipe| <= QUEUE
  }

  ghost predicate Busy(x: Worker) { x.Opening? || x.Copying? }

  ghost predicate WorkersOk(s: State) {
    && |s.workers| == WORKERS
    && forall i | 0 <= i < |s.workers| && Busy(s.workers[i]) ::
         s.workers[i].handle.entry in s.phase && s.phase[s.workers[i].handle.entry] == Working(i)
  }

  /** What table, queue and workers hold is in the matching phase. */
  ghost predicate Shape(s: State) { TableOk(s) && QueueOk(s) && WorkersOk(s) }

  ghost predicate Inv(w: World, s: State) { s.next <= |w.entries| && Entries(w, s) && Shape(s) }

  /** An entry that a step does not concern. */
  ghost predicate Apart(w: World, s: State, s': State, k: nat) {
    && k in s.phase && k in s'.phase && s'.phase[k] == s.phase[k] && s.next <= s'.next
    && OfEntry(s'.wire, k) == OfEntry(s.wire, k)
    && (s.phase[k] == Pending && IdOf(k) in s.files ==> IdOf(k) in s'.files && s'.files[IdOf(k)] == s.files[IdOf(k)])
    && (s.phase[k] == Held ==> s'.loop == s.loop)
    && (s.phase[k] == Queued ==> forall h | h in s.pipe && h.entry == k :: h in s'.pipe)
    && ((s.phase[k].Working? || s.phase[k].Abandoned?) && s.phase[k].worker < |s.workers| ==>
          s.phase[k].worker < |s'.workers| && s'.workers[s.phase[k].worker] == s.workers[s.phase[k].worker])
  }

  lemma EntryKept(w: World, s: State, s': State, k: nat)
    requires Apart(w, s, s', k) && EntryOk(w, s, k)
    ensures EntryOk(w, s', k)
  {
    hide OfEntry, Partial, Whole, Cut;
  }

  /** All entries but those in `changed` are apart. */
  lemma EntriesKept(w: World, s: State, s': State, changed: set<nat>)
    requires Entries(w, s)
    requires forall k | k in s.phase && k !in changed :: Apart(w, s, s', k)
    requires forall k | k in s'.phase && k in changed :: EntryOk(w, s', k)
    requires forall k | k in s'.phase :: k in s.phase || k in changed
    requires forall k: nat | k !in s'.phase :: OfEntry(s'.wire, k) == []
    requires forall k: nat | k < s'.next && k < |w.entries| && w.entries[k].regular :: k in s'.phase
    ensures Entries(w, s')
  {
    hide OfEntry, PhaseOk;
    forall k | k in s'.phase && k !in changed ensures EntryOk(w, s', k) {
      EntryKept(w, s, s', k);
    }
  }

  /** A packet without data concerns no entry. */
  lemma OtherPacket(wire: seq<Sent>, p: Sent)
    requires !p.Data?
    ensures forall k: nat :: OfEntry(wire + [p], k) == OfEntry(wire, k)
  {
    forall k: nat ensures OfEntry(wire + [p], k) == OfEntry(wire, k) {
      OfEntrySnoc(wire, p, k);
    }
  }

  // ---- the walker ----

  /** Ids repeat only after the whole id space. */
  lemma SameId(k: nat, n: nat)
    requires k < n && IdOf(k) == IdOf(n)
    ensures k + ID_SPACE <= n
  {
    assert k == ID_SPACE * (k / ID_SPACE) + IdOf(k) && n == ID_SPACE * (n / ID_SPACE) + IdOf(n);
  }

  lemma InsertShape(w: World, s: State, s': State)
    requires Shape(s) && WalkStep(w, s, s', Insert) && w.entries[s.next].regular && s.next !in s.phase
    ensures Shape(s')
  {
  }

  lemma InsertEntries(w: World, s: State, s': State)
    requires Inv(w, s) && WalkStep(w, s, s', Insert) && w.entries[s.next].regular && s.next !in s.phase
    ensures Entries(w, s')
  {
    hide OfEntry, Partial, Whole, Cut, QueueOk, WorkersOk;
    var n, id := s.next, IdOf(s.next);
    var changed: set<nat> := if id in s.files then {n, s.files[id]} else {n};
    forall k | k in s.phase && k !in changed ensures Apart(w, s, s', k) {
      assert EntryOk(w, s, k);
    }
    if id in s.files {
      assert EntryOk(w, s, s.files[id]);
      SameId(s.files[id], n);
    }
    EntriesKept(w, s, s', changed);
  }

  lemma NextIsNew(w: World, s: State)
    requires Entries(w, s)
    ensures s.next !in s.phase
  {
    hide PhaseOk, OfEntry;
    assert s.next in s.phase ==> EntryOk(w, s, s.next);
  }

  lemma WalkKeeps(w: World, s: State, s': State, e: Step)
    requires Inv(w, s) && WalkStep(w, s, s', e)
    ensures Inv(w, s')
  {
    hide OfEntry, PhaseOk;
    if e.Insert? && w.entries[s.next].regular {
      NextIsNew(w, s);
      InsertShape(w, s, s');
      InsertEntries(w, s, s');
    } else {
      if s'.wire != s.wire {
        OtherPacket(s.wire, s'.wire[|s.wire|]);
      }
      EntriesKept(w, s, s', {});
    }
  }

  // ---- the receive loop ----

  ghost predicate Found(w: World, s: State, e: Step) {
    e.Request? && e.id in s.files && s.files[e.id] < |w.entries|
  }

  lemma HandOverShape(w: World, s: State, s': State, e: Step)
    requires Shape(s) && LoopStep(w, s, s', e) && (e.Push? || Found(w, s, e))
    ensures Shape(s')
  {
  }

  lemma HandOverEntries(w: World, s: State, s': State, e: Step)
    requires Inv(w, s) && LoopStep(w, s, s', e) && (e.Push? || Found(w, s, e))
    ensures Entries(w, s')
  {
    hide OfEntry, Partial, Whole, Cut, WorkersOk;
    var n := if e.Push? then s.loop.handle.entry else s.files[e.id];
    assert EntryOk(w, s, n);
    forall k | k in s.phase && k != n ensures Apart(w, s, s', k) {
      assert EntryOk(w, s, k);
    }
    EntriesKept(w, s, s', {n});
  }

  lemma LoopKeeps(w: World, s: State, s': State, e: Step)
    requires Inv(w, s) && LoopStep(w, s, s', e)
    ensures Inv(w, s')
  {
    hide OfEntry, PhaseOk;
    if e.Push? || Found(w, s, e) {
      HandOverShape(w, s, s', e);
      HandOverEntries(w, s, s', e);
    } else {
      if s'.wire != s.wire {
        OtherPacket(s.wire, Fin);
      }
      LoopClosed(w, s, s');
    }
  }

  lemma LoopClosed(w: World, s: State, s': State)
    requires Inv(w, s) && s.loop.Listening? && s' == s.(loop := Closed, wire := s'.wire)
    requires forall k: nat :: OfEntry(s'.wire, k) == OfEntry(s.wire, k)
    ensures Inv(w, s')
  {
    hide OfEntry, Partial, Whole, Cut;
    forall k | k in s.phase ensures Apart(w, s, s', k) {
      assert EntryOk(w, s, k);
    }
    EntriesKept(w, s, s', {});
  }

  // ---- the workers ----

  /** Worker `i` is busy with entry `n`, or becomes so; everything else is apart. */
  lemma OthersApart(w: World, s: State, s': State, i: nat, n: nat)
    requires Inv(w, s) && i < |s.workers| && n in s.phase
    requires !s.workers[i].Exited? && (Busy(s.workers[i]) ==> s.workers[i].handle.entry == n)
    requires |s'.workers| > i && n in s'.phase
    requires s' == s.(workers := s.workers[i := s'.workers[i]], phase := s.phase[n := s'.phase[n]], wire := s'.wire,
        pipe := s'.pipe)
    requires forall h | h in s.pipe && h.entry != n :: h in s'.pipe
    requires forall k: nat | k != n :: OfEntry(s'.wire, k) == OfEntry(s.wire, k)
    requires EntryOk(w, s', n)
    ensures Entries(w, s')
  {
    hide OfEntry, Partial, Whole, Cut;
    forall k | k in s.phase && k != n ensures Apart(w, s, s', k) {
      assert EntryOk(w, s, k);
    }
    EntriesKept(w, s, s', {n});
  }

  lemma TakeEntries(w: World, s: State, s': State, i: nat)
    requires Inv(w, s) && WorkerStep(w, s, s', Take(i))
    ensures Entries(w, s')
  {
    hide OfEntry, Partial, Whole, Cut, TableOk;
    var n := s.pipe[0].entry;
    assert EntryOk(w, s, n);
    assert HandleOf(w, n) == s.pipe[0];
    assert forall h | h in s.pipe && h.entry != n :: h in s.pipe[1..];
    OthersApart(w, s, s', i, n);
  }

  lemma ServeEntries(w: World, s: State, s': State, e: Step)
    requires Inv(w, s) && WorkerStep(w, s, s', e) && Serves(e)
    ensures Entries(w, s')
  {
    hide OfEntry, PhaseOk, TableOk, QueueOk;
    var i := e.worker;
    var n := s.workers[i].handle.entry;
    assert EntryOk(w, s, n);
    ServedOk(w, s, s', e);
    ServedApart(w, s, s', e);
    OthersApart(w, s, s', i, n);
  }

  ghost predicate Serves(e: Step) { e.Open? || e.Chunk? || e.Terminate? || e.Fail? }

  lemma WorkerShape(w: World, s: State, s': State, e: Step)
    requires Shape(s) && WorkerStep(w, s, s', e)
    ensures Shape(s')
  {
  }

  /** Serving concerns one entry only. */
  lemma ServedApart(w: World, s: State, s': State, e: Step)
    requires WorkerStep(w, s, s', e) && Serves(e)
    ensures forall k: nat | k != s.workers[e.worker].handle.entry :: OfEntry(s'.wire, k) == OfEntry(s.wire, k)
  {
    hide OfEntry;
    if s'.wire != s.wire {
      var p := s'.wire[|s.wire|];
      assert s'.wire == s.wire + [p] && p.Data? && p.entry == s.workers[e.worker].handle.entry;
      forall k: nat | k != p.entry ensures OfEntry(s'.wire, k) == OfEntry(s.wire, k) {
        OfEntrySnoc(s.wire, p, k);
      }
    }
  }

  /** The worker is busy with the entry of its handle. */
  ghost predicate Serving(w: World, s: State, i: nat) {
    && i < |s.workers| && Busy(s.workers[i])
    && s.workers[i].handle.entry in s.phase && s.phase[s.workers[i].handle.entry] == Working(i)
    && EntryOk(w, s, s.workers[i].handle.entry)
  }

  lemma ChunkOk(w: World, s: State, s': State, i: nat, size: nat)
    requires WorkerStep(w, s, s', Chunk(i, size)) && Serving(w, s, i)
    ensures EntryOk(w, s', s.workers[i].handle.entry)
  {
    hide OfEntry, Partial, Whole, Cut;
    var Copying(h, data, pos) := s.workers[i];
    OfEntrySnoc(s.wire, Data(h.id, data[pos..pos + size], i, h.entry), h.entry);
    PartialGrows(OfEntry(s.wire, h.entry), h.id, i, data, pos, size, h.entry);
  }

  lemma TerminateOk(w: World, s: State, s': State, i: nat)
    requires WorkerStep(w, s, s', Terminate(i)) && Serving(w, s, i)
    ensures EntryOk(w, s', s.workers[i].handle.entry)
  {
    hide OfEntry, Partial, Whole, Cut;
    var Copying(h, data, pos) := s.workers[i];
    OfEntrySnoc(s.wire, Data(h.id, [], i, h.entry), h.entry);
    PartialEnds(OfEntry(s.wire, h.entry), h.id, i, data, h.entry);
  }

  lemma OpenOk(w: World, s: State, s': State, i: nat)
    requires WorkerStep(w, s, s', Open(i)) && Serving(w, s, i)
    ensures EntryOk(w, s', s.workers[i].handle.entry)
  {
    hide OfEntry, Whole, Cut;
  }

  lemma FailOk(w: World, s: State, s': State, i: nat)
    requires WorkerStep(w, s, s', Fail(i)) && Serving(w, s, i)
    ensures EntryOk(w, s', s.workers[i].handle.entry)
  {
    hide OfEntry, Partial, Whole;
  }

  /** Serving keeps the entry served. */
  lemma ServedOk(w: World, s: State, s': State, e: Step)
    requires WorkerStep(w, s, s', e) && Serves(e) && Serving(w, s, e.worker)
    ensures s.workers[e.worker].handle.entry in s'.phase && EntryOk(w, s', s.workers[e.worker].handle.entry)
  {
    match e
    case Open(i) => OpenOk(w, s, s', i);
    case Chunk(i, size) => ChunkOk(w, s, s', i, size);
    case Terminate(i) => TerminateOk(w, s, s', i);
    case Fail(i) => FailOk(w, s, s', i);
  }

  lemma ExitEntries(w: World, s: State, s': State, i: nat)
    requires Inv(w, s) && WorkerStep(w, s, s', Exit(i))
    ensures Entries(w, s')
  {
    hide OfEntry, Partial, Whole, Cut, TableOk, QueueOk;
    forall k | k in s.phase ensures Apart(w, s, s', k) {
      assert EntryOk(w, s, k);
    }
    EntriesKept(w, s, s', {});
  }

  lemma NextKeeps(w: World, s: State, s': State, e: Step)
    requires Inv(w, s) && Next(w, s, s', e)
    ensures Inv(w, s')
  {
    if WalkStep(w, s, s', e) {
      hide Entries, Shape;
      WalkKeeps(w, s, s', e);
    } else if LoopStep(w, s, s', e) {
      hide Entries, Shape;
      LoopKeeps(w, s, s', e);
    } else {
      hide Entries, Shape;
      WorkerShape(w, s, s', e);
      if e.Take? {
        TakeEntries(w, s, s', e.worker);
      } else if e.Exit? {
        ExitEntries(w, s, s', e.worker);
      } else {
        ServeEntries(w, s, s', e);
      }
    }
  }
}
