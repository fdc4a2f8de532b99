/** Theorems about every run of the file-transfer sender. */
module DiffCopyTheorems {
  import opened Basics
  import opened DiffCopy
  import opened DiffCopyProofs
  import opened TarPaths

  lemma {:induction false} RunKeeps(w: World, run: seq<State>, steps: seq<Step>, i: nat)
    requires IsRun(w, run, steps) && i < |run|
    ensures Inv(w, run[i])
  {
    hide Next;
    if i > 0 {
      hide Inv;
      RunKeeps(w, run, steps, i - 1);
      NextKeeps(w, run[i - 1], run[i], steps[i - 1]);
    }
  }

  // ---- the data packets of one entry ----

  /** `data` is what a file has to hold for the receiver: the generated Dockerfile and its ignore file at
      their places in the staging directory, and elsewhere, or without them, the walked file. */
  ghost predicate Holds(w: World, path: string, data: seq<byte>) {
    && (w.proxy.Some? && path == ".com.apple.container/Dockerfile" ==> data == w.proxy.value.dockerfile)
    && (w.proxy.Some? && path == ".com.apple.container/Dockerfile.dockerignore" ==>
          data == w.proxy.value.dockerignore)
    && (w.proxy == None || (path != ".com.apple.container/Dockerfile"
                            && path != ".com.apple.container/Dockerfile.dockerignore") ==>
          path in w.contents && data == w.contents[path])
  }

  lemma StagingPaths()
    ensures Join(DOCKERFILE) == ".com.apple.container/Dockerfile"
    ensures Join(DOCKERIGNORE) == ".com.apple.container/Dockerfile.dockerignore"
    ensures Join(DOCKERFILE) != Join(DOCKERIGNORE)
  {
    assert DOCKERFILE[1..] == ["Dockerfile"] && DOCKERIGNORE[1..] == ["Dockerfile.dockerignore"];
    assert |Join(DOCKERFILE)| != |Join(DOCKERIGNORE)|;
  }

  lemma HoldsIff(w: World, path: string, data: seq<byte>)
    ensures Holds(w, path, data) <==> Source(w, path) == Some(data)
  {
    StagingPaths();
    hide Join;
  }

  /** Nothing, a part of the content, or the whole of it and one empty packet: from a single
      worker, in order, without anything else in between; the id is the position of the entry in the walk,
      in 32 bits. */
  ghost predicate Proper(w: World, list: seq<Sent>, k: nat)
    requires k < |w.entries|
  {
    || list == []
    || exists worker, data ::
         Holds(w, w.entries[k].path, data) && ProperFrom(list, k % 0x1_0000_0000, worker, data)
  }

  lemma ProperSource(w: World, list: seq<Sent>, k: nat, worker: nat)
    requires k < |w.entries| && Source(w, w.entries[k].path).Some?
    requires ProperFrom(list, IdOf(k), worker, Source(w, w.entries[k].path).value)
    ensures Proper(w, list, k)
  {
    hide Source, Holds, ProperFrom;
    HoldsIff(w, w.entries[k].path, Source(w, w.entries[k].path).value);
  }

  ghost predicate ProperFrom(list: seq<Sent>, id: nat, worker: nat, data: seq<byte>) {
    Cut(list, id, worker, data) || Whole(list, id, worker, data)
  }

  lemma EntryIsProper(w: World, s: State, k: nat)
    requires Inv(w, s) && k < |w.entries|
    ensures Proper(w, OfEntry(s.wire, k), k)
    ensures OfEntry(s.wire, k) != [] ==> k in s.phase && w.entries[k].regular
  {
    hide OfEntry, Partial, Whole, Holds, Source;
    if k in s.phase {
      assert EntryOk(w, s, k);
      var list := OfEntry(s.wire, k);
      match s.phase[k]
      case Working(i) =>
        if s.workers[i].Copying? {
          assert ProperFrom(list, IdOf(k), i, s.workers[i].data);
          ProperSource(w, list, k, i);
        }
      case Finished(i) =>
        assert ProperFrom(list, IdOf(k), i, Source(w, w.entries[k].path).value);
        ProperSource(w, list, k, i);
      case Abandoned(i) =>
        if list != [] {
          assert ProperFrom(list, IdOf(k), i, Source(w, w.entries[k].path).value);
          ProperSource(w, list, k, i);
        }
      case _ =>
    }
  }

  lemma EntryPacketsAreProper(w: World, run: seq<State>, steps: seq<Step>, i: nat, k: nat)
    requires IsRun(w, run, steps) && i < |run| && k < |w.entries|
    ensures Proper(w, OfEntry(run[i].wire, k), k)
  {
    hide IsRun, Inv, Proper;
    RunKeeps(w, run, steps, i);
    EntryIsProper(w, run[i], k);
  }

  // ---- the data packets of one id ----

  /** What the receiver sees: data packets by id. */
  function OfId(wire: seq<Sent>, id: nat): seq<Sent> {
    if wire == [] then []
    else
      var p := wire[|wire| - 1];
      OfId(wire[..|wire| - 1], id) + if p.Data? && p.id == id then [p] else []
  }

  ghost predicate IdProper(w: World, wire: seq<Sent>, id: nat) {
    OfId(wire, id) == [] || exists k: nat ::
          k < |w.entries| && w.entries[k].regular && k % 0x1_0000_0000 == id && Proper(w, OfId(wire, id), k)
  }

  /** No two entries that can be served share an id. */
  ghost predicate NoReuse(w: World) {
    forall i: nat, j: nat | i < j < |w.entries| && Servable(w, i) && Servable(w, j) ::
      i % 0x1_0000_0000 != j % 0x1_0000_0000
  }

  ghost predicate Servable(w: World, k: nat)
    requires k < |w.entries|
  {
    w.entries[k].regular && exists data :: Holds(w, w.entries[k].path, data)
  }

  lemma ServableIff(w: World, k: nat)
    requires k < |w.entries|
    ensures Servable(w, k) <==> w.entries[k].regular && Source(w, w.entries[k].path).Some?
  {
    hide Source, Holds;
    var path := w.entries[k].path;
    if Source(w, path).Some? {
      HoldsIff(w, path, Source(w, path).value);
    }
    if data :| Holds(w, path, data) {
      HoldsIff(w, path, data);
    }
  }

  lemma {:induction false} InOfEntry(wire: seq<Sent>, m: nat)
    requires m < |wire| && wire[m].Data?
    ensures wire[m] in OfEntry(wire, wire[m].entry)
  {
    if m < |wire| - 1 {
      InOfEntry(wire[..|wire| - 1], m);
    }
  }

  /** A data packet carries the id of the servable entry it was sent for. */
  lemma PacketOfEntry(w: World, s: State, m: nat)
    requires Inv(w, s) && m < |s.wire| && s.wire[m].Data?
    ensures s.wire[m].entry < |w.entries| && Servable(w, s.wire[m].entry) && s.wire[m].id == IdOf(s.wire[m].entry)
  {
    hide OfEntry, Joined;
    var p := s.wire[m];
    InOfEntry(s.wire, m);
    assert EntryOk(w, s, p.entry);
    EntryIsProper(w, s, p.entry);
    ProperIds(w, OfEntry(s.wire, p.entry), p.entry, p);
  }

  lemma ProperIds(w: World, list: seq<Sent>, k: nat, p: Sent)
    requires k < |w.entries| && Proper(w, list, k) && p in list
    ensures p.Data? && p.id == IdOf(k) && exists data :: Holds(w, w.entries[k].path, data)
  {
    hide Joined, Holds;
    var worker, data :| Holds(w, w.entries[k].path, data) && ProperFrom(list, k % 0x1_0000_0000, worker, data);
    var n :| 0 <= n < |list| && list[n] == p;
    assert n < |list| - 1 ==> list[..|list| - 1][n] == p;
  }

  lemma {:induction false} SameLists(wire: seq<Sent>, id: nat, k: nat)
    requires forall m | 0 <= m < |wire| && wire[m].Data? :: wire[m].id == id <==> wire[m].entry == k
    ensures OfId(wire, id) == OfEntry(wire, k)
  {
    if wire != [] {
      SameLists(wire[..|wire| - 1], id, k);
    }
  }

  lemma {:induction false} NoPackets(wire: seq<Sent>, id: nat)
    requires forall m | 0 <= m < |wire| && wire[m].Data? :: wire[m].id != id
    ensures OfId(wire, id) == []
  {
    if wire != [] {
      NoPackets(wire[..|wire| - 1], id);
    }
  }

  lemma IdsAreProper(w: World, s: State, id: nat)
    requires Inv(w, s) && NoReuse(w)
    ensures IdProper(w, s.wire, id)
  {
    hide Inv, OfEntry, OfId, Proper;
    if m :| 0 <= m < |s.wire| && s.wire[m].Data? && s.wire[m].id == id {
      var k := s.wire[m].entry;
      PacketOfEntry(w, s, m);
      forall j | 0 <= j < |s.wire| && s.wire[j].Data? ensures s.wire[j].id == id <==> s.wire[j].entry == k {
        PacketOfEntry(w, s, j);
      }
      SameLists(s.wire, id, k);
      EntryIsProper(w, s, k);
    } else {
      NoPackets(s.wire, id);
    }
  }

  // ---- reused ids break the transfer ----

  ghost predicate Reachable(w: World, s: State) {
    exists run, steps :: IsRun(w, run, steps) && run[|steps|] == s
  }

  lemma ReachNext(w: World, s: State, s': State, e: Step)
    requires Reachable(w, s) && Next(w, s, s', e)
    ensures Reachable(w, s')
  {
    hide Next;
    var run, steps :| IsRun(w, run, steps) && run[|steps|] == s;
    assert IsRun(w, run + [s'], steps + [e]);
  }

  /** Nothing is under way. */
  ghost predicate Quiet(s: State) {
    s.walker.Visiting? && s.loop.Listening? && s.pipe == [] && |s.workers| > 0 && s.workers[0].Idle?
  }

  lemma OfIdSnoc(wire: seq<Sent>, p: Sent, id: nat)
    ensures OfId(wire + [p], id) == OfId(wire, id) + if p.Data? && p.id == id then [p] else []
  {
    assert (wire + [p])[..|wire|] == wire;
  }

  lemma WalkOne(w: World, s: State, id: nat) returns (s': State)
    requires Reachable(w, s) && Quiet(s) && s.next < |w.entries|
    ensures Reachable(w, s') && Quiet(s') && s'.next == s.next + 1 && OfId(s'.wire, id) == OfId(s.wire, id)
    ensures w.entries[s.next].regular ==> IdOf(s.next) in s'.files && s'.files[IdOf(s.next)] == s.next
  {
    hide OfId, Reachable;
    var s1 := (if w.entries[s.next].regular then Inserted(s, s.next) else s).(next := s.next + 1, walker := Announcing);
    ReachNext(w, s, s1, Insert);
    s' := s1.(walker := Visiting, wire := s1.wire + [Stat(w.entries[s1.next - 1].path)]);
    ReachNext(w, s1, s', Announce);
    OfIdSnoc(s1.wire, Stat(w.entries[s1.next - 1].path), id);
  }

  lemma {:induction false} WalkPast(w: World, s: State, id: nat, k: nat) returns (s': State)
    requires Reachable(w, s) && Quiet(s) && s.next <= k < |w.entries| && w.entries[k].regular
    ensures Reachable(w, s') && Quiet(s') && s'.next == k + 1 && OfId(s'.wire, id) == OfId(s.wire, id)
    ensures IdOf(k) in s'.files && s'.files[IdOf(k)] == k
    decreases k - s.next
  {
    hide OfId, Reachable;
    s' := WalkOne(w, s, id);
    if s.next < k {
      s' := WalkPast(w, s', id, k);
    }
  }

  lemma StartServing(w: World, s: State, k: nat) returns (s': State)
    requires Reachable(w, s) && Quiet(s) && k < |w.entries| && IdOf(k) in s.files && s.files[IdOf(k)] == k
        && w.entries[k].regular && Source(w, w.entries[k].path).Some?
    ensures Reachable(w, s') && s'.walker.Visiting? && s'.loop.Listening? && s'.pipe == [] && |s'.workers| > 0
    ensures s'.workers[0] == Copying(HandleOf(w, k), Source(w, w.entries[k].path).value, 0)
    ensures s'.next == s.next && s'.wire == s.wire
  {
    hide Reachable;
    var h := HandleOf(w, k);
    var s1 := s.(files := s.files - {h.id}, loop := Pushing(h), phase := s.phase[k := Held]);
    ReachNext(w, s, s1, Request(h.id));
    var s2 := s1.(loop := Listening, pipe := [h], phase := s1.phase[k := Queued]);
    ReachNext(w, s1, s2, Push);
    var s3 := SetWorker(s2, 0, Opening(h)).(pipe := [], phase := s2.phase[k := Working(0)]);
    ReachNext(w, s2, s3, Take(0));
    s' := SetWorker(s3, 0, Copying(h, Source(w, h.path).value, 0));
    ReachNext(w, s3, s', Open(0));
  }

  lemma CopyOut(w: World, s: State, h: Handle, data: seq<byte>) returns (s': State)
    requires Reachable(w, s) && |s.workers| > 0 && s.workers[0] == Copying(h, data, 0)
    ensures Reachable(w, s') && s' == s.(workers := s.workers[0 := Copying(h, data, |data|)], wire := s'.wire)
    ensures OfId(s.wire, h.id) <= OfId(s'.wire, h.id)
  {
    hide OfId, Reachable;
    s' := s;
    if data != [] {
      var p := Data(h.id, data, 0, h.entry);
      assert data[0..|data|] == data;
      s' := SetWorker(s, 0, Copying(h, data, |data|)).(wire := s.wire + [p]);
      ReachNext(w, s, s', Chunk(0, |data|));
      OfIdSnoc(s.wire, p, h.id);
    }
  }

  /** A request for `k` served from start to end. */
  lemma ServeOne(w: World, s: State, k: nat) returns (s': State)
    requires Reachable(w, s) && Quiet(s) && k < |w.entries| && IdOf(k) in s.files && s.files[IdOf(k)] == k
        && w.entries[k].regular && Source(w, w.entries[k].path).Some?
    ensures Reachable(w, s') && Quiet(s') && s'.next == s.next
    ensures OfId(s.wire, IdOf(k)) < OfId(s'.wire, IdOf(k))
    ensures var list := OfId(s'.wire, IdOf(k)); list[|list| - 1] == Data(IdOf(k), [], 0, k)
  {
    hide OfId, Reachable;
    var h := HandleOf(w, k);
    var s1 := StartServing(w, s, k);
    var s2 := CopyOut(w, s1, h, Source(w, h.path).value);
    s' := SetWorker(s2, 0, Idle).(wire := s2.wire + [Data(h.id, [], 0, k)], phase := s2.phase[k := Finished(0)]);
    ReachNext(w, s2, s', Terminate(0));
    OfIdSnoc(s2.wire, Data(h.id, [], 0, k), h.id);
  }

  /** A list with two empty packets is not proper for any entry. */
  lemma TwoEndsNotProper(w: World, list: seq<Sent>, k: nat, m: nat)
    requires k < |w.entries| && m < |list| - 1 && list[m].Data? && list[m].data == []
    ensures !Proper(w, list, k)
  {
    hide Joined;
    assert list[..|list| - 1][m] == list[m];
  }

  lemma InitialReachable(w: World) returns (s: State)
    ensures Reachable(w, s) && Quiet(s) && s.next == 0
  {
    s := State(0, Visiting, map[], Listening, [], seq(WORKERS, i => Idle), [], map[]);
    var steps: seq<Step> := [];
    assert IsRun(w, [s], steps);
  }

  lemma ReuseBreaks(w: World, i: nat, j: nat)
    requires i < j < |w.entries| && Servable(w, i) && Servable(w, j) && IdOf(i) == IdOf(j)
    ensures exists s :: Reachable(w, s) && !IdProper(w, s.wire, IdOf(i))
  {
    hide OfId, Reachable, Proper;
    ServableIff(w, i);
    ServableIff(w, j);
    hide Servable, Source;
    var s0 := InitialReachable(w);
    var s1 := WalkPast(w, s0, IdOf(i), i);
    var s2 := ServeOne(w, s1, i);
    var s3 := WalkPast(w, s2, IdOf(j), j);
    var s4 := ServeOne(w, s3, j);
    var first, both := OfId(s2.wire, IdOf(i)), OfId(s4.wire, IdOf(i));
    assert both[|first| - 1] == first[|first| - 1];
    forall k: nat | k < |w.entries| ensures !Proper(w, both, k) {
      TwoEndsNotProper(w, both, k, |first| - 1);
    }
  }

  /** Every run gives every id proper packets exactly when no two servable entries share an id. */
  lemma IdsProperIff(w: World)
    ensures (forall s, id: nat | Reachable(w, s) :: IdProper(w, s.wire, id)) <==> NoReuse(w)
  {
    hide IdProper, Reachable;
    if NoReuse(w) {
      forall s, id: nat | Reachable(w, s) ensures IdProper(w, s.wire, id) {
        ReachableInv(w, s);
        IdsAreProper(w, s, id);
      }
    } else {
      var i: nat, j: nat :| i < j < |w.entries| && Servable(w, i) && Servable(w, j) && IdOf(i) == IdOf(j);
      ReuseBreaks(w, i, j);
    }
  }

  lemma ReachableInv(w: World, s: State)
    requires Reachable(w, s)
    ensures Inv(w, s)
  {
    hide Next, Inv;
    var run, steps :| IsRun(w, run, steps) && run[|steps|] == s;
    RunKeeps(w, run, steps, |steps|);
  }

  /** In particular, up to 2^32 entries are always safe. */
  lemma SmallWalksAreSafe(w: World)
    requires |w.entries| <= ID_SPACE
    ensures NoReuse(w)
  {
  }

  /** The last `width` decimal digits of a number. */
  function Digits(n: nat, width: nat): (name: string)
    ensures |name| == width && forall i | 0 <= i < width :: '0' <= name[i] <= '9'
  {
    if width == 0 then "" else Digits(n / 10, width - 1) + [('0' as int + n % 10) as char]
  }

  function Power(width: nat): nat { if width == 0 then 1 else 10 * Power(width - 1) }

  lemma {:induction false} DigitsDiffer(m: nat, n: nat, width: nat)
    requires m < n < Power(width)
    ensures Digits(m, width) != Digits(n, width)
  {
    var a, b := Digits(m / 10, width - 1), Digits(n / 10, width - 1);
    assert Digits(m, width)[..width - 1] == a && Digits(n, width)[..width - 1] == b;
    if m / 10 < n / 10 {
      DigitsDiffer(m / 10, n / 10, width - 1);
    } else {
      assert Digits(m, width)[width - 1] != Digits(n, width)[width - 1];
    }
  }

  lemma TenDigitsSuffice()
    ensures ID_SPACE < Power(10)
  {
    assert Power(5) == 100_000;
    assert Power(10) == 100_000 * Power(5);
  }

  /** As many files with ten-digit names, the first and the last with contents. */
  function Numbered(count: nat): (w: World)
    ensures |w.entries| == count
    ensures forall n | 0 <= n < count :: w.entries[n] == Entry(Digits(n, 10), true)
    ensures Digits(0, 10) in w.contents && Digits(ID_SPACE, 10) in w.contents && w.proxy == None
  {
    World(seq(count, n requires 0 <= n => Entry(Digits(n, 10), true)),
          map[Digits(0, 10) := [], Digits(ID_SPACE, 10) := []], None)
  }

  lemma NumberedNames(count: nat)
    requires count <= ID_SPACE + 1
    ensures var entries := Numbered(count).entries;
            forall i, j | 0 <= i < j < |entries| :: entries[i].path != entries[j].path
  {
    hide Digits, Numbered, Power;
    var entries := Numbered(count).entries;
    TenDigitsSuffice();
    forall i, j | 0 <= i < j < |entries| ensures entries[i].path != entries[j].path {
      DigitsDiffer(i, j, 10);
    }
  }

  /** One entry more, and the first file may be sent twice under one id: as many files with
      ten-digit names in one directory. */
  lemma LargeWalksAreNot() returns (w: World)
    ensures |w.entries| == ID_SPACE + 1 && !NoReuse(w)
    ensures forall i, j | 0 <= i < j < |w.entries| :: w.entries[i].path != w.entries[j].path
    ensures forall i | 0 <= i < |w.entries| :: IsName(w.entries[i].path) && |w.entries[i].path| == 10
  {
    hide Digits, Numbered;
    w := Numbered(ID_SPACE + 1);
    NumberedNames(ID_SPACE + 1);
    ServableIff(w, 0);
    ServableIff(w, ID_SPACE);
    hide Servable;
    assert Servable(w, 0) && Servable(w, ID_SPACE) && IdOf(0) == IdOf(ID_SPACE);
  }

  // ---- the table agrees with the wire ----

  /** The paths announced so far, in wire order. */
  function Announced(wire: seq<Sent>): seq<string> {
    if wire == [] then []
    else
      var p := wire[|wire| - 1];
      Announced(wire[..|wire| - 1]) + if p.Stat? then [p.path] else []
  }

  lemma AnnouncedSnoc(wire: seq<Sent>, p: Sent)
    ensures Announced(wire + [p]) == Announced(wire) + if p.Stat? then [p.path] else []
  {
    assert (wire + [p])[..|wire|] == wire;
  }

  ghost predicate StatsOk(w: World, s: State) {
    && s.next <= |w.entries|
    && var paths := Announced(s.wire);
    && |paths| <= s.next
    && (s.walker.Visiting? ==> |paths| == s.next)
    && (s.walker.Announcing? ==> |paths| == s.next - 1)
    && (LastStat in s.wire ==> s.walker.Quit? && |paths| == |w.entries|)
    && forall m | 0 <= m < |paths| :: paths[m] == w.entries[m].path
  }

  lemma StatsKept(w: World, s: State, s': State, e: Step)
    requires StatsOk(w, s) && Next(w, s, s', e)
    ensures StatsOk(w, s')
  {
    hide Announced;
    if s'.wire != s.wire {
      assert s'.wire == s.wire + [s'.wire[|s.wire|]];
      AnnouncedSnoc(s.wire, s'.wire[|s.wire|]);
    }
  }

  lemma {:induction false} RunStats(w: World, run: seq<State>, steps: seq<Step>, i: nat)
    requires IsRun(w, run, steps) && i < |run|
    ensures StatsOk(w, run[i])
  {
    hide Next;
    if i > 0 {
      hide StatsOk;
      RunStats(w, run, steps, i - 1);
      StatsKept(w, run[i - 1], run[i], steps[i - 1]);
    }
  }

  /** The announcements are the walk, in its order, as far as it has come, and the final empty one comes only
      after all of them. */
  lemma AnnouncedInOrder(w: World, run: seq<State>, steps: seq<Step>, i: nat)
    requires IsRun(w, run, steps) && i < |run|
    ensures var paths := Announced(run[i].wire);
            && |paths| <= |w.entries| && (LastStat in run[i].wire ==> |paths| == |w.entries|)
            && forall m | 0 <= m < |paths| :: paths[m] == w.entries[m].path
  {
    hide IsRun, Announced;
    RunStats(w, run, steps, i);
  }

  /** Some step before state `i` was this one. */
  ghost predicate Happened(steps: seq<Step>, i: nat, e: Step) {
    exists n :: 0 <= n < i && n < |steps| && steps[n] == e
  }

  lemma HappenedNext(steps: seq<Step>, i: nat, e: Step)
    requires i < |steps|
    ensures Happened(steps, i + 1, e) <==> Happened(steps, i, e) || steps[i] == e
  {
    if steps[i] == e {
      assert 0 <= i < i + 1 && steps[i] == e;
    }
    if Happened(steps, i, e) {
      var n :| 0 <= n < i && n < |steps| && steps[n] == e;
      assert 0 <= n < i + 1;
    }
  }

  /** The wire says how the transfer ended: the empty announcement when the walk came to its end, an error
      when it failed and could still say so, and FIN when the receiver was done. */
  lemma {:induction false} WireTellsTheEnd(w: World, run: seq<State>, steps: seq<Step>, i: nat)
    requires IsRun(w, run, steps) && i < |run|
    ensures LastStat in run[i].wire <==> Happened(steps, i, EndWalk)
    ensures Err in run[i].wire <==> Happened(steps, i, FailWalk(true))
    ensures Fin in run[i].wire <==> Happened(steps, i, Finish)
  {
    hide Next, Happened;
    if i == 0 {
      NothingHappened(steps);
    } else {
      WireTellsTheEnd(w, run, steps, i - 1);
      HappenedNext(steps, i - 1, EndWalk);
      HappenedNext(steps, i - 1, FailWalk(true));
      HappenedNext(steps, i - 1, Finish);
      WireGrows(w, run[i - 1], run[i], steps[i - 1]);
    }
  }

  lemma NothingHappened(steps: seq<Step>)
    ensures forall e :: !Happened(steps, 0, e)
  {
  }

  lemma WireGrows(w: World, s: State, s': State, e: Step)
    requires Next(w, s, s', e)
    ensures LastStat in s'.wire <==> LastStat in s.wire || e == EndWalk
    ensures Err in s'.wire <==> Err in s.wire || e == FailWalk(true)
    ensures Fin in s'.wire <==> Fin in s.wire || e == Finish
  {
  }

  /** A handle anywhere on its way, or being served, names an entry by the id and path of its own
      announcement; while the id space lasts the id is the entry's position. */
  ghost predicate HandleMatches(w: World, s: State, h: Handle) {
    && h.entry < |w.entries| && w.entries[h.entry].regular && h.id == h.entry % 0x1_0000_0000
    && h.path == w.entries[h.entry].path
    && (h.entry < |Announced(s.wire)| ==> Announced(s.wire)[h.entry] == h.path)
  }

  lemma RequestsResolve(w: World, run: seq<State>, steps: seq<Step>, i: nat)
    requires IsRun(w, run, steps) && i < |run|
    ensures run[i].loop.Pushing? ==> HandleMatches(w, run[i], run[i].loop.handle)
    ensures forall m | 0 <= m < |run[i].pipe| :: HandleMatches(w, run[i], run[i].pipe[m])
    ensures forall m | 0 <= m < |run[i].workers|
        && Busy(run[i].workers[m]) :: HandleMatches(w, run[i], run[i].workers[m].handle)
  {
    hide IsRun, Announced, OfEntry;
    RunKeeps(w, run, steps, i);
    RunStats(w, run, steps, i);
    var s := run[i];
    if s.loop.Pushing? {
      Matches(w, s, s.loop.handle);
    }
    forall m | 0 <= m < |s.pipe| ensures HandleMatches(w, s, s.pipe[m]) {
      Matches(w, s, s.pipe[m]);
    }
    forall m | 0 <= m < |s.workers| && Busy(s.workers[m]) ensures HandleMatches(w, s, s.workers[m].handle) {
      Matches(w, s, s.workers[m].handle);
    }
  }

  /** The handle is on its way to a worker, or with one. */
  ghost predicate Underway(s: State, h: Handle) {
    || s.loop == Pushing(h)
    || h in s.pipe
    || exists m :: 0 <= m < |s.workers| && Busy(s.workers[m]) && s.workers[m].handle == h
  }

  lemma UnderwayIsHandle(w: World, s: State, h: Handle)
    requires Inv(w, s) && Underway(s, h)
    ensures h.entry in s.phase && h.entry < |w.entries| && w.entries[h.entry].regular && h == HandleOf(w, h.entry)
  {
    hide Entries, TableOk, QueueOk, WorkersOk;
    assert h.entry in s.phase && (s.phase[h.entry] == Held || s.phase[h.entry] == Queued || s.phase[h.entry].Working?)
    by {
      UnderwayPhase(s, h);
    }
    HandleIsItsEntry(w, s, h);
  }

  lemma UnderwayPhase(s: State, h: Handle)
    requires Shape(s) && Underway(s, h)
    ensures h.entry in s.phase && (s.phase[h.entry] == Held || s.phase[h.entry] == Queued || s.phase[h.entry].Working?)
  {
  }

  lemma HandleIsItsEntry(w: World, s: State, h: Handle)
    requires Entries(w, s) && Shape(s) && Underway(s, h) && h.entry in s.phase
    ensures h.entry < |w.entries| && w.entries[h.entry].regular && h == HandleOf(w, h.entry)
  {
    hide OfEntry, Partial, Whole, Cut, TableOk;
    assert EntryOk(w, s, h.entry);
  }

  lemma Matches(w: World, s: State, h: Handle)
    requires Inv(w, s) && StatsOk(w, s) && Underway(s, h)
    ensures HandleMatches(w, s, h)
  {
    hide Announced, Inv, Underway;
    UnderwayIsHandle(w, s, h);
  }

  // ---- conservation ----

  ghost predicate InTable(s: State, k: nat) { IdOf(k) in s.files && s.files[IdOf(k)] == k }
  ghost predicate InHand(s: State, k: nat) { s.loop.Pushing? && s.loop.handle.entry == k }
  ghost predicate InQueue(s: State, k: nat, m: nat) { m < |s.pipe| && s.pipe[m].entry == k }
  ghost predicate AtWorker(s: State, k: nat, m: nat) {
    m < |s.workers| && Busy(s.workers[m]) && s.workers[m].handle.entry == k
  }
  ghost predicate Served(s: State, k: nat) {
    var sent := OfEntry(s.wire, k);
    sent != [] && sent[|sent| - 1].Data? && sent[|sent| - 1].data == []
  }

  /** Every regular entry whose announcement is visible is in exactly one place: waiting in the
      table, in the loop's hand, queued once, with one worker, or served; otherwise its worker has
      failed, or its id was reused. */
  lemma EntriesAreConserved(w: World, run: seq<State>, steps: seq<Step>, i: nat, k: nat)
    requires IsRun(w, run, steps) && i < |run| && k < |w.entries| && w.entries[k].regular
    requires k < run[i].next || k < |Announced(run[i].wire)|
    ensures k in run[i].phase
    ensures InTable(run[i], k) <==> run[i].phase[k] == Pending
    ensures InHand(run[i], k) <==> run[i].phase[k] == Held
    ensures (exists m :: InQueue(run[i], k, m)) <==> run[i].phase[k] == Queued
    ensures (exists m :: AtWorker(run[i], k, m)) <==> run[i].phase[k].Working?
    ensures Served(run[i], k) <==> run[i].phase[k].Finished?
    ensures run[i].phase[k].Abandoned? ==>
          run[i].phase[k].worker < |run[i].workers| && run[i].workers[run[i].phase[k].worker].Exited?
    ensures run[i].phase[k].Overwritten? ==> k + ID_SPACE < run[i].next
    ensures forall m, m' | InQueue(run[i], k, m) && InQueue(run[i], k, m') :: m == m'
    ensures forall m, m' | AtWorker(run[i], k, m) && AtWorker(run[i], k, m') :: m == m'
  {
    hide IsRun;
    RunKeeps(w, run, steps, i);
    RunStats(w, run, steps, i);
    Conserved(w, run[i], k);
    ServedIff(w, run[i], k);
  }

  lemma Conserved(w: World, s: State, k: nat)
    requires Inv(w, s) && k in s.phase
    ensures InTable(s, k) <==> s.phase[k] == Pending
    ensures InHand(s, k) <==> s.phase[k] == Held
    ensures (exists m :: InQueue(s, k, m)) <==> s.phase[k] == Queued
    ensures (exists m :: AtWorker(s, k, m)) <==> s.phase[k].Working?
    ensures s.phase[k].Abandoned? ==> s.phase[k].worker < |s.workers| && s.workers[s.phase[k].worker].Exited?
    ensures s.phase[k].Overwritten? ==> k + ID_SPACE < s.next
  {
    hide OfEntry, Partial, Whole, Cut;
    assert EntryOk(w, s, k);
    assert s.phase[k].Working? ==> AtWorker(s, k, s.phase[k].worker);
    if s.phase[k] == Queued {
      var m :| 0 <= m < |s.pipe| && s.pipe[m] == HandleOf(w, k);
      assert InQueue(s, k, m);
    }
  }

  lemma ServedIff(w: World, s: State, k: nat)
    requires Inv(w, s) && k in s.phase
    ensures Served(s, k) <==> s.phase[k].Finished?
  {
    hide OfEntry, Joined;
    assert EntryOk(w, s, k);
  }
}
