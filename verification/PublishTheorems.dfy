/** Theorems about every run of the context cache, from any leftovers of earlier runs. */
module PublishTheorems {
  import opened Basics
  import opened Publish
  import opened PublishProofs
  import opened TarPaths
  import opened UnpackTree

  /** No receiver is active; incomplete entries and abandoned temporary directories may be left over. */
  ghost predicate Initial(w: World, s: State) {
    && s.procs == map[] && s.locks == map[]
    && forall name | ValidDigest(name) && Complete(s, name) :: Genuine(w, name, s.dirs[name].tree)
  }

  ghost predicate IsRun(w: World, run: seq<State>, steps: seq<(nat, Step)>) {
    && |run| == |steps| + 1
    && Initial(w, run[0])
    && forall i | 0 <= i < |steps| :: Next(w, run[i], run[i + 1], steps[i].0, steps[i].1)
  }

  lemma {:induction false} RunKeeps(w: World, run: seq<State>, steps: seq<(nat, Step)>, i: nat)
    requires IsRun(w, run, steps) && i < |run|
    ensures Inv(w, run[i])
  {
    hide Next;
    if i > 0 {
      hide Inv;
      RunKeeps(w, run, steps, i - 1);
      NextKeeps(w, run[i - 1], run[i], steps[i - 1].0, steps[i - 1].1);
    }
  }

  /** What a checker finds complete was unpacked, whole, from an archive with that digest. */
  lemma CompleteEntriesAreGenuine(w: World, run: seq<State>, steps: seq<(nat, Step)>, i: nat, name: string)
    requires IsRun(w, run, steps) && i < |run| && ValidDigest(name) && Complete(run[i], name)
    ensures Genuine(w, name, run[i].dirs[name].tree)
  {
    hide IsRun, ProcOk, Genuine, TempsDistinct, LocksOk;
    RunKeeps(w, run, steps, i);
    assert DirOk(w, run[i], name);
  }

  /** Once complete, an entry is never changed, replaced or removed, whatever fails or crashes. */
  lemma {:induction false} CompleteEntriesNeverChange(w: World, run: seq<State>, steps: seq<(nat, Step)>,
                                                      i: nat, j: nat, name: string)
    requires IsRun(w, run, steps) && i <= j < |run| && ValidDigest(name) && Complete(run[i], name)
    ensures name in run[j].dirs && run[j].dirs[name] == run[i].dirs[name]
    decreases j - i
  {
    hide Inv, Next;
    if i < j {
      CompleteEntriesNeverChange(w, run, steps, i, j - 1, name);
      RunKeeps(w, run, steps, j - 1);
      NextKeeps(w, run[j - 1], run[j], steps[j - 1].0, steps[j - 1].1);
      assert SameDir(run[j - 1], run[j], name);
    }
  }

  /** Two receivers never work on the same digest at once. */
  lemma OnePublisherPerDigest(w: World, run: seq<State>, steps: seq<(nat, Step)>, i: nat, p: nat, q: nat)
    requires IsRun(w, run, steps) && i < |run| && p in run[i].procs && q in run[i].procs
    requires Locked(run[i].procs[p].pc) && Locked(run[i].procs[q].pc)
    requires run[i].procs[p].digest == run[i].procs[q].digest
    ensures p == q
  {
    hide IsRun, PcOk, DirOk;
    RunKeeps(w, run, steps, i);
    assert ProcOk(w, run[i], p) && ProcOk(w, run[i], q);
  }

  /** A walk, started after a check with or without the lock, only ever sees a complete entry. */
  lemma WalksSeeCompleteEntries(w: World, run: seq<State>, steps: seq<(nat, Step)>, i: nat, p: nat)
    requires IsRun(w, run, steps) && i < |run| && p in run[i].procs
    ensures run[i].procs[p].pc.Walking? ==> VisitedOk(run[i], run[i].procs[p].digest, run[i].procs[p].pc.visited)
    ensures run[i].procs[p].pc == Receiving(true) ==> Complete(run[i], run[i].procs[p].digest)
  {
    hide IsRun, DirOk;
    RunKeeps(w, run, steps, i);
    assert ProcOk(w, run[i], p);
  }

  lemma WalkedTree(w: World, run: seq<State>, steps: seq<(nat, Step)>, i: nat, p: nat)
    requires IsRun(w, run, steps) && i < |run| && p in run[i].procs && run[i].procs[p].pc.Walked?
    ensures ValidDigest(run[i].procs[p].digest) && Complete(run[i], run[i].procs[p].digest)
    ensures run[i].procs[p].pc.visited == run[i].dirs[run[i].procs[p].digest].tree - {MARKER}
  {
    hide IsRun, DirOk;
    RunKeeps(w, run, steps, i);
    assert ProcOk(w, run[i], p);
  }

  /** A finished walk reported exactly the tree of an archive with the requested digest. */
  lemma WalksReportTheArchive(w: World, run: seq<State>, steps: seq<(nat, Step)>, i: nat, p: nat)
    requires IsRun(w, run, steps) && i < |run| && p in run[i].procs && run[i].procs[p].pc.Walked?
    ensures exists archive :: UnpacksTo(w, archive, run[i].procs[p].digest, run[i].procs[p].pc.visited)
    ensures MARKER !in run[i].procs[p].pc.visited && TreeOk(run[i].procs[p].pc.visited)
  {
    hide IsRun, TreeOk;
    var digest := run[i].procs[p].digest;
    WalkedTree(w, run, steps, i, p);
    CompleteEntriesAreGenuine(w, run, steps, i, digest);
    var archive :| UnpacksTo(w, archive, digest, run[i].procs[p].pc.visited);
    EmptyTreeOk();
    ApplyAllKeeps(map[], w.parse(archive));
  }

  lemma EmptyTreeOk()
    ensures TreeOk(map[])
  {
  }

  /** Without collisions, the walk reports the archive the host holds, whoever unpacked it. */
  lemma WalksReportTheHostsArchive(w: World, run: seq<State>, steps: seq<(nat, Step)>, i: nat, p: nat,
      archive: seq<byte>)
    requires IsRun(w, run, steps) && i < |run| && p in run[i].procs && run[i].procs[p].pc.Walked?
    requires w.hash(archive) == run[i].procs[p].digest
    requires forall other | w.hash(other) == w.hash(archive) :: other == archive
    ensures ApplyAll(map[], w.parse(archive)) == Some(run[i].procs[p].pc.visited)
        && MARKER !in run[i].procs[p].pc.visited
  {
    hide IsRun;
    WalksReportTheArchive(w, run, steps, i, p);
  }

  /** All finished walks of one digest agree, at any two moments of a run and whatever the hash. */
  lemma WalksAgree(w: World, run: seq<State>, steps: seq<(nat, Step)>, i: nat, p: nat, j: nat, q: nat)
    requires IsRun(w, run, steps) && i <= j < |run|
    requires p in run[i].procs && run[i].procs[p].pc.Walked?
    requires q in run[j].procs && run[j].procs[q].pc.Walked?
    requires run[i].procs[p].digest == run[j].procs[q].digest
    ensures run[i].procs[p].pc.visited == run[j].procs[q].pc.visited
  {
    hide IsRun;
    WalkedTree(w, run, steps, i, p);
    WalkedTree(w, run, steps, j, q);
    CompleteEntriesNeverChange(w, run, steps, i, j, run[i].procs[p].digest);
  }
}
