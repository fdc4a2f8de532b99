/** When a receiver can finish, whatever others left behind or crashed on: exactly when what lies under
    its digest can be read and its archive unpacks without an entry below the completion marker. */
module PublishProgress {
  import opened Basics
  import opened Publish
  import opened PublishProofs
  import PublishTheorems
  import opened TarPaths
  import opened UnpackTree

  // ---- steps of one receiver ----

  ghost predicate IsPath(w: World, path: seq<State>, steps: seq<Step>, p: nat) {
    && |path| == |steps| + 1
    && forall i | 0 <= i < |steps| :: Next(w, path[i], path[i + 1], p, steps[i])
  }

  /** Receiver `p` alone can lead from `s` to `s'`. */
  ghost predicate Leads(w: World, s: State, s': State, p: nat) {
    exists path, steps :: IsPath(w, path, steps, p) && path[0] == s && path[|steps|] == s'
  }

  lemma LeadsSelf(w: World, s: State, p: nat)
    ensures Leads(w, s, s, p)
  {
    var steps: seq<Step> := [];
    assert IsPath(w, [s], steps, p);
  }

  lemma LeadsOn(w: World, s: State, s1: State, s2: State, p: nat, e: Step)
    requires Leads(w, s, s1, p) && Next(w, s1, s2, p, e)
    ensures Leads(w, s, s2, p)
  {
    hide Next;
    var path, steps :| IsPath(w, path, steps, p) && path[0] == s && path[|steps|] == s1;
    assert IsPath(w, path + [s2], steps + [e], p);
  }

  // ---- the locked check ----

  ghost predicate At(s: State, p: nat, digest: string, pc: Pc) { p in s.procs && s.procs[p] == Proc(digest, pc) }

  /** What the check can read: a directory, if anything, with a regular marker, if any. */
  ghost predicate Readable(s: State, name: string) {
    (name in s.dirs ==> s.dirs[name].Directory?) && MarkerRegular(s, name)
  }

  lemma CheckOnce(w: World, s: State, s1: State, p: nat, digest: string, archive: seq<byte>, phase: nat, v: Verdict)
    requires Leads(w, s, s1, p) && At(s1, p, digest, Checking(archive, phase)) && CheckStep(s1, digest, phase, v)
    ensures Leads(w, s, To(s1, p, AfterLocked(archive, phase, v)), p)
  {
    hide Leads;
    LeadsOn(w, s, s1, To(s1, p, AfterLocked(archive, phase, v)), p, CheckLocked);
  }

  /** The check ends with the right answer. */
  lemma CheckEnds(w: World, s: State, s1: State, p: nat, digest: string, archive: seq<byte>) returns (s2: State)
    requires Leads(w, s, s1, p) && At(s1, p, digest, Checking(archive, 0)) && Readable(s1, digest)
    ensures Leads(w, s, s2, p) && s2.dirs == s1.dirs && s2.locks == s1.locks
    ensures At(s2, p, digest, if Complete(s1, digest) then Unlocking(true) else Removing(archive))
  {
    hide Leads, LockStep, DirStep;
    if digest !in s1.dirs {
      s2 := To(s1, p, Removing(archive));
      CheckOnce(w, s, s1, p, digest, archive, 0, NotCached);
    } else {
      var a := To(s1, p, Checking(archive, 1));
      CheckOnce(w, s, s1, p, digest, archive, 0, NextPhase);
      if MARKER !in s1.dirs[digest].tree {
        s2 := To(a, p, Removing(archive));
        CheckOnce(w, s, a, p, digest, archive, 1, NotCached);
      } else {
        var b := To(a, p, Checking(archive, 2));
        CheckOnce(w, s, a, p, digest, archive, 1, NextPhase);
        var v := if s1.dirs[digest].tree[MARKER].content == COMPLETE then Cached else NotCached;
        s2 := To(b, p, AfterLocked(archive, 2, v));
        CheckOnce(w, s, b, p, digest, archive, 2, v);
      }
    }
  }

  // ---- publishing ----

  function Temp(n: nat): (name: string)
    ensures TempName(name) && |name| == 9 + n
  {
    ".context-" + seq(n, _ => '0')
  }

  /** There is always an unused temporary name. */
  lemma {:induction false} UnusedTemp(names: set<string>, n: nat) returns (m: nat)
    ensures m >= n && Temp(m) !in names
    decreases |names|
  {
    m := n;
    if Temp(n) in names {
      m := UnusedTemp(names - {Temp(n)}, n + 1);
    }
  }

  /** Unpacking goes through when the whole archive unpacks. */
  lemma {:induction false} UnpackEnds(w: World, s: State, s1: State, p: nat, digest: string, archive: seq<byte>,
                                      temp: string, done: nat, tree: Tree) returns (s2: State)
    requires Leads(w, s, s1, p) && At(s1, p, digest, Unpacking(archive, temp, done)) && done <= |w.parse(archive)|
    requires temp in s1.dirs && s1.dirs[temp].Directory?
        && ApplyAll(map[], w.parse(archive)[..done]) == Some(s1.dirs[temp].tree)
    requires ApplyAll(map[], w.parse(archive)) == Some(tree)
    ensures Leads(w, s, s2, p) && At(s2, p, digest, Unpacking(archive, temp, |w.parse(archive)|))
    ensures s2.dirs == s1.dirs[temp := Directory(tree)] && s2.locks == s1.locks
    decreases |w.parse(archive)| - done
  {
    hide Leads, ApplyEntry, ApplyAll, LockStep;
    var entries := w.parse(archive);
    if done == |entries| {
      assert entries[..done] == entries;
      s2 := s1;
      assert s1.dirs == s1.dirs[temp := Directory(tree)];
    } else {
      ApplyAllSnoc(map[], entries, done);
      PrefixUnpacks(entries, done + 1);
      var t := ApplyEntry(s1.dirs[temp].tree, entries[done]).value;
      s2 := To(s1, p, Unpacking(archive, temp, done + 1)).(dirs := s1.dirs[temp := Directory(t)]);
      LeadsOn(w, s, s1, s2, p, UnpackNext);
      s2 := UnpackEnds(w, s, s2, p, digest, archive, temp, done + 1, tree);
    }
  }

  lemma {:induction false} PrefixUnpacks(entries: seq<Entry>, n: nat)
    requires n <= |entries| && ApplyAll(map[], entries).Some?
    ensures ApplyAll(map[], entries[..n]).Some?
    decreases |entries|
  {
    hide ApplyEntry;
    if n < |entries| {
      PrefixUnpacks(entries[..|entries| - 1], n);
      assert entries[..|entries| - 1][..n] == entries[..n];
    } else {
      assert entries[..n] == entries;
    }
  }

  /** From removing the leftovers to the rename. */
  lemma PublishEnds(w: World, s: State, s1: State, p: nat, digest: string, archive: seq<byte>, tree: Tree)
      returns (s2: State)
    requires Leads(w, s, s1, p) && At(s1, p, digest, Removing(archive)) && ValidDigest(digest)
    requires ApplyAll(map[], w.parse(archive)) == Some(tree) && MARKER !in tree
    ensures Leads(w, s, s2, p) && At(s2, p, digest, Unlocking(true)) && s2.locks == s1.locks
    ensures digest in s2.dirs && s2.dirs[digest] == Directory(tree[MARKER := MARKER_NODE])
  {
    hide Leads, ApplyAll, ApplyEntry, LockStep, ValidDigest;
    var a := To(s1, p, Making(archive)).(dirs := s1.dirs - {digest});
    LeadsOn(w, s, s1, a, p, RemoveDone);
    var n := UnusedTemp(a.dirs.Keys, 0);
    var temp := Temp(n);
    DigestsArePlainNames(digest);
    var b := To(a, p, Unpacking(archive, temp, 0)).(dirs := a.dirs[temp := Directory(map[])]);
    LeadsOn(w, s, a, b, p, MakeTemp(temp));
    assert ApplyAll(map[], w.parse(archive)[..0]) == Some(map[]) by { NothingUnpacked(w.parse(archive)); }
    var c := UnpackEnds(w, s, b, p, digest, archive, temp, 0, tree);
    s2 := MarkAndRename(w, s, c, p, digest, archive, temp, tree);
  }

  lemma NothingUnpacked(entries: seq<Entry>)
    ensures ApplyAll(map[], entries[..0]) == Some(map[])
  {
    assert entries[..0] == [];
  }

  lemma MarkAndRename(w: World, s: State, c: State, p: nat, digest: string, archive: seq<byte>, temp: string,
      tree: Tree)
    returns (s2: State)
    requires Leads(w, s, c, p) && At(c, p, digest, Unpacking(archive, temp, |w.parse(archive)|))
    requires temp in c.dirs && c.dirs[temp] == Directory(tree) && MARKER !in tree && digest !in c.dirs && temp != digest
    ensures Leads(w, s, s2, p) && At(s2, p, digest, Unlocking(true)) && s2.locks == c.locks
    ensures digest in s2.dirs && s2.dirs[digest] == Directory(tree[MARKER := MARKER_NODE])
  {
    hide Leads, LockStep;
    var e := To(c, p, Marking(archive, temp));
    LeadsOn(w, s, c, e, p, UnpackDone);
    var f := To(e, p, Renaming(archive, temp)).(dirs := e.dirs[temp := Directory(tree[MARKER := MARKER_NODE])]);
    LeadsOn(w, s, e, f, p, Mark);
    s2 := To(f, p, Unlocking(true)).(dirs := (f.dirs - {temp})[digest := f.dirs[temp]]);
    LeadsOn(w, s, f, s2, p, Rename);
  }

  // ---- walking ----

  /** A walk can be carried through. */
  lemma {:induction false} WalkEnds(w: World, s: State, s1: State, p: nat, digest: string, visited: Tree)
      returns (s2: State)
    requires Leads(w, s, s1, p) && At(s1, p, digest, Walking(visited)) && digest in s1.dirs
        && s1.dirs[digest].Directory?
    ensures Leads(w, s, s2, p) && p in s2.procs && s2.procs[p].digest == digest && s2.procs[p].pc.Walked?
    decreases s1.dirs[digest].tree.Keys - visited.Keys
  {
    hide Leads, LockStep;
    var tree := s1.dirs[digest].tree;
    if path :| path in tree && path != MARKER && path !in visited {
      s2 := To(s1, p, Walking(visited[path := tree[path]]));
      LeadsOn(w, s, s1, s2, p, Visit(path));
      assert tree.Keys - visited[path := tree[path]].Keys == (tree.Keys - visited.Keys) - {path};
      s2 := WalkEnds(w, s, s2, p, digest, visited[path := tree[path]]);
    } else {
      s2 := To(s1, p, Walked(visited));
      LeadsOn(w, s, s1, s2, p, WalkDone);
    }
  }

  lemma UnlockAndWalk(w: World, s: State, s1: State, p: nat, digest: string) returns (s2: State)
    requires Leads(w, s, s1, p) && At(s1, p, digest, Unlocking(true)) && digest in s1.dirs && s1.dirs[digest].Directory?
    ensures Leads(w, s, s2, p) && p in s2.procs && s2.procs[p].digest == digest && s2.procs[p].pc.Walked?
  {
    hide Leads, DirStep;
    var a := To(s1, p, Walking(map[])).(locks := s1.locks - {digest});
    LeadsOn(w, s, s1, a, p, Unlock);
    s2 := WalkEnds(w, s, a, p, digest, map[]);
  }

  // ---- archives that touch the marker ----

  /** The entry makes a directory of the completion marker. */
  predicate BelowMarker(e: Entry) {
    && TarTarget(e.name).Some?
    && |TarTarget(e.name).value| > 1 && TarTarget(e.name).value[0] == COMPLETION_MARKER
  }

  lemma ParentsMarker(t: Tree, target: Path)
    requires AddParents(t, target, 1).Some?
    ensures MARKER in AddParents(t, target, 1).value <==>
            MARKER in t || (|target| > 1 && target[0] == COMPLETION_MARKER)
  {
    AddParentsAdds(t, target, 1);
    assert |target| > 1 ==> target[..1] == [target[0]];
  }

  lemma NewMarker(t: Tree, target: Path, node: Node)
    requires Unpackable(target) && AddNew(t, target, node).Some?
    ensures MARKER in AddNew(t, target, node).value <==>
            MARKER in t || (|target| > 1 && target[0] == COMPLETION_MARKER)
  {
    ParentsMarker(t, target);
  }

  /** A hard link adds no parents of its source, which is in the tree already. */
  lemma LinkMarker(t: Tree, target: Path, source: Path)
    requires Rooted(t) && Unpackable(target) && AddLink(t, target, source).Some?
    ensures MARKER in AddLink(t, target, source).value <==>
            MARKER in t || (|target| > 1 && target[0] == COMPLETION_MARKER)
  {
    var t1 := AddParents(t, source, 1).value;
    AddParentsAdds(t, source, 1);
    assert source in t;
    ParentsMarker(t, source);
    assert |source| > 1 ==> source[..1] == [source[0]];
    NewMarker(t1, target, t1[source]);
  }

  lemma EntryMarker(t: Tree, e: Entry)
    requires TreeOk(t) && ApplyEntry(t, e).Some?
    ensures MARKER in ApplyEntry(t, e).value <==> MARKER in t || BelowMarker(e)
  {
    AcceptedNamesAreUnpackable(e.name);
    hide TarTarget, AddParents, NamesOk;
    var target := TarTarget(e.name).value;
    match e.kind
    case DirEntry => ParentsMarker(t, target);
    case RegEntry(mode, content) => NewMarker(t, target, File(Perm(mode), content));
    case SymlinkEntry(linkname) => NewMarker(t, target, Symlink(linkname));
    case LinkEntry(linkname) => LinkMarker(t, target, TarTarget(linkname).value);
  }

  /** The tree of an archive has the marker's path exactly when some entry lies below it. */
  lemma {:induction false} ArchiveMarker(entries: seq<Entry>)
    requires ApplyAll(map[], entries).Some?
    ensures MARKER in ApplyAll(map[], entries).value <==> exists i :: 0 <= i < |entries| && BelowMarker(entries[i])
  {
    hide ApplyEntry, BelowMarker, TreeOk;
    if entries != [] {
      var n := |entries| - 1;
      var before := entries[..n];
      ArchiveMarker(before);
      PublishTheorems.EmptyTreeOk();
      ApplyAllKeeps(map[], before);
      EntryMarker(ApplyAll(map[], before).value, entries[n]);
      assert forall i | 0 <= i < n :: before[i] == entries[i];
    }
  }

  /** The archive unpacks, and no entry lies below the marker. */
  ghost predicate Publishable(w: World, archive: seq<byte>) {
    && ApplyAll(map[], w.parse(archive)).Some?
    && forall i | 0 <= i < |w.parse(archive)| :: !BelowMarker(w.parse(archive)[i])
  }

  /** The proviso is not empty: a name below the marker is accepted and unpacked. */
  lemma MarkerCanBeADirectory()
    ensures var entries := [Entry(COMPLETION_MARKER + "/x", RegEntry(420, []))];
            ApplyAll(map[], entries).Some? && BelowMarker(entries[0])
  {
    var target := [COMPLETION_MARKER, "x"];
    var e := Entry(COMPLETION_MARKER + "/x", RegEntry(420, []));
    assert target[1..] == ["x"] && Join(target) == e.name;
    UnpackableNamesAreAccepted(target);
    hide TarTarget;
    assert target[..1] == MARKER && target[..2] == target;
    assert [e][..0] == [];
    var t: Tree := map[MARKER := Dir];
    assert AddParents(map[], target, 1) == Some(t);
    assert ApplyEntry(map[], e) == Some(t[target := File(420, [])]);
  }

  // ---- exactly when a receive can finish ----

  lemma CanFinishAlone(w: World, s: State, p: nat, archive: seq<byte>)
    requires Inv(w, s) && p in s.procs && s.procs[p].pc == Locking(archive)
    requires s.procs[p].digest !in s.locks && Readable(s, s.procs[p].digest) && Publishable(w, archive)
    ensures CanWalkAlone(w, s, p, s.procs[p].digest)
  {
    hide Leads, ApplyAll, DirStep, BelowMarker;
    var digest := s.procs[p].digest;
    Facts(w, s, p);
    LeadsSelf(w, s, p);
    var a := To(s, p, Checking(archive, 0)).(locks := s.locks[digest := p]);
    LeadsOn(w, s, s, a, p, Acquire);
    hide LockStep, Inv, ProcOk;
    var b := CheckEnds(w, s, a, p, digest, archive);
    if !Complete(a, digest) {
      ArchiveMarker(w.parse(archive));
      b := PublishEnds(w, s, b, p, digest, archive, ApplyAll(map[], w.parse(archive)).value);
    }
    var c := UnlockAndWalk(w, s, b, p, digest);
  }

  /** Receiver `p` can alone finish a walk of the digest. */
  ghost predicate CanWalkAlone(w: World, s: State, p: nat, digest: string) {
    exists s' :: Leads(w, s, s', p) && WalkedBy(s', p, digest)
  }

  ghost predicate WalkedBy(s: State, p: nat, digest: string) {
    p in s.procs && s.procs[p].digest == digest && s.procs[p].pc.Walked?
  }

  /** Some continuation, whoever takes its steps, leads from `s` to a finished walk. */
  ghost predicate CanWalk(w: World, s: State, p: nat, digest: string) {
    exists path, steps :: IsContinuation(w, path, steps) && path[0] == s && WalkedBy(path[|steps|], p, digest)
  }

  ghost predicate IsContinuation(w: World, path: seq<State>, steps: seq<(nat, Step)>) {
    && |path| == |steps| + 1
    && forall i | 0 <= i < |steps| :: Next(w, path[i], path[i + 1], steps[i].0, steps[i].1)
  }

  lemma AloneIsSomehow(w: World, s: State, p: nat, digest: string)
    requires CanWalkAlone(w, s, p, digest)
    ensures CanWalk(w, s, p, digest)
  {
    hide Next;
    var s' :| Leads(w, s, s', p) && WalkedBy(s', p, digest);
    var path, steps :| IsPath(w, path, steps, p) && path[0] == s && path[|steps|] == s';
    var labelled := seq(|steps|, i requires 0 <= i < |steps| => (p, steps[i]));
    assert IsContinuation(w, path, labelled);
  }

  /** Nobody gets past the check of what lies under the digest. */
  ghost predicate Wedged(s: State, digest: string) {
    && !Readable(s, digest)
    && forall q | q in s.procs && s.procs[q].digest == digest && Locked(s.procs[q].pc) ::
         || s.procs[q].pc == Unlocking(false)
         || (s.procs[q].pc.Checking? && (s.procs[q].pc.phase > 0 ==> s.dirs[digest].Directory?))
  }

  lemma UnreadableFails(s: State, digest: string, phase: nat, v: Verdict)
    requires !Readable(s, digest) && CheckStep(s, digest, phase, v)
    requires phase <= 2 && (phase == 2 ==> MarkerRegular(s, digest)) && (phase > 0 ==> s.dirs[digest].Directory?)
    ensures v == CheckFails || (v == NextPhase && s.dirs[digest].Directory?)
  {
  }

  lemma WedgedCheck(w: World, s: State, s': State, q: nat, digest: string)
    requires Inv(w, s) && Wedged(s, digest) && LockStep(w, s, s', q, CheckLocked)
    ensures Wedged(s', digest)
  {
    hide Inv, CheckStep, UnpacksTo, Genuine, ApplyAll;
    Facts(w, s, q);
    var Checking(archive, phase) := s.procs[q].pc;
    var v :| CheckStep(s, s.procs[q].digest, phase, v) && s' == To(s, q, AfterLocked(archive, phase, v));
    if s.procs[q].digest == digest {
      UnreadableFails(s, digest, phase, v);
    }
  }

  lemma WedgedLocks(w: World, s: State, s': State, q: nat, e: Step, digest: string)
    requires Inv(w, s) && Wedged(s, digest) && LockStep(w, s, s', q, e)
    ensures Wedged(s', digest)
  {
    hide Inv, CheckStep;
    if e.CheckLocked? {
      WedgedCheck(w, s, s', q, digest);
    }
  }

  /** A receiver of a wedged digest takes no step in the cache directory. */
  lemma WedgedIdle(w: World, s: State, s': State, q: nat, e: Step, digest: string)
    requires DirStep(w, s, s', q, e) && ProcOk(w, s, q) && Wedged(s, digest)
    ensures s.procs[q].digest != digest
  {
    hide UnpacksTo, Genuine, ApplyAll, ApplyEntry, ValidDigest;
  }

  lemma WorksElsewhere(w: World, s: State, s': State, q: nat, e: Step, digest: string)
    requires DirStep(w, s, s', q, e) && ProcOk(w, s, q) && s.procs[q].digest != digest
    requires !TempName(digest)
    ensures q in s'.procs && s'.procs == s.procs[q := s'.procs[q]] && s'.procs[q].digest == s.procs[q].digest
    ensures SameDir(s, s', digest)
  {
    hide UnpacksTo, Genuine, ApplyAll, ApplyEntry, ValidDigest, VisitedOk, Complete;
  }

  lemma WedgedDirs(w: World, s: State, s': State, q: nat, e: Step, digest: string)
    requires Inv(w, s) && ValidDigest(digest) && Wedged(s, digest) && DirStep(w, s, s', q, e)
    ensures Wedged(s', digest)
  {
    assert q in s.procs;
    hide DirStep, Inv, ProcOk, ValidDigest;
    DigestsArePlainNames(digest);
    Facts(w, s, q);
    WedgedIdle(w, s, s', q, e, digest);
    WorksElsewhere(w, s, s', q, e, digest);
  }

  lemma {:induction false} WedgedStays(w: World, path: seq<State>, steps: seq<(nat, Step)>, digest: string, i: nat)
    requires IsContinuation(w, path, steps) && i < |path|
    requires Inv(w, path[0]) && ValidDigest(digest) && Wedged(path[0], digest)
    ensures Inv(w, path[i]) && Wedged(path[i], digest)
  {
    hide LockStep, DirStep, Inv, Wedged, ValidDigest;
    if i > 0 {
      WedgedStays(w, path, steps, digest, i - 1);
      var (q, e) := steps[i - 1];
      assert Next(w, path[i - 1], path[i], q, e);
      NextKeeps(w, path[i - 1], path[i], q, e);
      if LockStep(w, path[i - 1], path[i], q, e) {
        WedgedLocks(w, path[i - 1], path[i], q, e, digest);
      } else {
        WedgedDirs(w, path[i - 1], path[i], q, e, digest);
      }
    }
  }

  /** What lies under an unlocked digest and cannot be read stays in the way for good. */
  lemma UnreadableNeverWalked(w: World, s: State, p: nat, digest: string)
    requires Inv(w, s) && ValidDigest(digest) && digest !in s.locks && !Readable(s, digest)
    ensures !CanWalk(w, s, p, digest)
  {
    hide Next;
    forall q | q in s.procs && s.procs[q].digest == digest ensures !Locked(s.procs[q].pc) {
      Facts(w, s, q);
    }
    hide Inv;
    if CanWalk(w, s, p, digest) {
      var path, steps :| IsContinuation(w, path, steps) && path[0] == s && WalkedBy(path[|steps|], p, digest);
      WedgedStays(w, path, steps, digest, |steps|);
      Facts(w, path[|steps|], p);
    }
  }

  /** Without a collision, what is walked under the archive's digest is the archive. */
  lemma WalkedIsPublishable(w: World, run: seq<State>, steps: seq<(nat, Step)>, i: nat, p: nat, archive: seq<byte>)
    requires PublishTheorems.IsRun(w, run, steps) && i < |run| && CanWalk(w, run[i], p, w.hash(archive))
    requires forall other | w.hash(other) == w.hash(archive) :: other == archive
    ensures Publishable(w, archive)
  {
    hide Next, ApplyAll, BelowMarker, PublishTheorems.Initial;
    var path: seq<State>, more: seq<(nat, Step)> :|
      IsContinuation(w, path, more) && path[0] == run[i] && WalkedBy(path[|more|], p, w.hash(archive));
    var all, labels := run[..i] + path, steps[..i] + more;
    forall k | 0 <= k < |labels| ensures Next(w, all[k], all[k + 1], labels[k].0, labels[k].1) {
      if k < i {
        assert Next(w, run[k], run[k + 1], steps[k].0, steps[k].1);
      } else {
        assert Next(w, path[k - i], path[k - i + 1], more[k - i].0, more[k - i].1);
      }
    }
    assert PublishTheorems.IsRun(w, all, labels);
    PublishTheorems.WalksReportTheHostsArchive(w, all, labels, i + |more|, p, archive);
    ArchiveMarker(w.parse(archive));
  }

  /** A receiver with a verified archive whose digest nobody has locked can finish, alone or with
      the help of others, exactly when what lies under the digest can be read and the archive
      unpacks without an entry below the marker; leftovers of crashed receivers do not matter. */
  lemma ReceiveCanFinishIff(w: World, run: seq<State>, steps: seq<(nat, Step)>, i: nat, p: nat, archive: seq<byte>)
    requires PublishTheorems.IsRun(w, run, steps) && i < |run|
    requires p in run[i].procs && run[i].procs[p].pc == Locking(archive) && run[i].procs[p].digest !in run[i].locks
    requires forall other | w.hash(other) == w.hash(archive) :: other == archive
    ensures w.hash(archive) == run[i].procs[p].digest
    ensures CanWalkAlone(w, run[i], p, w.hash(archive)) <==>
            Readable(run[i], w.hash(archive)) && Publishable(w, archive)
    ensures CanWalk(w, run[i], p, w.hash(archive)) <==>
            Readable(run[i], w.hash(archive)) && Publishable(w, archive)
  {
    hide PublishTheorems.IsRun, Inv, CanWalk, CanWalkAlone, Readable, Publishable, ValidDigest;
    PublishTheorems.RunKeeps(w, run, steps, i);
    Facts(w, run[i], p);
    var digest := w.hash(archive);
    if Readable(run[i], digest) && Publishable(w, archive) {
      CanFinishAlone(w, run[i], p, archive);
    }
    if CanWalkAlone(w, run[i], p, digest) {
      AloneIsSomehow(w, run[i], p, digest);
    }
    if CanWalk(w, run[i], p, digest) {
      WalkedIsPublishable(w, run, steps, i, p, archive);
      if !Readable(run[i], digest) {
        UnreadableNeverWalked(w, run[i], p, digest);
      }
    }
  }
}
