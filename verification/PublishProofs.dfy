/** What every run of the context cache keeps: a complete entry is genuine and never changes. */
module PublishProofs {
  import opened Basics
  import opened Publish
  import opened TarPaths
  import opened UnpackTree

  /** `tree` is what an archive with this digest unpacks to. */
  ghost predicate UnpacksTo(w: World, archive: seq<byte>, digest: string, tree: Tree) {
    w.hash(archive) == digest && ApplyAll(map[], w.parse(archive)) == Some(tree)
  }

  /** The tree unpacked from some archive with this digest, plus the completion marker. */
  ghost predicate Genuine(w: World, digest: string, tree: Tree) {
    && MARKER in tree && tree[MARKER] == MARKER_NODE
    && exists archive :: UnpacksTo(w, archive, digest, tree - {MARKER})
  }

  ghost predicate DirOk(w: World, s: State, name: string) {
    Complete(s, name) && ValidDigest(name) ==> Genuine(w, name, s.dirs[name].tree)
  }

  /** The marker, if it is there at all, is a regular file. */
  ghost predicate MarkerRegular(s: State, name: string) {
    name in s.dirs && s.dirs[name].Directory? && MARKER in s.dirs[name].tree ==> s.dirs[name].tree[MARKER].File?
  }

  /** Visited entries are the ones of the complete tree. */
  ghost predicate VisitedOk(s: State, name: string, visited: Tree) {
    && Complete(s, name)
    && forall path | path in visited :: path != MARKER && path in s.dirs[name].tree
        && visited[path] == s.dirs[name].tree[path]
  }

  ghost predicate PcOk(w: World, s: State, digest: string, pc: Pc) {
    match pc
    case Early(phase) => phase <= 2 && (phase == 2 ==> MarkerRegular(s, digest))
    case Receiving(cached) => cached ==> Complete(s, digest)
    case Locking(archive) => w.hash(archive) == digest
    case Checking(archive, phase) => w.hash(archive) == digest && phase <= 2
        && (phase == 2 ==> MarkerRegular(s, digest))
    case Removing(archive) => w.hash(archive) == digest && !Complete(s, digest)
    case Making(archive) => w.hash(archive) == digest && digest !in s.dirs
    case Unpacking(archive, temp, done) =>
      && w.hash(archive) == digest && digest !in s.dirs && TempName(temp) && temp in s.dirs && s.dirs[temp].Directory?
      && done <= |w.parse(archive)| && ApplyAll(map[], w.parse(archive)[..done]) == Some(s.dirs[temp].tree)
    case Marking(archive, temp) =>
      && digest !in s.dirs && TempName(temp) && temp in s.dirs && s.dirs[temp].Directory?
      && UnpacksTo(w, archive, digest, s.dirs[temp].tree)
    case Renaming(archive, temp) =>
      && digest !in s.dirs && TempName(temp) && temp in s.dirs && s.dirs[temp].Directory?
      && Genuine(w, digest, s.dirs[temp].tree)
    case Cleaning(temp) => TempName(temp) && temp in s.dirs
    case Unlocking(ok) => ok ==> Complete(s, digest)
    case Walking(visited) => VisitedOk(s, digest, visited)
    case Walked(visited) =>
      && VisitedOk(s, digest, visited)
      && forall path | path in s.dirs[digest].tree && path != MARKER :: path in visited
    case Failed => true
  }

  ghost predicate ProcOk(w: World, s: State, p: nat)
    requires p in s.procs
  {
    var Proc(digest, pc) := s.procs[p];
    && ValidDigest(digest)
    && (Locked(pc) ==> digest in s.locks && s.locks[digest] == p)
    && PcOk(w, s, digest, pc)
  }

  ghost predicate TempsDistinct(s: State) {
    forall p, q | p in s.procs && q in s.procs && p != q && HasTemp(s.procs[p].pc) && HasTemp(s.procs[q].pc) ::
      s.procs[p].pc.temp != s.procs[q].pc.temp
  }

  ghost predicate LocksOk(s: State) {
    forall d | d in s.locks :: s.locks[d] in s.procs && s.procs[s.locks[d]].digest == d
        && Locked(s.procs[s.locks[d]].pc)
  }

  ghost predicate Inv(w: World, s: State) {
    && (forall name | name in s.dirs :: DirOk(w, s, name))
    && (forall p | p in s.procs :: ProcOk(w, s, p))
    && TempsDistinct(s) && LocksOk(s)
  }

  /** No step touches a complete entry, and only the lock holder touches an incomplete one. */
  ghost predicate SameDir(s: State, s': State, name: string) {
    (name in s.dirs <==> name in s'.dirs) && (name in s.dirs ==> s'.dirs[name] == s.dirs[name])
  }

  /** A process whose digest and temporary directories are left alone keeps its invariant. */
  lemma PcKept(w: World, s: State, s': State, digest: string, pc: Pc)
    requires PcOk(w, s, digest, pc) && SameDir(s, s', digest) && (HasTemp(pc) ==> SameDir(s, s', pc.temp))
    ensures PcOk(w, s', digest, pc)
  {
  }

  /** Without the lock, nothing a process knows depends on an incomplete entry. */
  lemma UnlockedKept(w: World, s: State, s': State, digest: string, pc: Pc)
    requires PcOk(w, s, digest, pc) && !Locked(pc) && !Complete(s, digest)
    requires MarkerRegular(s, digest) ==> MarkerRegular(s', digest)
    ensures PcOk(w, s', digest, pc)
  {
  }

  /** `name` may be changed by process `p`: its own temporary directory, or the incomplete entry
      of the digest it has locked. */
  ghost predicate MayTouch(s: State, s': State, p: nat, name: string)
    requires p in s.procs
  {
    if ValidDigest(name) then
      && name == s.procs[p].digest && Locked(s.procs[p].pc) && !Complete(s, name)
      && (MarkerRegular(s, name) ==> MarkerRegular(s', name))
    else
      forall q | q in s.procs && q != p && HasTemp(s.procs[q].pc) :: s.procs[q].pc.temp != name
  }

  lemma OtherKept(w: World, s: State, s': State, p: nat, q: nat, touched: set<string>)
    requires Inv(w, s) && p in s.procs && q in s.procs && q != p && q in s'.procs && s'.procs[q] == s.procs[q]
    requires forall name | name !in touched :: SameDir(s, s', name)
    requires forall name | name in touched :: MayTouch(s, s', p, name)
    requires forall d | d in s.locks && s.locks[d] == q :: d in s'.locks && s'.locks[d] == q
    ensures ProcOk(w, s', q)
  {
    hide PcOk;
    assert ProcOk(w, s, q) && ProcOk(w, s, p);
    var Proc(digest, pc) := s.procs[q];
    if digest in touched {
      assert MayTouch(s, s', p, digest);
      UnlockedKept(w, s, s', digest, pc);
    } else {
      if HasTemp(pc) {
        TempIsNoDigest(w, s, q);
        assert pc.temp in touched ==> MayTouch(s, s', p, pc.temp);
      }
      PcKept(w, s, s', digest, pc);
    }
  }

  lemma TempIsNoDigest(w: World, s: State, q: nat)
    requires q in s.procs && ProcOk(w, s, q) && HasTemp(s.procs[q].pc)
    ensures TempName(s.procs[q].pc.temp) && !ValidDigest(s.procs[q].pc.temp)
  {
    if ValidDigest(s.procs[q].pc.temp) {
      DigestsArePlainNames(s.procs[q].pc.temp);
    }
  }

  /** One process moves to a new point, changing only the names it may touch. */
  ghost predicate Move(s: State, s': State, p: nat, touched: set<string>) {
    && p in s.procs && p in s'.procs && s'.procs == s.procs[p := s'.procs[p]]
    && s'.procs[p].digest == s.procs[p].digest
    && (forall name | name !in touched :: SameDir(s, s', name))
    && (forall name | name in touched :: MayTouch(s, s', p, name))
    && s'.locks == (if Locked(s'.procs[p].pc) then s.locks[s.procs[p].digest := p]
                    else if Locked(s.procs[p].pc) then s.locks - {s.procs[p].digest} else s.locks)
    && (Locked(s'.procs[p].pc) && !Locked(s.procs[p].pc) ==> s.procs[p].digest !in s.locks)
    && (HasTemp(s'.procs[p].pc) ==>
          if HasTemp(s.procs[p].pc) then s'.procs[p].pc.temp == s.procs[p].pc.temp
          else s'.procs[p].pc.temp in touched && !ValidDigest(s'.procs[p].pc.temp))
  }

  lemma MovedProcs(w: World, s: State, s': State, p: nat, touched: set<string>)
    requires Inv(w, s) && Move(s, s', p, touched) && PcOk(w, s', s'.procs[p].digest, s'.procs[p].pc)
    ensures forall q | q in s'.procs :: ProcOk(w, s', q)
  {
    hide PcOk, MayTouch, SameDir, DirOk;
    assert ProcOk(w, s, p);
    forall q | q in s'.procs && q != p ensures ProcOk(w, s', q) {
      OtherKept(w, s, s', p, q, touched);
    }
  }

  lemma MovedDirs(w: World, s: State, s': State, p: nat, touched: set<string>)
    requires Inv(w, s) && Move(s, s', p, touched)
    requires forall name | name in touched && name in s'.dirs :: DirOk(w, s', name)
    ensures forall name | name in s'.dirs :: DirOk(w, s', name)
  {
    hide PcOk, MayTouch, Genuine;
    forall name | name in s'.dirs && name !in touched ensures DirOk(w, s', name) {
      assert SameDir(s, s', name) && DirOk(w, s, name);
    }
  }

  lemma MovedTemps(w: World, s: State, s': State, p: nat, touched: set<string>)
    requires Inv(w, s) && Move(s, s', p, touched)
    ensures TempsDistinct(s')
  {
    hide PcOk, SameDir, DirOk;
    if HasTemp(s'.procs[p].pc) {
      assert s'.procs[p].pc.temp in touched ==> MayTouch(s, s', p, s'.procs[p].pc.temp);
    }
  }

  lemma MovedLocks(w: World, s: State, s': State, p: nat, touched: set<string>)
    requires Inv(w, s) && Move(s, s', p, touched)
    ensures LocksOk(s')
  {
    hide PcOk, SameDir, DirOk, MayTouch;
    assert ProcOk(w, s, p);
  }

  lemma Moved(w: World, s: State, s': State, p: nat, touched: set<string>)
    requires Inv(w, s) && Move(s, s', p, touched)
    requires forall name | name in touched && name in s'.dirs :: DirOk(w, s', name)
    requires PcOk(w, s', s'.procs[p].digest, s'.procs[p].pc)
    ensures Inv(w, s')
  {
    hide PcOk, Move, DirOk, ProcOk, TempsDistinct, LocksOk;
    MovedProcs(w, s, s', p, touched);
    MovedDirs(w, s, s', p, touched);
    MovedTemps(w, s, s', p, touched);
    MovedLocks(w, s, s', p, touched);
  }

  /** Complete entries are untouched. */
  ghost predicate Stable(s: State, s': State) {
    forall name | ValidDigest(name) && Complete(s, name) :: SameDir(s, s', name)
  }

  lemma MoveStable(s: State, s': State, p: nat, touched: set<string>)
    requires Move(s, s', p, touched)
    ensures Stable(s, s')
  {
    forall name | ValidDigest(name) && Complete(s, name) ensures SameDir(s, s', name) {
      assert name in touched ==> MayTouch(s, s', p, name);
    }
  }

  // ---- checking and locking ----

  lemma CheckTells(w: World, s: State, name: string, phase: nat, v: Verdict)
    requires CheckStep(s, name, phase, v) && phase <= 2 && (phase == 2 ==> MarkerRegular(s, name))
    ensures v == Cached ==> Complete(s, name)
    ensures v == NotCached ==> !Complete(s, name)
    ensures v == NextPhase ==> phase < 2 && (phase == 1 ==> MarkerRegular(s, name))
  {
  }

  /** A step that leaves the directories alone. */
  lemma LocalMoved(w: World, s: State, s': State, p: nat, pc: Pc)
    requires Inv(w, s) && p in s.procs && PcOk(w, s, s.procs[p].digest, pc) && !HasTemp(pc)
    requires s' == s.(procs := s.procs[p := s.procs[p].(pc := pc)], locks := s'.locks)
    requires Locked(pc) && !Locked(s.procs[p].pc) ==> s.procs[p].digest !in s.locks
    requires s'.locks == (if Locked(pc) then s.locks[s.procs[p].digest := p]
                          else if Locked(s.procs[p].pc) then s.locks - {s.procs[p].digest} else s.locks)
    ensures Inv(w, s') && Stable(s, s')
  {
    hide Inv;
    PcKept(w, s, s', s.procs[p].digest, pc);
    hide PcOk, ProcOk;
    Moved(w, s, s', p, {});
    MoveStable(s, s', p, {});
  }

  lemma Facts(w: World, s: State, p: nat)
    requires Inv(w, s) && p in s.procs
    ensures ProcOk(w, s, p)
    ensures Locked(s.procs[p].pc) ==> s.locks[s.procs[p].digest := p] == s.locks
  {
    hide PcOk;
    assert ProcOk(w, s, p);
  }

  lemma CheckEarlyKeeps(w: World, s: State, s': State, p: nat)
    requires Inv(w, s) && LockStep(w, s, s', p, CheckEarly)
    ensures Inv(w, s') && Stable(s, s')
  {
    hide Inv, Stable, CheckStep;
    Facts(w, s, p);
    var phase := s.procs[p].pc.phase;
    var v :| CheckStep(s, s.procs[p].digest, phase, v) && s' == To(s, p, AfterEarly(phase, v));
    CheckTells(w, s, s.procs[p].digest, phase, v);
    LocalMoved(w, s, s', p, AfterEarly(phase, v));
  }

  lemma CheckLockedKeeps(w: World, s: State, s': State, p: nat)
    requires Inv(w, s) && LockStep(w, s, s', p, CheckLocked)
    ensures Inv(w, s') && Stable(s, s')
  {
    hide Inv, Stable, CheckStep;
    Facts(w, s, p);
    var Checking(archive, phase) := s.procs[p].pc;
    var v :| CheckStep(s, s.procs[p].digest, phase, v) && s' == To(s, p, AfterLocked(archive, phase, v));
    CheckTells(w, s, s.procs[p].digest, phase, v);
    LocalMoved(w, s, s', p, AfterLocked(archive, phase, v));
  }

  lemma FailKeeps(w: World, s: State, s': State, p: nat)
    requires Inv(w, s) && LockStep(w, s, s', p, Fail)
    ensures Inv(w, s') && Stable(s, s')
  {
    hide Inv;
    Facts(w, s, p);
    if s' != s {
      var pc := s'.procs[p].pc;
      if HasTemp(pc) {
        Moved(w, s, s', p, {});
        MoveStable(s, s', p, {});
      } else {
        LocalMoved(w, s, s', p, pc);
      }
    }
  }

  lemma CrashKeeps(w: World, s: State, s': State, p: nat)
    requires Inv(w, s) && LockStep(w, s, s', p, Crash)
    ensures Inv(w, s') && Stable(s, s')
  {
    hide PcOk, DirOk;
    forall q | q in s'.procs ensures ProcOk(w, s', q) {
      assert ProcOk(w, s, q);
      PcKept(w, s, s', s.procs[q].digest, s.procs[q].pc);
    }
    forall name | name in s'.dirs ensures DirOk(w, s', name) {
      DirOkKept(w, s, s', name);
    }
  }

  lemma DirOkKept(w: World, s: State, s': State, name: string)
    requires name in s.dirs && DirOk(w, s, name) && SameDir(s, s', name)
    ensures DirOk(w, s', name)
  {
  }

  lemma BeginKeeps(w: World, s: State, s': State, p: nat, digest: string)
    requires Inv(w, s) && LockStep(w, s, s', p, Begin(digest))
    ensures Inv(w, s') && Stable(s, s')
  {
    forall q | q in s'.procs && q != p ensures ProcOk(w, s', q) {
      assert ProcOk(w, s, q);
      PcKept(w, s, s', s.procs[q].digest, s.procs[q].pc);
    }
    hide PcOk, DirOk;
    forall name | name in s'.dirs ensures DirOk(w, s', name) {
      DirOkKept(w, s, s', name);
    }
  }

  lemma LockStepKeeps(w: World, s: State, s': State, p: nat, e: Step)
    requires Inv(w, s) && LockStep(w, s, s', p, e)
    ensures Inv(w, s') && Stable(s, s')
  {
    hide Inv, Stable;
    match e
    case Begin(digest) => BeginKeeps(w, s, s', p, digest);
    case CheckEarly => CheckEarlyKeeps(w, s, s', p);
    case CheckLocked => CheckLockedKeeps(w, s, s', p);
    case Fail => FailKeeps(w, s, s', p);
    case Crash => CrashKeeps(w, s, s', p);
    case Deliver(archive) =>
      Facts(w, s, p);
      LocalMoved(w, s, s', p, s'.procs[p].pc);
    case Acquire =>
      Facts(w, s, p);
      LocalMoved(w, s, s', p, s'.procs[p].pc);
    case Unlock =>
      Facts(w, s, p);
      LocalMoved(w, s, s', p, s'.procs[p].pc);
    case _ =>
  }

  // ---- changing the cache directory ----

  /** A process that keeps its lock changes the incomplete entry it has locked. */
  lemma EntryMoved(w: World, s: State, s': State, p: nat)
    requires Inv(w, s) && p in s.procs && Locked(s.procs[p].pc) && !Complete(s, s.procs[p].digest)
    requires p in s'.procs && s' == s.(dirs := s'.dirs, procs := s.procs[p := s.procs[p].(pc := s'.procs[p].pc)])
    requires Locked(s'.procs[p].pc) && !HasTemp(s'.procs[p].pc)
    requires forall name | name != s.procs[p].digest :: SameDir(s, s', name)
    requires MarkerRegular(s, s.procs[p].digest) ==> MarkerRegular(s', s.procs[p].digest)
    requires !Complete(s', s.procs[p].digest)
    requires PcOk(w, s', s.procs[p].digest, s'.procs[p].pc)
    ensures Inv(w, s') && Stable(s, s')
  {
    hide Inv, PcOk;
    Facts(w, s, p);
    Moved(w, s, s', p, {s.procs[p].digest});
    MoveStable(s, s', p, {s.procs[p].digest});
  }

  lemma RemoveKeeps(w: World, s: State, s': State, p: nat, e: Step)
    requires Inv(w, s) && DirStep(w, s, s', p, e) && (e.RemoveOne? || e.RemoveDone?)
    ensures Inv(w, s') && Stable(s, s')
  {
    hide Inv;
    Facts(w, s, p);
    assert s'.procs == s.procs[p := s.procs[p].(pc := s'.procs[p].pc)];
    EntryMoved(w, s, s', p);
  }

  /** A temporary name is free for `p`: it is new, or it is the one `p` already has. */
  lemma TempFree(w: World, s: State, p: nat, temp: string)
    requires Inv(w, s) && p in s.procs && TempName(temp)
    requires temp !in s.dirs || (HasTemp(s.procs[p].pc) && temp == s.procs[p].pc.temp)
    ensures !ValidDigest(temp)
    ensures forall q | q in s.procs && q != p && HasTemp(s.procs[q].pc) :: s.procs[q].pc.temp != temp
  {
    if ValidDigest(temp) {
      DigestsArePlainNames(temp);
    }
    forall q | q in s.procs && q != p && HasTemp(s.procs[q].pc) ensures s.procs[q].pc.temp != temp {
      assert ProcOk(w, s, q);
    }
  }

  /** A process that keeps its lock changes its own temporary directory. */
  lemma TempMoved(w: World, s: State, s': State, p: nat, temp: string)
    requires Inv(w, s) && p in s.procs && Locked(s.procs[p].pc) && TempName(temp)
    requires temp !in s.dirs || (HasTemp(s.procs[p].pc) && temp == s.procs[p].pc.temp)
    requires p in s'.procs && s' == s.(dirs := s'.dirs, procs := s.procs[p := s.procs[p].(pc := s'.procs[p].pc)])
    requires Locked(s'.procs[p].pc) && (HasTemp(s'.procs[p].pc) ==> s'.procs[p].pc.temp == temp)
    requires HasTemp(s.procs[p].pc) ==> s.procs[p].pc.temp == temp
    requires forall name | name != temp :: SameDir(s, s', name)
    requires PcOk(w, s', s.procs[p].digest, s'.procs[p].pc)
    ensures Inv(w, s') && Stable(s, s')
  {
    hide Inv, PcOk;
    Facts(w, s, p);
    TempFree(w, s, p, temp);
    Moved(w, s, s', p, {temp});
    MoveStable(s, s', p, {temp});
  }

  lemma UnpackKeeps(w: World, s: State, s': State, p: nat, e: Step)
    requires Inv(w, s) && DirStep(w, s, s', p, e) && (e.MakeTemp? || e.UnpackNext? || e.UnpackDone?)
    ensures Inv(w, s') && Stable(s, s')
  {
    hide Inv, ApplyEntry;
    Facts(w, s, p);
    assert s'.procs == s.procs[p := s.procs[p].(pc := s'.procs[p].pc)];
    if e.UnpackNext? {
      ApplyAllSnoc(map[], w.parse(s.procs[p].pc.archive), s.procs[p].pc.done);
    } else if e.UnpackDone? {
      var entries := w.parse(s.procs[p].pc.archive);
      assert entries[..|entries|] == entries;
    } else {
      assert w.parse(s.procs[p].pc.archive)[..0] == [];
      TempFree(w, s, p, e.temp);
    }
    TempMoved(w, s, s', p, s'.procs[p].pc.temp);
  }

  lemma MarkedIsGenuine(w: World, archive: seq<byte>, digest: string, tree: Tree)
    requires UnpacksTo(w, archive, digest, tree) && MARKER !in tree
    ensures Genuine(w, digest, tree[MARKER := MARKER_NODE])
  {
    hide ApplyAll;
    assert tree[MARKER := MARKER_NODE] - {MARKER} == tree;
  }

  lemma MarkKeeps(w: World, s: State, s': State, p: nat)
    requires Inv(w, s) && DirStep(w, s, s', p, Mark)
    ensures Inv(w, s') && Stable(s, s')
  {
    hide Inv, UnpacksTo, Genuine;
    Facts(w, s, p);
    var Marking(archive, temp) := s.procs[p].pc;
    if MARKER !in s.dirs[temp].tree {
      MarkedIsGenuine(w, archive, s.procs[p].digest, s.dirs[temp].tree);
    }
    assert s'.procs == s.procs[p := s.procs[p].(pc := s'.procs[p].pc)];
    TempMoved(w, s, s', p, temp);
  }

  lemma CleanKeeps(w: World, s: State, s': State, p: nat, e: Step)
    requires Inv(w, s) && DirStep(w, s, s', p, e) && (e.CleanOne? || e.CleanDone?)
    ensures Inv(w, s') && Stable(s, s')
  {
    hide Inv;
    Facts(w, s, p);
    assert s'.procs == s.procs[p := s.procs[p].(pc := s'.procs[p].pc)];
    TempMoved(w, s, s', p, s.procs[p].pc.temp);
  }

  /** The rename publishes a genuine entry under a name nobody else may touch. */
  lemma RenameKeeps(w: World, s: State, s': State, p: nat)
    requires Inv(w, s) && DirStep(w, s, s', p, Rename)
    ensures Inv(w, s') && Stable(s, s')
  {
    hide Inv, UnpacksTo;
    Facts(w, s, p);
    var temp, digest := s.procs[p].pc.temp, s.procs[p].digest;
    TempFree(w, s, p, temp);
    assert digest !in s.dirs && temp != digest;
    assert s'.procs == s.procs[p := s.procs[p].(pc := s'.procs[p].pc)];
    assert Genuine(w, digest, s'.dirs[digest].tree);
    RenameMove(w, s, s', p);
    hide Move;
    Moved(w, s, s', p, {temp, digest});
    MoveStable(s, s', p, {temp, digest});
  }

  lemma RenameMove(w: World, s: State, s': State, p: nat)
    requires DirStep(w, s, s', p, Rename) && ProcOk(w, s, p) && s.procs[p].digest !in s.dirs
    requires forall q | q in s.procs && q != p && HasTemp(s.procs[q].pc) :: s.procs[q].pc.temp != s.procs[p].pc.temp
    requires !ValidDigest(s.procs[p].pc.temp)
    ensures Move(s, s', p, {s.procs[p].pc.temp, s.procs[p].digest})
  {
    hide UnpacksTo, ValidDigest;
    var temp, digest := s.procs[p].pc.temp, s.procs[p].digest;
    assert s.locks[digest := p] == s.locks;
    assert MarkerRegular(s', digest);
  }

  lemma WalkKeeps(w: World, s: State, s': State, p: nat, e: Step)
    requires Inv(w, s) && DirStep(w, s, s', p, e) && (e.Visit? || e.WalkDone?)
    ensures Inv(w, s') && Stable(s, s')
  {
    hide Inv;
    Facts(w, s, p);
    LocalMoved(w, s, s', p, s'.procs[p].pc);
  }

  lemma NextKeeps(w: World, s: State, s': State, p: nat, e: Step)
    requires Inv(w, s) && Next(w, s, s', p, e)
    ensures Inv(w, s') && Stable(s, s')
  {
    hide Inv, Stable, LockStep;
    if LockStep(w, s, s', p, e) {
      LockStepKeeps(w, s, s', p, e);
    } else if e.RemoveOne? || e.RemoveDone? {
      RemoveKeeps(w, s, s', p, e);
    } else if e.MakeTemp? || e.UnpackNext? || e.UnpackDone? {
      UnpackKeeps(w, s, s', p, e);
    } else if e.Mark? {
      MarkKeeps(w, s, s', p);
    } else if e.Rename? {
      RenameKeeps(w, s, s', p);
    } else if e.CleanOne? || e.CleanDone? {
      CleanKeeps(w, s, s', p, e);
    } else {
      WalkKeeps(w, s, s', p, e);
    }
  }
}
