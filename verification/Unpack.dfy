/** `unpackTar` and its helpers, call by call, against the tree they are meant to build. */
module Unpack {
  import opened Basics
  import opened FileSystems
  import opened TarPaths
  import opened UnpackTree

  /** `Rejected` is an error the unpacker decides on; `OsFault` a failing call or cancellation. */
  datatype Outcome = Done | Rejected | OsFault

  ghost predicate StrictlyBelow(dest: Path, p: Path) { |dest| < |p| && p[..|dest|] == dest }

  /** The nodes below `dest` are exactly the tree `t`. */
  ghost predicate Below(nodes: Nodes, dest: Path, t: Tree) {
    && [] !in t
    && (forall r | r in t :: dest + r in nodes && nodes[dest + r] == t[r])
    && (forall p | p in nodes && StrictlyBelow(dest, p) :: p[|dest|..] in t)
  }

  /** The destination is a real directory and below it lies the well-formed tree `t`. */
  ghost predicate Site(nodes: Nodes, dest: Path, t: Tree) {
    RealDir(nodes, dest) && TreeOk(t) && Below(nodes, dest, t)
  }

  /** Compared with `before`: nothing outside `dest` differs, nothing that existed differs, and
      every node below `dest` has only real directories above it. */
  ghost predicate Confined(before: Nodes, nodes: Nodes, dest: Path) {
    && (forall p | p in nodes && !StrictlyBelow(dest, p) :: p in before)
    && (forall p | p in before :: p in nodes && nodes[p] == before[p])
    && (forall p | p in nodes && StrictlyBelow(dest, p) :: RealDir(nodes, p[..|p| - 1]))
  }

  /** Every state produced since `h0` is confined. */
  ghost predicate Tracked(before: Nodes, dest: Path, h0: seq<Nodes>, h: seq<Nodes>) {
    h0 <= h && forall i | |h0| <= i < |h| :: Confined(before, h[i], dest)
  }

  lemma TrackedOn(before: Nodes, dest: Path, h0: seq<Nodes>, h1: seq<Nodes>, h2: seq<Nodes>)
    requires Tracked(before, dest, h0, h1) && Tracked(before, dest, h1, h2)
    ensures Tracked(before, dest, h0, h2)
  {
  }

  lemma TrackedSelf(before: Nodes, dest: Path, h: seq<Nodes>)
    ensures Tracked(before, dest, h, h)
  {
  }

  // ---- the tree and the file system side by side ----

  lemma PrefixOfSum(dest: Path, rel: Path, n: nat, k: nat)
    requires k <= n <= |dest| + |rel|
    ensures (dest + rel)[..n][..k] == if k <= |dest| then dest[..k] else dest + rel[..k - |dest|]
  {
    if k > |dest| {
      assert dest + rel == dest + rel[..k - |dest|] + rel[k - |dest|..];
    }
  }

  lemma ParentIsReal(nodes: Nodes, dest: Path, t: Tree, rel: Path)
    requires Site(nodes, dest, t) && Parents(t, rel) && rel != [] && AllNames(rel)
    ensures RealDir(nodes, (dest + rel)[..|dest| + |rel| - 1])
  {
    var p := (dest + rel)[..|dest| + |rel| - 1];
    forall i | 0 <= i < |p| ensures IsName(p[i]) {
      assert p[i] == if i < |dest| then dest[i] else rel[i - |dest|];
    }
    forall k | 0 < k <= |p| ensures p[..k] in nodes && nodes[p[..k]] == Dir {
      PrefixOfSum(dest, rel, |p|, k);
    }
  }

  /** Looking at a path below real parents sees the tree. */
  lemma LookAt(nodes: Nodes, dest: Path, t: Tree, rel: Path)
    requires Site(nodes, dest, t) && Parents(t, rel) && rel != [] && AllNames(rel)
    ensures Locate(nodes, dest + rel) == At(dest + rel)
    ensures dest + rel in nodes <==> rel in t
    ensures rel in t ==> nodes[dest + rel] == t[rel]
  {
    ParentIsReal(nodes, dest, t, rel);
    LocateReal(nodes, dest + rel);
    assert (dest + rel)[..|dest|] == dest && (dest + rel)[|dest|..] == rel;
  }

  lemma BelowPut(nodes: Nodes, dest: Path, t: Tree, rel: Path, node: Node)
    requires Below(nodes, dest, t) && rel != []
    ensures Below(nodes[dest + rel := node], dest, t[rel := node])
  {
    var nodes', t' := nodes[dest + rel := node], t[rel := node];
    forall r | r in t' ensures dest + r in nodes' && nodes'[dest + r] == t'[r] {
      if r != rel {
        assert (dest + r)[|dest|..] == r && (dest + rel)[|dest|..] == rel;
      }
    }
    assert (dest + rel)[|dest|..] == rel;
  }

  /** A path below the destination at which unpacking may put `node`. */
  ghost predicate Placeable(rel: Path, node: Node) {
    rel != [] && AllNames(rel) && rel[0] != DOCKERFILE_STAGING && (rel == [COMPLETION_MARKER] ==> node == Dir)
  }

  /** Putting a node at a free path, or new content into a file made since `before`. */
  lemma PutAt(before: Nodes, nodes: Nodes, dest: Path, t: Tree, rel: Path, node: Node)
    requires Site(nodes, dest, t) && Confined(before, nodes, dest)
    requires Placeable(rel, node) && Parents(t, rel) && dest + rel !in before
    requires rel !in t || (t[rel].File? && node.File?)
    ensures Site(nodes[dest + rel := node], dest, t[rel := node]) && Confined(before, nodes[dest + rel := node], dest)
  {
    hide Below, Confined, RealDir, TreeOk, StrictlyBelow;
    LookAt(nodes, dest, t, rel);
    BelowPut(nodes, dest, t, rel, node);
    PutTreeOk(t, rel, node);
    ParentIsReal(nodes, dest, t, rel);
    assert StrictlyBelow(dest, dest + rel) by { BelowSum(dest, rel); }
    ConfinedPut(before, nodes, dest, dest + rel, node);
    RealDirPut(nodes, dest + rel, node, dest);
  }

  lemma BelowSum(dest: Path, rel: Path)
    requires rel != []
    ensures StrictlyBelow(dest, dest + rel)
  {
    assert (dest + rel)[..|dest|] == dest;
  }

  lemma RealDirPut(nodes: Nodes, path: Path, node: Node, p: Path)
    requires RealDir(nodes, p) && (path !in nodes || nodes[path] != Dir)
    ensures RealDir(nodes[path := node], p)
  {
  }

  lemma ConfinedPut(before: Nodes, nodes: Nodes, dest: Path, path: Path, node: Node)
    requires Confined(before, nodes, dest) && StrictlyBelow(dest, path) && path !in before
    requires RealDir(nodes, path[..|path| - 1]) && (path !in nodes || nodes[path] != Dir)
    ensures Confined(before, nodes[path := node], dest)
  {
    hide RealDir;
    var nodes' := nodes[path := node];
    forall p | p in nodes' && StrictlyBelow(dest, p) ensures RealDir(nodes', p[..|p| - 1]) {
      RealDirPut(nodes, path, node, p[..|p| - 1]);
    }
  }

  lemma PutTreeOk(t: Tree, rel: Path, node: Node)
    requires TreeOk(t) && Placeable(rel, node) && Parents(t, rel)
    requires rel !in t || (t[rel].File? && node.File?)
    ensures TreeOk(t[rel := node])
  {
    var t' := t[rel := node];
    forall p, k | p in t' && 0 < k < |p| ensures p[..k] in t' && t'[p[..k]] == Dir {
      assert p[..k] in t && t[p[..k]] == Dir;
    }
  }

  /** After any confined step, a path below the destination leads to itself: no symbolic link,
      from the archive or elsewhere, is ever followed on the way to it. */
  lemma ConfinedPathsAreReal(before: Nodes, nodes: Nodes, dest: Path, p: Path)
    requires Confined(before, nodes, dest) && p in nodes && StrictlyBelow(dest, p)
    ensures Locate(nodes, p) == At(p)
  {
    LocateReal(nodes, p);
  }

  lemma NotBefore(before: Nodes, nodes: Nodes, dest: Path, p: Path)
    requires Confined(before, nodes, dest) && p !in nodes
    ensures p !in before
  {
  }

  // ---- the calls ----

  /** Some call between the two counts failed. */
  ghost predicate Faulted(faults: nat -> Option<nat>, lo: nat, hi: nat) {
    exists k: nat :: lo <= k < hi && faults(k).Some?
  }

  lemma FaultedSince(faults: nat -> Option<nat>, lo: nat, mid: nat, hi: nat)
    requires lo <= mid && Faulted(faults, mid, hi)
    ensures Faulted(faults, lo, hi)
  {
  }

  /** Looks at, and if it is missing makes, one parent directory. */
  method EnsureParentAt(fs: FileSystem, dest: Path, rel: Path, ghost before: Nodes, ghost t: Tree)
    returns (r: Outcome, ghost t': Tree)
    requires Site(fs.nodes, dest, t) && Confined(before, fs.nodes, dest)
    requires Placeable(rel, Dir) && Parents(t, rel)
    modifies fs
    ensures Site(fs.nodes, dest, t') && Confined(before, fs.nodes, dest)
    ensures Tracked(before, dest, old(fs.history), fs.history)
    ensures fs.calls >= old(fs.calls) && (r == OsFault ==> Faulted(fs.faults, old(fs.calls), fs.calls))
    ensures r == Done ==> t' == (if rel in t then t else t[rel := Dir]) && t'[rel] == Dir
    ensures r == Rejected ==> rel in t && t[rel] != Dir
    ensures r != Done ==> t' == t
  {
    hide Site, Confined;
    LookAt(fs.nodes, dest, t, rel);
    t' := t;
    var info := fs.Lstat(dest + rel);
    match info
    case StatError =>
      r := OsFault;
      assert fs.faults(old(fs.calls)).Some?;
    case Present(node) =>
      r := if node == Dir then Done else Rejected;
    case Absent =>
      NotBefore(before, fs.nodes, dest, dest + rel);
      PutAt(before, fs.nodes, dest, t, rel, Dir);
      ghost var making := fs.calls;
      var handle := fs.Create(dest + rel, Dir);
      if handle.None? {
        r := OsFault;
        assert fs.faults(making).Some?;
      } else {
        r, t' := Done, t[rel := Dir];
      }
  }

  /** `ensurePathParent`. */
  method EnsurePathParent(fs: FileSystem, dest: Path, target: Path, ghost before: Nodes, ghost t: Tree)
    returns (r: Outcome, ghost t': Tree)
    requires Site(fs.nodes, dest, t) && Confined(before, fs.nodes, dest) && Unpackable(target)
    modifies fs
    ensures Site(fs.nodes, dest, t') && Confined(before, fs.nodes, dest)
    ensures Tracked(before, dest, old(fs.history), fs.history)
    ensures fs.calls >= old(fs.calls) && (r == OsFault ==> Faulted(fs.faults, old(fs.calls), fs.calls))
    ensures r == Done ==> AddParents(t, target, 1) == Some(t')
    ensures r == Rejected ==> AddParents(t, target, 1) == None
  {
    hide Site, Confined;
    r, t' := Done, t;
    var k := 1;
    while k < |target|
      invariant 1 <= k <= |target| && r == Done
      invariant Site(fs.nodes, dest, t') && Confined(before, fs.nodes, dest)
      invariant Tracked(before, dest, old(fs.history), fs.history)
      invariant fs.calls >= old(fs.calls)
      invariant forall i | 0 < i < k :: target[..i] in t' && t'[target[..i]] == Dir
      invariant AddParents(t, target, 1) == AddParents(t', target, k)
    {
      var current := target[..k];
      PrefixParents(t', target, k);
      r, t' := EnsureParentAt(fs, dest, current, before, t');
      if r != Done {
        return;
      }
      assert forall i | 0 < i < k :: target[..i] != current by {
        assert forall i | 0 < i < k :: |target[..i]| == i;
      }
      k := k + 1;
    }
  }

  lemma PrefixParents(t: Tree, target: Path, k: nat)
    requires Unpackable(target) && 0 < k < |target|
    requires forall i | 0 < i < k :: target[..i] in t && t[target[..i]] == Dir
    ensures Placeable(target[..k], Dir) && Parents(t, target[..k])
  {
    forall i | 0 < i < k ensures target[..k][..i] == target[..i] {
      PrefixOfPrefix(target, i, k);
    }
    forall i | 0 <= i < k ensures IsName(target[..k][i]) {
      assert target[..k][i] == target[i];
    }
  }

  /** `ensureNewPath`. */
  method EnsureNewPath(fs: FileSystem, dest: Path, target: Path, ghost before: Nodes, ghost t: Tree)
    returns (r: Outcome, ghost t': Tree)
    requires Site(fs.nodes, dest, t) && Confined(before, fs.nodes, dest) && Unpackable(target)
    modifies fs
    ensures Site(fs.nodes, dest, t') && Confined(before, fs.nodes, dest)
    ensures Tracked(before, dest, old(fs.history), fs.history)
    ensures fs.calls >= old(fs.calls) && (r == OsFault ==> Faulted(fs.faults, old(fs.calls), fs.calls))
    ensures r == Done ==> AddParents(t, target, 1) == Some(t') && target !in t' && Parents(t', target)
    ensures r == Rejected ==> forall node :: AddNew(t, target, node) == None
  {
    hide Site, Confined;
    r, t' := EnsurePathParent(fs, dest, target, before, t);
    if r == Done {
      AddParentsAdds(t, target, 1);
      LookAt(fs.nodes, dest, t', target);
      ghost var looking := fs.calls;
      var info := fs.Lstat(dest + target);
      match info
      case StatError =>
        r := OsFault;
        assert fs.faults(looking).Some?;
      case Present(_) => r := Rejected;
      case Absent =>
    }
  }

  /** `ensureDirectory`. */
  method EnsureDirectory(fs: FileSystem, dest: Path, target: Path, ghost before: Nodes, ghost t: Tree)
    returns (r: Outcome, ghost t': Tree)
    requires Site(fs.nodes, dest, t) && Confined(before, fs.nodes, dest) && Unpackable(target)
    modifies fs
    ensures Site(fs.nodes, dest, t') && Confined(before, fs.nodes, dest)
    ensures Tracked(before, dest, old(fs.history), fs.history)
    ensures fs.calls >= old(fs.calls) && (r == OsFault ==> Faulted(fs.faults, old(fs.calls), fs.calls))
    ensures r == Done ==> AddDir(t, target) == Some(t')
    ensures r == Rejected ==> AddDir(t, target) == None
  {
    hide Site, Confined;
    r, t' := EnsurePathParent(fs, dest, target, before, t);
    if r == Done {
      AddParentsAdds(t, target, 1);
      ghost var h := fs.history;
      r, t' := EnsureParentAt(fs, dest, target, before, t');
    }
  }

  /** Creates a new node whose parents have been ensured. */
  method CreateNew(fs: FileSystem, dest: Path, target: Path, node: Node, ghost before: Nodes, ghost t: Tree)
    returns (r: Outcome, ghost t': Tree)
    requires Site(fs.nodes, dest, t) && Confined(before, fs.nodes, dest) && Unpackable(target)
    requires target !in t && Parents(t, target)
    modifies fs
    ensures Site(fs.nodes, dest, t') && Confined(before, fs.nodes, dest)
    ensures Tracked(before, dest, old(fs.history), fs.history)
    ensures fs.calls >= old(fs.calls) && (r == OsFault ==> Faulted(fs.faults, old(fs.calls), fs.calls))
    ensures r != Rejected
    ensures r == Done ==> t' == t[target := node] && dest + target !in before
                          && dest + target in fs.nodes && fs.nodes[dest + target] == node
  {
    hide Site, Confined;
    LookAt(fs.nodes, dest, t, target);
    NotBefore(before, fs.nodes, dest, dest + target);
    PutAt(before, fs.nodes, dest, t, target, node);
    ghost var making := fs.calls;
    var handle := fs.Create(dest + target, node);
    if handle.None? {
      r, t' := OsFault, t;
      assert fs.faults(making).Some?;
    } else {
      r, t' := Done, t[target := node];
    }
  }

  /** A regular file: exclusive creation, then the copy of its content. */
  method CreateFile(fs: FileSystem, dest: Path, target: Path, mode: nat, content: seq<byte>, ghost before: Nodes,
      ghost t: Tree)
    returns (r: Outcome, ghost t': Tree)
    requires Site(fs.nodes, dest, t) && Confined(before, fs.nodes, dest) && Unpackable(target)
    requires target !in t && Parents(t, target)
    modifies fs
    ensures Site(fs.nodes, dest, t') && Confined(before, fs.nodes, dest)
    ensures Tracked(before, dest, old(fs.history), fs.history)
    ensures fs.calls >= old(fs.calls) && (r == OsFault ==> Faulted(fs.faults, old(fs.calls), fs.calls))
    ensures r != Rejected
    ensures r == Done ==> t' == t[target := File(mode, content)]
  {
    hide Site, Confined;
    r, t' := CreateNew(fs, dest, target, File(mode, []), before, t);
    if r == Done {
      ghost var made, writing := fs.nodes, fs.calls;
      var ok := fs.Write(dest + target, content);
      ghost var n :| 0 <= n <= |content| && (ok ==> n == |content|)
          && fs.nodes == made[dest + target := File(mode, content[..n])];
      ParentsKept(t, target, File(mode, []));
      PutAt(before, made, dest, t', target, File(mode, content[..n]));
      t' := t'[target := File(mode, content[..n])];
      assert content[..|content|] == content;
      if !ok {
        r := OsFault;
        assert fs.faults(writing).Some?;
      }
    }
  }

  lemma ParentsKept(t: Tree, target: Path, node: Node)
    requires Parents(t, target)
    ensures Parents(t[target := node], target)
  {
    forall k | 0 < k < |target| ensures target[..k] != target {
      assert |target[..k]| == k;
    }
  }

  method AddNode(fs: FileSystem, dest: Path, target: Path, node: Node, ghost before: Nodes, ghost t: Tree)
    returns (r: Outcome, ghost t': Tree)
    requires Site(fs.nodes, dest, t) && Confined(before, fs.nodes, dest) && Unpackable(target)
    modifies fs
    ensures Site(fs.nodes, dest, t') && Confined(before, fs.nodes, dest)
    ensures Tracked(before, dest, old(fs.history), fs.history)
    ensures fs.calls >= old(fs.calls) && (r == OsFault ==> Faulted(fs.faults, old(fs.calls), fs.calls))
    ensures r == Done ==> AddNew(t, target, node) == Some(t')
    ensures r == Rejected ==> AddNew(t, target, node) == None
  {
    hide Site, Confined;
    r, t' := EnsureNewPath(fs, dest, target, before, t);
    if r == Done {
      r, t' := CreateNew(fs, dest, target, node, before, t');
    }
  }

  method AddFile(fs: FileSystem, dest: Path, target: Path, mode: nat, content: seq<byte>, ghost before: Nodes,
      ghost t: Tree)
    returns (r: Outcome, ghost t': Tree)
    requires Site(fs.nodes, dest, t) && Confined(before, fs.nodes, dest) && Unpackable(target)
    modifies fs
    ensures Site(fs.nodes, dest, t') && Confined(before, fs.nodes, dest)
    ensures Tracked(before, dest, old(fs.history), fs.history)
    ensures fs.calls >= old(fs.calls) && (r == OsFault ==> Faulted(fs.faults, old(fs.calls), fs.calls))
    ensures r == Done ==> AddNew(t, target, File(mode, content)) == Some(t')
    ensures r == Rejected ==> AddNew(t, target, File(mode, content)) == None
  {
    hide Site, Confined;
    r, t' := EnsureNewPath(fs, dest, target, before, t);
    if r == Done {
      r, t' := CreateFile(fs, dest, target, mode, content, before, t');
    }
  }

  /** The checks on the file that a hard link names. */
  method FindLinkSource(fs: FileSystem, dest: Path, source: Path, ghost before: Nodes, ghost t: Tree)
    returns (r: Outcome, node: Node, ghost t': Tree)
    requires Site(fs.nodes, dest, t) && Confined(before, fs.nodes, dest) && Unpackable(source)
    modifies fs
    ensures Site(fs.nodes, dest, t') && Confined(before, fs.nodes, dest)
    ensures Tracked(before, dest, old(fs.history), fs.history)
    ensures fs.calls >= old(fs.calls) && (r == OsFault ==> Faulted(fs.faults, old(fs.calls), fs.calls))
    ensures r == Done ==> AddParents(t, source, 1) == Some(t') && source in t' && t'[source] == node && node.File?
    ensures r == Rejected ==>
              AddParents(t, source, 1) == None
              || (AddParents(t, source, 1) == Some(t') && !(source in t' && t'[source].File?))
  {
    hide Site, Confined;
    node := Dir;
    r, t' := EnsurePathParent(fs, dest, source, before, t);
    if r == Done {
      AddParentsAdds(t, source, 1);
      LookAt(fs.nodes, dest, t', source);
      ghost var looking := fs.calls;
      var info := fs.Lstat(dest + source);
      match info
      case StatError =>
        r := OsFault;
        assert fs.faults(looking).Some?;
      case Absent => r := Rejected;
      case Present(found) =>
        node := found;
        r := if found.File? then Done else Rejected;
    }
  }

  lemma LinkMeans(nodes: Nodes, dest: Path, t: Tree, target: Path, source: Path)
    requires Site(nodes, dest, t) && Unpackable(target) && Unpackable(source)
    ensures AddLink(t, target, source) ==
            match AddParents(t, source, 1)
            case None => None
            case Some(t1) => if source in t1 && t1[source].File? then AddNew(t1, target, t1[source]) else None
    ensures match AddLink(t, target, source)
            case None => true
            case Some(t') => source in t && t[source].File? && target !in t && Grown(t, t', target, t[source])
  {
    hide AddParents, AddNew, Grown;
    AddLinkExactly(t, target, source);
  }

  method AddHardLink(fs: FileSystem, dest: Path, target: Path, source: Path, ghost before: Nodes, ghost t: Tree)
    returns (r: Outcome, ghost t': Tree)
    requires Site(fs.nodes, dest, t) && Confined(before, fs.nodes, dest) && Unpackable(target) && Unpackable(source)
    modifies fs
    ensures Site(fs.nodes, dest, t') && Confined(before, fs.nodes, dest)
    ensures Tracked(before, dest, old(fs.history), fs.history)
    ensures fs.calls >= old(fs.calls) && (r == OsFault ==> Faulted(fs.faults, old(fs.calls), fs.calls))
    ensures r == Done ==> AddLink(t, target, source) == Some(t')
    ensures r == Done ==> source in t && t[source].File? && target !in t && Grown(t, t', target, t[source])
    ensures r == Rejected ==> AddLink(t, target, source) == None
  {
    hide Site, Confined, AddParents, AddNew, AddLink, Grown;
    LinkMeans(fs.nodes, dest, t, target, source);
    var node;
    r, node, t' := FindLinkSource(fs, dest, source, before, t);
    if r == Done {
      r, t' := AddNode(fs, dest, target, node, before, t');
    }
  }

  /** One round of the loop of `unpackTar`. */
  method UnpackEntry(fs: FileSystem, dest: Path, e: Entry, ghost before: Nodes, ghost t: Tree)
    returns (r: Outcome, ghost t': Tree)
    requires Site(fs.nodes, dest, t) && Confined(before, fs.nodes, dest)
    modifies fs
    ensures Site(fs.nodes, dest, t') && Confined(before, fs.nodes, dest)
    ensures Tracked(before, dest, old(fs.history), fs.history)
    ensures fs.calls >= old(fs.calls) && (r == OsFault ==> Faulted(fs.faults, old(fs.calls), fs.calls))
    ensures r == Done ==> ApplyEntry(t, e) == Some(t')
    ensures r == Rejected ==> ApplyEntry(t, e) == None
  {
    hide Site, Confined, TarTarget, AddParents, AddNew, AddDir, AddLink;
    r, t' := Rejected, t;
    var target := TarTarget(e.name);
    AcceptedNamesAreUnpackable(e.name);
    if target.None? {
      return;
    }
    match e.kind
    case DirEntry => r, t' := EnsureDirectory(fs, dest, target.value, before, t);
    case RegEntry(mode, content) => r, t' := AddFile(fs, dest, target.value, Perm(mode), content, before, t);
    case SymlinkEntry(linkname) => r, t' := AddNode(fs, dest, target.value, Symlink(linkname), before, t);
    case LinkEntry(linkname) =>
      var source := TarTarget(linkname);
      AcceptedNamesAreUnpackable(linkname);
      if source.Some? {
        r, t' := AddHardLink(fs, dest, target.value, source.value, before, t);
      }
    case OtherEntry =>
  }

  /** One of the first `n` looks at the context found it cancelled. */
  ghost predicate Cancelled(cancelled: nat -> bool, n: nat) {
    exists i: nat :: i < n && cancelled(i)
  }

  lemma NotCancelledYet(cancelled: nat -> bool)
    ensures !Cancelled(cancelled, 0)
  {
  }

  lemma CancelledNext(cancelled: nat -> bool, i: nat, n: nat)
    requires i < n
    ensures Cancelled(cancelled, i + 1) <==> Cancelled(cancelled, i) || cancelled(i)
    ensures cancelled(i) ==> Cancelled(cancelled, n)
  {
  }

  /** `unpackTar` into an existing real directory; `cancelled(i)` is what the context says before the
      `i`-th header is read, the one that meets the end of the archive included.  Whatever the archive
      holds and whichever calls fail, every state on the way is confined; the result is the specified
      tree, and the archive is refused only when the specification refuses it. */
  method UnpackTar(fs: FileSystem, dest: Path, entries: seq<Entry>, cancelled: nat -> bool, ghost t: Tree)
    returns (r: Outcome, ghost t': Tree)
    requires Site(fs.nodes, dest, t)
    modifies fs
    ensures Site(fs.nodes, dest, t') && Confined(old(fs.nodes), fs.nodes, dest)
    ensures Tracked(old(fs.nodes), dest, old(fs.history), fs.history)
    ensures r == Done ==> ApplyAll(t, entries) == Some(t')
    ensures r == Rejected ==> ApplyAll(t, entries) == None
    ensures r == OsFault ==> Faulted(fs.faults, old(fs.calls), fs.calls) || Cancelled(cancelled, |entries| + 1)
    ensures r == Done ==> !Cancelled(cancelled, |entries| + 1)
  {
    hide Site, Confined, ApplyEntry;
    assert ApplyAll(t, entries[..0]) == Some(t);
    hide ApplyAll, Tracked, Faulted, Cancelled;
    r, t' := Done, t;
    TrackedSelf(fs.nodes, dest, fs.history);
    NotCancelledYet(cancelled);
    ConfinedSelf(fs.nodes, dest, t);
    var i := 0;
    while i < |entries|
      invariant i <= |entries| && r == Done
      invariant Site(fs.nodes, dest, t') && Confined(old(fs.nodes), fs.nodes, dest)
      invariant Tracked(old(fs.nodes), dest, old(fs.history), fs.history)
      invariant fs.calls >= old(fs.calls)
      invariant ApplyAll(t, entries[..i]) == Some(t') && !Cancelled(cancelled, i)
    {
      CancelledNext(cancelled, i, |entries| + 1);
      if cancelled(i) {
        r := OsFault;
        return;
      }
      ApplyAllSnoc(t, entries, i);
      ghost var history, calls := fs.history, fs.calls;
      r, t' := UnpackEntry(fs, dest, entries[i], old(fs.nodes), t');
      TrackedOn(old(fs.nodes), dest, old(fs.history), history, fs.history);
      if r != Done {
        if r == Rejected {
          ApplyAllFails(t, entries, i + 1);
        } else {
          FaultedSince(fs.faults, old(fs.calls), calls, fs.calls);
        }
        return;
      }
      i := i + 1;
    }
    CancelledNext(cancelled, i, |entries| + 1);
    if cancelled(i) {
      r := OsFault;
    }
    assert entries[..i] == entries;
  }

  lemma ConfinedSelf(nodes: Nodes, dest: Path, t: Tree)
    requires Site(nodes, dest, t)
    ensures Confined(nodes, nodes, dest)
  {
    forall p | p in nodes && StrictlyBelow(dest, p) ensures RealDir(nodes, p[..|p| - 1]) {
      var rel := p[|dest|..];
      assert dest + rel == p && rel in t;
      assert Parents(t, rel);
      ParentIsReal(nodes, dest, t, rel);
    }
  }
}
