/** What unpacking does to the tree below the destination, one archive entry at a time. */
module UnpackTree {
  import opened Basics
  import opened TarPaths

  datatype Node = Dir | File(mode: nat, content: seq<byte>) | Symlink(target: string)

  /** The nodes below the destination, which itself is a directory. */
  type Tree = map<Path, Node>

  datatype Kind =
    | DirEntry
    | RegEntry(mode: int, content: seq<byte>)
    | SymlinkEntry(linkname: string)
    | LinkEntry(linkname: string)
    | OtherEntry

  datatype Entry = Entry(name: string, kind: Kind)

  /** `ensurePathParent` from the `k`-component prefix on: makes missing parents, and fails at a
      parent that is not a directory. */
  function AddParents(t: Tree, target: Path, k: nat): Option<Tree>
    decreases |target| - k
  {
    if k >= |target| then Some(t)
    else if target[..k] !in t then AddParents(t[target[..k] := Dir], target, k + 1)
    else if t[target[..k]].Dir? then AddParents(t, target, k + 1)
    else None
  }

  /** `ensureNewPath` followed by the creation of `node`. */
  function AddNew(t: Tree, target: Path, node: Node): Option<Tree> {
    match AddParents(t, target, 1)
    case None => None
    case Some(t1) => if target in t1 then None else Some(t1[target := node])
  }

  /** `ensureDirectory`. */
  function AddDir(t: Tree, target: Path): Option<Tree> {
    match AddParents(t, target, 1)
    case None => None
    case Some(t1) =>
      if target !in t1 then Some(t1[target := Dir]) else if t1[target].Dir? then Some(t1) else None
  }

  function AddLink(t: Tree, target: Path, source: Path): Option<Tree> {
    match AddParents(t, source, 1)
    case None => None
    case Some(t1) => if source in t1 && t1[source].File? then AddNew(t1, target, t1[source]) else None
  }

  /** The nine permission bits. */
  function Perm(mode: int): nat { mode % 512 }

  /** The permissions of owner, group and others are those of the mode, and there are no other bits. */
  lemma PermBits(mode: int)
    ensures Perm(mode) / 64 == mode / 64 % 8 && Perm(mode) / 8 % 8 == mode / 8 % 8 && Perm(mode) % 8 == mode % 8
  {
    var q, p := mode / 512, Perm(mode);
    assert mode == 512 * q + p;
    OwnerBits(q, p);
    GroupBits(q, p);
  }

  lemma OwnerBits(q: int, p: nat)
    requires p < 512
    ensures (512 * q + p) / 64 % 8 == p / 64
  {
    assert (512 * q + p) / 64 == 8 * q + p / 64;
  }

  lemma GroupBits(q: int, p: nat)
    requires p < 512
    ensures (512 * q + p) / 8 % 8 == p / 8 % 8 && (512 * q + p) % 8 == p % 8
  {
    assert 512 * q + p == 8 * (64 * q + p / 8) + p % 8;
    assert (512 * q + p) / 8 == 64 * q + p / 8;
  }

  function ApplyEntry(t: Tree, e: Entry): Option<Tree> {
    match TarTarget(e.name)
    case None => None
    case Some(target) =>
      match e.kind
      case DirEntry => AddDir(t, target)
      case RegEntry(mode, content) => AddNew(t, target, File(Perm(mode), content))
      case SymlinkEntry(linkname) => AddNew(t, target, Symlink(linkname))
      case LinkEntry(linkname) =>
        (match TarTarget(linkname)
         case None => None
         case Some(source) => AddLink(t, target, source))
      case OtherEntry => None
  }

  function ApplyAll(t: Tree, entries: seq<Entry>): Option<Tree> {
    if entries == [] then Some(t)
    else
      match ApplyAll(t, entries[..|entries| - 1])
      case None => None
      case Some(t1) => ApplyEntry(t1, entries[|entries| - 1])
  }

  lemma ApplyAllSnoc(t: Tree, entries: seq<Entry>, i: nat)
    requires i < |entries|
    ensures ApplyAll(t, entries[..i + 1]) ==
            match ApplyAll(t, entries[..i])
            case None => None
            case Some(t1) => ApplyEntry(t1, entries[i])
  {
    hide ApplyEntry;
    assert entries[..i + 1][..i] == entries[..i];
  }

  /** An archive fails with its first bad entry. */
  lemma {:induction false} ApplyAllFails(t: Tree, entries: seq<Entry>, i: nat)
    requires i <= |entries| && ApplyAll(t, entries[..i]) == None
    ensures ApplyAll(t, entries) == None
    decreases |entries| - i
  {
    hide ApplyEntry;
    if i == |entries| {
      assert entries[..i] == entries;
    } else {
      ApplyAllSnoc(t, entries, i);
      ApplyAllFails(t, entries, i + 1);
    }
  }

  // ---- the shape of every tree that unpacking reaches ----

  ghost predicate IsPrefix(p: Path, q: Path) { |p| <= |q| && q[..|p|] == p }

  /** Every node has only directories above it. */
  ghost predicate Rooted(t: Tree) {
    forall p, k | p in t && 0 < k < |p| :: p[..k] in t && t[p[..k]] == Dir
  }

  /** Only names outside the reserved ones; a marker can only be an implied directory. */
  ghost predicate NamesOk(t: Tree) {
    forall p | p in t :: p != [] && AllNames(p) && p[0] != DOCKERFILE_STAGING
        && (p == [COMPLETION_MARKER] ==> t[p] == Dir)
  }

  /** Nothing that was there is removed or replaced. */
  ghost predicate Extends(t: Tree, t': Tree) {
    forall p | p in t :: p in t' && t'[p] == t[p]
  }

  ghost predicate Parents(t: Tree, target: Path) {
    forall k | 0 < k < |target| :: target[..k] in t && t[target[..k]] == Dir
  }

  lemma PrefixOfPrefix(p: Path, i: nat, k: nat)
    requires i <= k <= |p|
    ensures p[..k][..i] == p[..i]
  {
  }

  /** What `AddParents` adds, and exactly when it succeeds. */
  lemma {:induction false} AddParentsAdds(t: Tree, target: Path, k: nat)
    requires 1 <= k && (forall i | 0 < i < k && i < |target| :: target[..i] in t && t[target[..i]] == Dir)
    ensures AddParents(t, target, k).Some? <==>
              forall i | 0 < i < |target| && target[..i] in t :: t[target[..i]] == Dir
    ensures AddParents(t, target, k).Some? ==>
              var t1 := AddParents(t, target, k).value;
              && Extends(t, t1) && Parents(t1, target)
              && (forall p | p in t1 && p !in t :: t1[p] == Dir && 0 < |p| < |target| && target[..|p|] == p)
    decreases |target| - k
  {
    if k < |target| {
      var p := target[..k];
      var t' := if p in t then t else t[p := Dir];
      if t'[p] == Dir {
        assert forall i | 0 < i < k + 1 && i < |target| :: target[..i] in t' && t'[target[..i]] == Dir;
        AddParentsAdds(t', target, k + 1);
        assert forall i | 0 < i < |target| && i != k :: target[..i] != p by {
          assert forall i | 0 < i < |target| :: |target[..i]| == i;
        }
      }
    }
  }

  /** `t'` is `t` with `node` at `target` and directories above it. */
  ghost predicate Grown(t: Tree, t': Tree, target: Path, node: Node) {
    && Extends(t, t') && target in t' && t'[target] == node
    && (forall p | p in t' && p !in t :: p != [] && IsPrefix(p, target) && (p != target ==> t'[p] == Dir))
    && Parents(t', target)
  }

  /** Adding a new node succeeds exactly when its place is free and below directories, and changes nothing
      but that place and its missing parents. */
  lemma AddNewExactly(t: Tree, target: Path, node: Node)
    requires target != []
    ensures AddNew(t, target, node).Some? <==>
              target !in t && forall i | 0 < i < |target| && target[..i] in t :: t[target[..i]] == Dir
    ensures AddNew(t, target, node).Some? ==> Grown(t, AddNew(t, target, node).value, target, node)
  {
    AddParentsAdds(t, target, 1);
    assert target[..|target|] == target;
  }

  lemma {:induction false} ParentsThere(t: Tree, p: Path, k: nat)
    requires Parents(t, p) && k > 0
    ensures AddParents(t, p, k) == Some(t)
    decreases |p| - k
  {
    if k < |p| {
      ParentsThere(t, p, k + 1);
    }
  }

  /** A hard link needs a file of the tree as its source and a free place below directories, nothing more;
      it puts the source's own node there. */
  lemma AddLinkExactly(t: Tree, target: Path, source: Path)
    requires Rooted(t) && target != [] && source != []
    ensures AddLink(t, target, source).Some? <==>
              && source in t && t[source].File? && target !in t
              && forall i | 0 < i < |target| && target[..i] in t :: t[target[..i]] == Dir
    ensures AddLink(t, target, source).Some? ==> Grown(t, AddLink(t, target, source).value, target, t[source])
    ensures source in t && t[source].File? ==> AddLink(t, target, source) == AddNew(t, target, t[source])
  {
    hide AddNew, Grown;
    AddParentsAdds(t, source, 1);
    if source in t && t[source].File? {
      ParentsThere(t, source, 1);
      AddNewExactly(t, target, t[source]);
    }
  }

  lemma AddParentsRooted(t: Tree, target: Path)
    requires Rooted(t) && AddParents(t, target, 1).Some?
    ensures Rooted(AddParents(t, target, 1).value)
  {
    AddParentsAdds(t, target, 1);
    var t1 := AddParents(t, target, 1).value;
    forall p, k | p in t1 && 0 < k < |p| ensures p[..k] in t1 && t1[p[..k]] == Dir {
      if p !in t {
        assert p[..k] == target[..k] by { PrefixOfPrefix(target, k, |p|); }
      }
    }
  }

  lemma AddParentsNames(t: Tree, target: Path)
    requires NamesOk(t) && Unpackable(target) && AddParents(t, target, 1).Some?
    ensures NamesOk(AddParents(t, target, 1).value)
  {
    AddParentsAdds(t, target, 1);
    var t1 := AddParents(t, target, 1).value;
    forall p | p in t1 && p !in t ensures p != [] && AllNames(p) && p[0] != DOCKERFILE_STAGING {
      assert p[0] == target[0];
      forall i | 0 <= i < |p| ensures IsName(p[i]) { assert p[i] == target[..|p|][i] == target[i]; }
    }
  }

  ghost predicate TreeOk(t: Tree) { Rooted(t) && NamesOk(t) }

  lemma AddParentsKeeps(t: Tree, target: Path)
    requires TreeOk(t) && Unpackable(target) && AddParents(t, target, 1).Some?
    ensures var t1 := AddParents(t, target, 1).value; TreeOk(t1) && Extends(t, t1) && Parents(t1, target)
  {
    AddParentsAdds(t, target, 1);
    AddParentsRooted(t, target);
    AddParentsNames(t, target);
  }

  lemma PutKeeps(t: Tree, target: Path, node: Node)
    requires TreeOk(t) && Unpackable(target) && Parents(t, target) && target !in t
    ensures TreeOk(t[target := node]) && Extends(t, t[target := node])
  {
    var t' := t[target := node];
    forall p, k | p in t' && 0 < k < |p| ensures p[..k] in t' && t'[p[..k]] == Dir {
      assert p[..k] in t && t[p[..k]] == Dir;
    }
  }

  lemma AddNewKeeps(t: Tree, target: Path, node: Node)
    requires TreeOk(t) && Unpackable(target) && AddNew(t, target, node).Some?
    ensures var t1 := AddNew(t, target, node).value; TreeOk(t1) && Extends(t, t1)
  {
    AddParentsKeeps(t, target);
    PutKeeps(AddParents(t, target, 1).value, target, node);
  }

  /** Each entry keeps the shape of the tree and replaces nothing. */
  lemma ApplyEntryKeeps(t: Tree, e: Entry)
    requires TreeOk(t) && ApplyEntry(t, e).Some?
    ensures TreeOk(ApplyEntry(t, e).value) && Extends(t, ApplyEntry(t, e).value)
  {
    hide TreeOk, Extends;
    AcceptedNamesAreUnpackable(e.name);
    var target := TarTarget(e.name).value;
    match e.kind
    case DirEntry =>
      AddParentsKeeps(t, target);
      var t1 := AddParents(t, target, 1).value;
      if target !in t1 {
        PutKeeps(t1, target, Dir);
        ExtendsTransitive(t, t1, t1[target := Dir]);
      }
    case RegEntry(mode, content) => AddNewKeeps(t, target, File(Perm(mode), content));
    case SymlinkEntry(linkname) => AddNewKeeps(t, target, Symlink(linkname));
    case LinkEntry(linkname) =>
      AcceptedNamesAreUnpackable(linkname);
      var source := TarTarget(linkname).value;
      AddParentsKeeps(t, source);
      var t1 := AddParents(t, source, 1).value;
      AddNewKeeps(t1, target, t1[source]);
      ExtendsTransitive(t, t1, ApplyEntry(t, e).value);
    case OtherEntry =>
  }

  lemma ExtendsTransitive(t0: Tree, t1: Tree, t2: Tree)
    requires Extends(t0, t1) && Extends(t1, t2)
    ensures Extends(t0, t2)
  {
  }

  lemma {:induction false} ApplyAllKeeps(t: Tree, entries: seq<Entry>)
    requires TreeOk(t) && ApplyAll(t, entries).Some?
    ensures TreeOk(ApplyAll(t, entries).value) && Extends(t, ApplyAll(t, entries).value)
  {
    if entries != [] {
      hide TreeOk, Extends;
      var before := entries[..|entries| - 1];
      ApplyAllKeeps(t, before);
      ApplyEntryKeeps(ApplyAll(t, before).value, entries[|entries| - 1]);
      ExtendsTransitive(t, ApplyAll(t, before).value, ApplyAll(t, entries).value);
    }
  }
}
