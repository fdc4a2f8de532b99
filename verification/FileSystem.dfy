/** A file system whose calls follow symbolic links in every directory they traverse, and any
    of whose calls may fail. */
module FileSystems {
  import opened Basics
  import opened TarPaths
  import opened UnpackTree

  /** Absolute paths by component; the root is the empty path and always a directory. */
  type Nodes = map<Path, Node>

  datatype Lookup = At(path: Path) | Missing | Blocked

  const MAX_LINKS: nat := 40

  /** Walks `rest` from directory `cur`, following symbolic links. */
  function Resolve(nodes: Nodes, cur: Path, rest: seq<string>, links: nat): Lookup
    decreases links, |rest|
  {
    if rest == [] then At(cur)
    else if rest[0] == "" || rest[0] == "." then Resolve(nodes, cur, rest[1..], links)
    else if rest[0] == ".." then Resolve(nodes, if cur == [] then cur else cur[..|cur| - 1], rest[1..], links)
    else
      var next := cur + [rest[0]];
      if next !in nodes then Missing
      else
        match nodes[next]
        case Dir => Resolve(nodes, next, rest[1..], links)
        case File(_, _) => Blocked
        case Symlink(target) =>
          if links == 0 then Blocked
          else Resolve(nodes, if IsRooted(target) then [] else cur, Split(target) + rest[1..], links - 1)
  }

  /** Where a path leads when its last component is not followed. */
  function Locate(nodes: Nodes, path: Path): Lookup
    requires path != []
  {
    match Resolve(nodes, [], path[..|path| - 1], MAX_LINKS)
    case At(dir) => At(dir + [path[|path| - 1]])
    case other => other
  }

  /** Every non-empty prefix of `p` is a directory. */
  ghost predicate RealDir(nodes: Nodes, p: Path) {
    AllNames(p) && forall k | 0 < k <= |p| :: p[..k] in nodes && nodes[p[..k]] == Dir
  }

  lemma {:induction false} ResolveReal(nodes: Nodes, p: Path, k: nat, links: nat)
    requires RealDir(nodes, p) && k <= |p|
    ensures Resolve(nodes, p[..k], p[k..], links) == At(p)
    decreases |p| - k
  {
    if k == |p| {
      assert p[..k] == p;
    } else {
      assert IsName(p[k]);
      assert p[..k] + [p[k]] == p[..k + 1];
      assert p[k..][1..] == p[k + 1..];
      ResolveReal(nodes, p, k + 1, links);
    }
  }

  /** Below real directories a path leads to itself, whatever links exist elsewhere. */
  lemma LocateReal(nodes: Nodes, path: Path)
    requires path != [] && RealDir(nodes, path[..|path| - 1])
    ensures Locate(nodes, path) == At(path)
  {
    var dir := path[..|path| - 1];
    ResolveReal(nodes, dir, 0, MAX_LINKS);
    assert dir[..0] == [] && dir[0..] == dir;
    assert dir + [path[|path| - 1]] == path;
  }

  datatype Stat = Present(node: Node) | Absent | StatError

  class FileSystem {
    var nodes: Nodes
    /** Number of calls made, and which of them fail: after how many bytes, for a write. */
    var calls: nat
    const faults: nat -> Option<nat>
    /** The states that calls have produced. */
    ghost var history: seq<Nodes>

    constructor (nodes: Nodes, faults: nat -> Option<nat>)
      ensures this.nodes == nodes && this.faults == faults && calls == 0 && history == []
    {
      this.nodes, this.faults, calls, history := nodes, faults, 0, [];
    }

    method Lstat(path: Path) returns (r: Stat)
      requires path != []
      modifies this`calls
      ensures calls == old(calls) + 1
      ensures r == if faults(old(calls)).Some? then StatError
                   else match Locate(nodes, path)
                        case At(p) => if p in nodes then Present(nodes[p]) else Absent
                        case Missing => Absent
                        case Blocked => StatError
    {
      var fault := faults(calls);
      calls := calls + 1;
      if fault.Some? {
        return StatError;
      }
      match Locate(nodes, path)
      case At(p) => if p in nodes { r := Present(nodes[p]); } else { r := Absent; }
      case Missing => r := Absent;
      case Blocked => r := StatError;
    }

    /** Exclusive creation, common to mkdir, symlink, link and open with O_EXCL. */
    method Create(path: Path, node: Node) returns (handle: Option<Path>)
      requires path != []
      modifies this
      ensures calls == old(calls) + 1
      ensures var place := Locate(old(nodes), path);
              if faults(old(calls)).None? && place.At? && place.path !in old(nodes)
              then handle == Some(place.path) && nodes == old(nodes)[place.path := node]
                  && history == old(history) + [nodes]
              else handle == None && nodes == old(nodes) && history == old(history)
    {
      handle := None;
      var fault := faults(calls);
      calls := calls + 1;
      if fault.None? {
        var found := Locate(nodes, path);
        if found.At? && found.path !in nodes {
          nodes := nodes[found.path := node];
          history := history + [nodes];
          handle := Some(found.path);
        }
      }
    }

    /** Writes through an open handle; a failing write may leave a part of the content. */
    method Write(handle: Path, content: seq<byte>) returns (ok: bool)
      requires handle in nodes && nodes[handle].File?
      modifies this
      ensures calls == old(calls) + 1
      ensures ok <==> faults(old(calls)).None?
      ensures exists n: nat :: n <= |content| && (ok ==> n == |content|)
                && nodes == old(nodes)[handle := File(old(nodes)[handle].mode, content[..n])]
      ensures history == old(history) + [nodes]
    {
      var fault := faults(calls);
      calls := calls + 1;
      ok := fault.None?;
      var n := if fault.None? || fault.value > |content| then |content| else fault.value;
      nodes := nodes[handle := File(nodes[handle].mode, content[..n])];
      history := history + [nodes];
    }
  }
}
