/** Names in a tar archive: lexical cleaning, and the names that may be unpacked. */
module TarPaths {
  import opened Basics

  const DOCKERFILE_STAGING: string := ".com.apple.container"
  const COMPLETION_MARKER: string := ".container-builder-shim-complete"

  /** A relative path as its components. */
  type Path = seq<string>

  const DOCKERFILE: Path := [DOCKERFILE_STAGING, "Dockerfile"]
  const DOCKERIGNORE: Path := [DOCKERFILE_STAGING, "Dockerfile.dockerignore"]

  // ---- splitting and joining ----

  function Split(s: string): (parts: seq<string>)
    ensures |parts| > 0
  {
    if s == "" then [""]
    else
      var rest := Split(s[1..]);
      if s[0] == '/' then [""] + rest else [[s[0]] + rest[0]] + rest[1..]
  }

  function Join(parts: seq<string>): string {
    if parts == [] then ""
    else if |parts| == 1 then parts[0]
    else parts[0] + "/" + Join(parts[1..])
  }

  predicate IsComponent(s: string) { s != "" && '/' !in s }

  /** A component that names something below its parent. */
  predicate IsName(s: string) { IsComponent(s) && s != "." && s != ".." }

  ghost predicate AllNames(p: Path) { forall i | 0 <= i < |p| :: IsName(p[i]) }

  lemma {:induction false} SplitSingle(s: string)
    requires '/' !in s
    ensures Split(s) == [s]
  {
    if s != "" {
      SplitSingle(s[1..]);
      assert [s[0]] + s[1..] == s;
    }
  }

  lemma {:induction false} SplitAfterSlash(a: string, b: string)
    requires '/' !in a
    ensures Split(a + "/" + b) == [a] + Split(b)
  {
    var s := a + "/" + b;
    if a == "" {
      assert s[1..] == b;
    } else {
      assert s[1..] == a[1..] + "/" + b;
      SplitAfterSlash(a[1..], b);
      assert [a[0]] + a[1..] == a;
    }
  }

  lemma {:induction false} SplitJoin(p: Path)
    requires p != [] && forall i | 0 <= i < |p| :: '/' !in p[i]
    ensures Split(Join(p)) == p
  {
    if |p| == 1 {
      SplitSingle(p[0]);
    } else {
      SplitJoin(p[1..]);
      SplitAfterSlash(p[0], Join(p[1..]));
    }
  }

  /** Every name is the join of components without a slash. */
  lemma {:induction false} SplitHasNoSlash(s: string)
    ensures Join(Split(s)) == s && forall i | 0 <= i < |Split(s)| :: '/' !in Split(s)[i]
  {
    if s != "" {
      SplitHasNoSlash(s[1..]);
      var rest := Split(s[1..]);
      if s[0] == '/' {
        assert ([""] + rest)[1..] == rest;
      } else {
        assert ([[s[0]] + rest[0]] + rest[1..])[1..] == rest[1..];
      }
    }
  }

  // ---- lexical cleaning ----

  predicate IsRooted(s: string) { s != "" && s[0] == '/' }

  /** One pass over the components: drops empty ones and ".", and lets ".." take back a name. */
  function Reduce(rooted: bool, kept: Path, rest: seq<string>): Path
    decreases |rest|
  {
    if rest == [] then kept
    else if rest[0] == "" || rest[0] == "." then Reduce(rooted, kept, rest[1..])
    else if rest[0] == ".." then
      if kept != [] && kept[|kept| - 1] != ".." then Reduce(rooted, kept[..|kept| - 1], rest[1..])
      else if rooted then Reduce(rooted, kept, rest[1..])
      else Reduce(rooted, kept + [".."], rest[1..])
    else Reduce(rooted, kept + [rest[0]], rest[1..])
  }

  function CleanParts(name: string): Path { Reduce(IsRooted(name), [], Split(name)) }

  /** The lexically shortest equivalent of a slash-separated name. */
  function Clean(name: string): string {
    var joined := (if IsRooted(name) then "/" else "") + Join(CleanParts(name));
    if joined == "" then "." else joined
  }

  /** The cleaned name stays below the directory it is evaluated in. */
  predicate IsLocal(clean: string) {
    && clean != "" && !IsRooted(clean)
    && clean != ".." && !("../" <= clean)
  }

  predicate Reserved(clean: string) {
    clean == DOCKERFILE_STAGING || DOCKERFILE_STAGING + "/" <= clean || clean == COMPLETION_MARKER
  }

  /** `tarTarget`, as the components below the destination. */
  function TarTarget(name: string): Option<Path> {
    var clean := Clean(name);
    if clean == "." || !IsLocal(clean) || Reserved(clean) then None else Some(Split(clean))
  }

  // ---- what cleaning achieves ----

  /** Names, preceded by ".." components that can occur only at the front. */
  ghost predicate Reduced(rooted: bool, p: Path) {
    forall i | 0 <= i < |p| ::
      IsName(p[i]) || (p[i] == ".." && !rooted && forall j | 0 <= j < i :: p[j] == "..")
  }

  lemma {:induction false} ReduceReduces(rooted: bool, kept: Path, rest: seq<string>)
    requires Reduced(rooted, kept) && forall i | 0 <= i < |rest| :: '/' !in rest[i]
    ensures Reduced(rooted, Reduce(rooted, kept, rest))
    decreases |rest|
  {
    if rest != [] {
      if rest[0] == "" || rest[0] == "." {
        ReduceReduces(rooted, kept, rest[1..]);
      } else if rest[0] == ".." {
        if kept != [] && kept[|kept| - 1] != ".." {
          ReduceReduces(rooted, kept[..|kept| - 1], rest[1..]);
        } else if rooted {
          ReduceReduces(rooted, kept, rest[1..]);
        } else {
          ReduceReduces(rooted, kept + [".."], rest[1..]);
        }
      } else {
        ReduceReduces(rooted, kept + [rest[0]], rest[1..]);
      }
    }
  }

  lemma CleanPartsReduced(name: string)
    ensures Reduced(IsRooted(name), CleanParts(name))
  {
    SplitHasNoSlash(name);
    ReduceReduces(IsRooted(name), [], Split(name));
  }

  lemma {:induction false} ReduceNames(kept: Path, rest: Path)
    requires AllNames(rest)
    ensures Reduce(false, kept, rest) == kept + rest
    decreases |rest|
  {
    if rest == [] {
      assert kept + rest == kept;
    } else {
      ReduceNames(kept + [rest[0]], rest[1..]);
      assert kept + [rest[0]] + rest[1..] == kept + rest;
    }
  }

  // ---- what cleaning means: a rewriting of components with exactly one normal form ----

  /** One simplification: an empty or "." component goes, a name goes together with a ".." right after it,
      and above the root there is only the root. */
  ghost predicate Simplifies(rooted: bool, p: Path, q: Path) {
    || (exists i | 0 <= i < |p| :: (p[i] == "" || p[i] == ".") && q == p[..i] + p[i + 1..])
    || (exists i | 0 <= i < |p| - 1 :: IsName(p[i]) && p[i + 1] == ".." && q == p[..i] + p[i + 2..])
    || (rooted && p != [] && p[0] == ".." && q == p[1..])
  }

  /** Any number of simplifications, one after the other. */
  ghost predicate SimplifiesTo(rooted: bool, p: Path, q: Path)
    decreases |p|
  {
    p == q || exists r: Path :: |r| < |p| && Simplifies(rooted, p, r) && SimplifiesTo(rooted, r, q)
  }

  lemma {:induction false} ReduceConcat(rooted: bool, kept: Path, a: seq<string>, b: seq<string>)
    ensures Reduce(rooted, kept, a + b) == Reduce(rooted, Reduce(rooted, kept, a), b)
    decreases |a|
  {
    if a == [] {
      assert a + b == b;
    } else {
      assert (a + b)[1..] == a[1..] + b;
      var next := AfterPart(rooted, kept, a[0]);
      ReduceConcat(rooted, next, a[1..], b);
    }
  }

  /** What one component makes of those kept so far. */
  function AfterPart(rooted: bool, kept: Path, part: string): (r: Path)
    ensures forall rest | rest != [] && rest[0] == part :: Reduce(rooted, kept, rest) == Reduce(rooted, r, rest[1..])
  {
    if part == "" || part == "." then kept
    else if part == ".." then
      if kept != [] && kept[|kept| - 1] != ".." then kept[..|kept| - 1]
      else if rooted then kept
      else kept + [".."]
    else kept + [part]
  }

  /** Removing `gone` between `a` and `b` changes nothing when it leaves what `a` kept as it is. */
  lemma ReduceWithout(rooted: bool, a: seq<string>, gone: seq<string>, b: seq<string>)
    requires var kept := Reduce(rooted, [], a); Reduce(rooted, kept, gone) == kept
    ensures Reduce(rooted, [], a + gone + b) == Reduce(rooted, [], a + b)
  {
    ReduceConcat(rooted, [], a + gone, b);
    ReduceConcat(rooted, [], a, gone);
    ReduceConcat(rooted, [], a, b);
  }

  /** No simplification changes the result. */
  lemma SimplifyingKeeps(rooted: bool, p: Path, q: Path)
    requires Simplifies(rooted, p, q)
    ensures Reduce(rooted, [], p) == Reduce(rooted, [], q) && |q| < |p|
  {
    if i :| 0 <= i < |p| && (p[i] == "" || p[i] == ".") && q == p[..i] + p[i + 1..] {
      WithoutIdle(rooted, p, i);
    } else if i :| 0 <= i < |p| - 1 && IsName(p[i]) && p[i + 1] == ".." && q == p[..i] + p[i + 2..] {
      WithoutBack(rooted, p, i);
    }
  }

  lemma WithoutIdle(rooted: bool, p: Path, i: nat)
    requires i < |p| && (p[i] == "" || p[i] == ".")
    ensures Reduce(rooted, [], p) == Reduce(rooted, [], p[..i] + p[i + 1..])
  {
    assert p == p[..i] + [p[i]] + p[i + 1..];
    DropIdle(rooted, Reduce(rooted, [], p[..i]), p[i]);
    hide Reduce;
    ReduceWithout(rooted, p[..i], [p[i]], p[i + 1..]);
  }

  lemma WithoutBack(rooted: bool, p: Path, i: nat)
    requires i < |p| - 1 && IsName(p[i]) && p[i + 1] == ".."
    ensures Reduce(rooted, [], p) == Reduce(rooted, [], p[..i] + p[i + 2..])
  {
    assert p == p[..i] + [p[i], ".."] + p[i + 2..];
    DropBack(rooted, Reduce(rooted, [], p[..i]), p[i]);
    hide Reduce;
    ReduceWithout(rooted, p[..i], [p[i], ".."], p[i + 2..]);
  }

  lemma DropIdle(rooted: bool, kept: Path, part: string)
    requires part == "" || part == "."
    ensures Reduce(rooted, kept, [part]) == kept
  {
    assert [part][1..] == [];
  }

  lemma DropBack(rooted: bool, kept: Path, name: string)
    requires IsName(name)
    ensures Reduce(rooted, kept, [name, ".."]) == kept
  {
    var more := kept + [name];
    assert [name, ".."][1..] == [".."] && [".."][1..] == [];
    assert more[..|more| - 1] == kept;
  }

  /** Only what is in normal form cannot be simplified. */
  lemma SimplifyOnce(rooted: bool, p: Path) returns (q: Path)
    requires !Reduced(rooted, p) && forall i | 0 <= i < |p| :: '/' !in p[i]
    ensures Simplifies(rooted, p, q) && forall i | 0 <= i < |q| :: '/' !in q[i]
  {
    var i := FirstBad(rooted, p);
    if p[i] == "" || p[i] == "." {
      q := p[..i] + p[i + 1..];
    } else if i == 0 {
      q := p[1..];
    } else {
      assert IsName(p[i - 1]);
      q := p[..i - 1] + p[i - 1 + 2..];
    }
  }

  /** The component at which a path leaves the normal form. */
  lemma {:induction false} FirstBad(rooted: bool, p: Path) returns (i: nat)
    requires !Reduced(rooted, p)
    ensures i < |p| && Reduced(rooted, p[..i]) && !IsName(p[i])
    ensures p[i] == ".." ==> if i == 0 then rooted else IsName(p[i - 1])
  {
    var n := |p| - 1;
    if Reduced(rooted, p[..n]) {
      i := n;
      if p[n] == ".." && n > 0 && !IsName(p[n - 1]) {
        assert p[..n][n - 1] == "..";
        assert forall j | 0 <= j < n :: p[j] == p[..n][j] == "..";
      }
    } else {
      i := FirstBad(rooted, p[..n]);
      assert p[..n][..i] == p[..i];
    }
  }

  /** A path in normal form is left as it is. */
  lemma {:induction false} ReduceFixed(rooted: bool, p: Path)
    requires Reduced(rooted, p)
    ensures Reduce(rooted, [], p) == p
  {
    if p != [] {
      var n := |p| - 1;
      ReduceFixed(rooted, p[..n]);
      assert p == p[..n] + [p[n]];
      ReduceConcat(rooted, [], p[..n], [p[n]]);
      assert [p[n]][1..] == [];
      assert n > 0 ==> p[..n][n - 1] == p[n - 1];
    }
  }

  lemma {:induction false} SimplifiedIsReduced(rooted: bool, p: Path, q: Path)
    requires SimplifiesTo(rooted, p, q)
    ensures Reduce(rooted, [], p) == Reduce(rooted, [], q)
    decreases |p|
  {
    if p != q {
      var r: Path :| |r| < |p| && Simplifies(rooted, p, r) && SimplifiesTo(rooted, r, q);
      SimplifyingKeeps(rooted, p, r);
      SimplifiedIsReduced(rooted, r, q);
    }
  }

  lemma {:induction false} SimplifiesToReduced(rooted: bool, p: Path)
    requires forall i | 0 <= i < |p| :: '/' !in p[i]
    ensures SimplifiesTo(rooted, p, Reduce(rooted, [], p))
    decreases |p|
  {
    if Reduced(rooted, p) {
      ReduceFixed(rooted, p);
    } else {
      var q := SimplifyOnce(rooted, p);
      SimplifyingKeeps(rooted, p, q);
      SimplifiesToReduced(rooted, q);
    }
  }

  /** Whatever is simplified first, a path has exactly one normal form, and that is what cleaning gives. */
  lemma CleanIsNormalForm(rooted: bool, p: Path, q: Path)
    requires forall i | 0 <= i < |p| :: '/' !in p[i]
    ensures q == Reduce(rooted, [], p) <==> Reduced(rooted, q) && SimplifiesTo(rooted, p, q)
  {
    ReduceReduces(rooted, [], p);
    SimplifiesToReduced(rooted, p);
    if Reduced(rooted, q) && SimplifiesTo(rooted, p, q) {
      SimplifiedIsReduced(rooted, p, q);
      ReduceFixed(rooted, q);
    }
  }

  ghost predicate AllComponents(p: Path) { forall i | 0 <= i < |p| :: IsComponent(p[i]) }

  lemma JoinNotRooted(p: Path)
    requires p != [] && AllComponents(p)
    ensures Join(p) != "" && !IsRooted(Join(p))
  {
    if |p| > 1 {
      assert Join(p)[0] == p[0][0];
    }
  }

  lemma JoinEquals(p: Path, head: string)
    requires p != [] && AllComponents(p) && IsComponent(head)
    ensures Join(p) == head <==> p == [head]
  {
    SplitJoin(p);
    SplitSingle(head);
  }

  /** The first component of a joined path can be read off its beginning. */
  lemma JoinBegins(p: Path, head: string)
    requires p != [] && AllComponents(p) && IsComponent(head)
    ensures head + "/" <= Join(p) <==> |p| > 1 && p[0] == head
  {
    var s := Join(p);
    SplitJoin(p);
    if head + "/" <= s {
      var tail := s[|head| + 1..];
      assert s == head + "/" + tail;
      SplitAfterSlash(head, tail);
    }
    if |p| > 1 && p[0] == head {
      assert s == (head + "/") + Join(p[1..]);
    }
  }

  lemma ReservedByParts(p: Path)
    requires p != [] && AllComponents(p)
    ensures Reserved(Join(p)) <==> p[0] == DOCKERFILE_STAGING || p == [COMPLETION_MARKER]
  {
    hide Join;
    JoinEquals(p, DOCKERFILE_STAGING);
    JoinBegins(p, DOCKERFILE_STAGING);
    JoinEquals(p, COMPLETION_MARKER);
  }

  lemma LocalByParts(p: Path)
    requires p != [] && AllComponents(p)
    ensures IsLocal(Join(p)) <==> p[0] != ".."
    ensures Join(p) == "." <==> p == ["."]
  {
    hide Join;
    JoinNotRooted(p);
    JoinEquals(p, ".");
    JoinEquals(p, "..");
    JoinBegins(p, "..");
  }

  /** Paths that unpacking may create: below the destination, outside the reserved names. */
  ghost predicate Unpackable(p: Path) {
    p != [] && AllNames(p) && p[0] != DOCKERFILE_STAGING && p != [COMPLETION_MARKER]
  }

  /** When and to what a name is accepted, on components instead of strings. */
  lemma TarTargetByParts(name: string)
    ensures TarTarget(name) ==
            var p := CleanParts(name);
            if IsRooted(name) || p == [] || p[0] == ".." || p[0] == DOCKERFILE_STAGING || p == [COMPLETION_MARKER]
            then None else Some(p)
  {
    hide Join, Reserved, IsLocal;
    var p := CleanParts(name);
    CleanPartsReduced(name);
    if IsRooted(name) {
      RootedNotLocal(Join(p));
    } else if p == [] {
      EmptyJoin();
    } else {
      LocalByParts(p);
      ReservedByParts(p);
      SplitJoin(p);
      JoinNotRooted(p);
      assert "" + Join(p) == Join(p);
    }
  }

  /** Which names are accepted, and to which path: a relative name whose components simplify to a path
      that may be unpacked.  The components are those that the slashes separate. */
  lemma AcceptedExactly(parts: seq<string>, p: Path)
    requires parts != [] && forall i | 0 <= i < |parts| :: '/' !in parts[i]
    ensures TarTarget(Join(parts)) == Some(p) <==>
              !("/" <= Join(parts)) && SimplifiesTo(false, parts, p) && Unpackable(p)
  {
    hide Join, Split, SimplifiesTo, Reduce;
    var name := Join(parts);
    SplitJoin(parts);
    TarTargetByParts(name);
    CleanPartsReduced(name);
    CleanIsNormalForm(false, parts, p);
    assert IsRooted(name) <==> "/" <= name;
  }

  lemma RootedNotLocal(s: string)
    ensures !IsLocal("/" + s)
  {
    assert ("/" + s)[0] == '/';
  }

  lemma EmptyJoin()
    ensures Join([]) == ""
  {
  }

  /** An accepted name never leaves the destination and never meets a reserved name. */
  lemma AcceptedNamesAreUnpackable(name: string)
    ensures TarTarget(name).Some? ==> Unpackable(TarTarget(name).value)
  {
    TarTargetByParts(name);
    CleanPartsReduced(name);
  }

  /** Cleaning is a projection: exactly the unpackable paths are accepted unchanged. */
  lemma UnpackableNamesAreAccepted(p: Path)
    requires p != [] && AllComponents(p)
    ensures TarTarget(Join(p)) == Some(p) <==> Unpackable(p)
  {
    hide Join, Split;
    TarTargetByParts(Join(p));
    AcceptedNamesAreUnpackable(Join(p));
    SplitJoin(p);
    JoinNotRooted(p);
    if AllNames(p) {
      ReduceNames([], p);
      assert [] + p == p;
    }
  }
}
