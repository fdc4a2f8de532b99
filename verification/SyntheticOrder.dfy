/** What the merged walk contains, and exactly when it is in the order its receiver demands. */
module SyntheticOrder {
  import opened Basics
  import opened TarPaths
  import opened SyntheticWalk
  import UnpackTree

  // ---- the order of strings and of paths ----

  lemma {:induction false} StrTrichotomy(a: string, b: string)
    ensures StrLess(a, b) || StrLess(b, a) || a == b
    ensures !(StrLess(a, b) && StrLess(b, a)) && !StrLess(a, a)
  {
    if a != [] {
      StrTrichotomy(a[1..], a[1..]);
      if b != [] {
        StrTrichotomy(a[1..], b[1..]);
        assert a[0] == b[0] && a[1..] == b[1..] ==> a == [a[0]] + a[1..] == b;
      }
    }
  }

  lemma {:induction false} StrTransitive(a: string, b: string, c: string)
    requires StrLess(a, b) && StrLess(b, c)
    ensures StrLess(a, c)
  {
    if a != [] && a[0] == b[0] == c[0] {
      StrTransitive(a[1..], b[1..], c[1..]);
    }
  }

  /** A common beginning does not matter. */
  lemma {:induction false} StrCommon(a: string, b: string, c: string)
    ensures StrLess(a + b, a + c) == StrLess(b, c)
  {
    if a == [] {
      assert a + b == b && a + c == c;
    } else {
      StrCommon(a[1..], b, c);
      assert (a + b)[1..] == a[1..] + b && (a + c)[1..] == a[1..] + c;
    }
  }

  /** Names of which neither begins with the other decide the order, whatever follows them. */
  lemma {:induction false} StrDiverge(a: string, b: string, t: string, u: string)
    requires !(a <= b) && !(b <= a)
    ensures StrLess(a + t, b + u) == StrLess(a, b)
  {
    assert (a + t)[1..] == a[1..] + t && (b + u)[1..] == b[1..] + u;
    if a[0] == b[0] {
      assert a[1..] <= b[1..] ==> a <= b;
      assert b[1..] <= a[1..] ==> b <= a;
      StrDiverge(a[1..], b[1..], t, u);
    }
  }

  /** The order of a directory walk: component by component, a directory before what it contains. */
  predicate PathLess(p: Path, q: Path) {
    q != [] && (p == [] || StrLess(p[0], q[0]) || (p[0] == q[0] && PathLess(p[1..], q[1..])))
  }

  lemma {:induction false} PathAsymmetric(p: Path, q: Path)
    ensures !(PathLess(p, q) && PathLess(q, p)) && !PathLess(p, p)
  {
    if p != [] {
      PathAsymmetric(p[1..], p[1..]);
      StrTrichotomy(p[0], p[0]);
      if q != [] {
        StrTrichotomy(p[0], q[0]);
        PathAsymmetric(p[1..], q[1..]);
      }
    }
  }

  ghost predicate Increasing(ps: seq<Path>) {
    forall i, j | 0 <= i < j < |ps| :: PathLess(ps[i], ps[j])
  }

  // ---- the cached walk and the synthetic entries ----

  /** A walk over what unpacking can leave behind. */
  ghost predicate WalkOk(walk: seq<Path>) {
    Increasing(walk) && forall i | 0 <= i < |walk| :: CachedPath(walk[i])
  }

  ghost predicate CachedPath(p: Path) { p != [] && AllNames(p) && p[0] != DOCKERFILE_STAGING }

  /** Unpacking rejects the staging subtree, so no path in an unpacked tree is a staging path. */
  lemma UnpackedPathsAreCachedPaths(t: UnpackTree.Tree, p: Path)
    requires UnpackTree.TreeOk(t) && p in t
    ensures CachedPath(p)
  {
  }

  ghost predicate StagingEntries(entries: seq<Entry>) {
    && |entries| >= 2 && entries[0].path == DIR
    && (forall i | 0 < i < |entries| :: entries[i].path == DOCKERFILE || entries[i].path == DOCKERIGNORE)
    && (|entries| == 3 ==> entries[1].path == DOCKERFILE && entries[2].path == DOCKERIGNORE)
    && |entries| <= 3
  }

  lemma EntriesForAreStaging(proxy: Option<(seq<byte>, seq<byte>)>, requested: set<Path>)
    ensures EntriesFor(proxy, requested) == [] || StagingEntries(EntriesFor(proxy, requested))
  {
    if proxy.Some? {
      var files := Files(proxy.value);
      assert files[..1] == [files[0]] && files[..0] == [] && files[..2] == files;
      RequestedSnoc(files, requested, 0);
      RequestedSnoc(files, requested, 1);
    }
  }

  /** A generated file that was asked for and is not empty, at its place in the staging directory. */
  ghost predicate IsWanted(proxy: Option<(seq<byte>, seq<byte>)>, requested: set<Path>, e: Entry) {
    && proxy.Some? && e.path in requested && e.data != []
    && (|| (e.path == [".com.apple.container", "Dockerfile"] && e.data == proxy.value.0)
        || (e.path == [".com.apple.container", "Dockerfile.dockerignore"] && e.data == proxy.value.1))
  }

  lemma RequestedList(proxy: (seq<byte>, seq<byte>), requested: set<Path>)
    ensures var files := Files(proxy);
            Requested(files, requested) ==
              (if files[0].path in requested && files[0].data != [] then [files[0]] else [])
              + (if files[1].path in requested && files[1].data != [] then [files[1]] else [])
  {
    var files := Files(proxy);
    assert files[..1] == [files[0]] && files[..0] == [] && files[..2] == files;
    RequestedSnoc(files, requested, 0);
    RequestedSnoc(files, requested, 1);
  }

  lemma WantedIsFile(proxy: Option<(seq<byte>, seq<byte>)>, requested: set<Path>, e: Entry)
    requires proxy.Some?
    ensures IsWanted(proxy, requested, e) <==>
              (e == Files(proxy.value)[0] || e == Files(proxy.value)[1]) && e.path in requested && e.data != []
  {
  }

  /** The entries are exactly the wanted files, and the staging directory if there are any. */
  lemma EntriesForExactly(proxy: Option<(seq<byte>, seq<byte>)>, requested: set<Path>, e: Entry)
    ensures e in EntriesFor(proxy, requested) <==>
              || IsWanted(proxy, requested, e)
              || (e == Entry([".com.apple.container"], []) && exists f :: IsWanted(proxy, requested, f))
  {
    if proxy.Some? {
      RequestedList(proxy.value, requested);
      var files := Files(proxy.value);
      assert |files| == 2;
      forall f ensures IsWanted(proxy, requested, f) <==>
                         (f == files[0] || f == files[1]) && f.path in requested && f.data != []
      {
        WantedIsFile(proxy, requested, f);
      }
      hide IsWanted, Files, Requested;
      assert IsWanted(proxy, requested, files[0]) || IsWanted(proxy, requested, files[1]) <==>
             Requested(files, requested) != [];
    }
  }

  // ---- what the merge contains ----

  function CachedOf(items: seq<Item>): seq<Path> {
    if items == [] then []
    else (if items[0].Cached? then [items[0].path] else []) + CachedOf(items[1..])
  }

  function SyntheticOf(items: seq<Item>): seq<Entry> {
    if items == [] then []
    else (if items[0].Synthetic? then [items[0].entry] else []) + SyntheticOf(items[1..])
  }

  lemma {:induction false} CachedAppend(a: seq<Item>, b: seq<Item>)
    ensures CachedOf(a + b) == CachedOf(a) + CachedOf(b)
  {
    if a == [] {
      assert a + b == b;
    } else {
      var first := if a[0].Cached? then [a[0].path] else [];
      assert (a + b)[1..] == a[1..] + b;
      assert CachedOf(a + b) == first + CachedOf(a[1..] + b) && CachedOf(a) == first + CachedOf(a[1..]);
      hide CachedOf;
      CachedAppend(a[1..], b);
      Associate(first, CachedOf(a[1..]), CachedOf(b));
    }
  }

  lemma {:induction false} SyntheticAppend(a: seq<Item>, b: seq<Item>)
    ensures SyntheticOf(a + b) == SyntheticOf(a) + SyntheticOf(b)
  {
    if a == [] {
      assert a + b == b;
    } else {
      var first := if a[0].Synthetic? then [a[0].entry] else [];
      assert (a + b)[1..] == a[1..] + b;
      assert SyntheticOf(a + b) == first + SyntheticOf(a[1..] + b) && SyntheticOf(a) == first + SyntheticOf(a[1..]);
      hide SyntheticOf;
      SyntheticAppend(a[1..], b);
      Associate(first, SyntheticOf(a[1..]), SyntheticOf(b));
    }
  }

  lemma {:induction false} SyntheticsContents(entries: seq<Entry>)
    ensures CachedOf(Synthetics(entries)) == [] && SyntheticOf(Synthetics(entries)) == entries
  {
    if entries != [] {
      assert Synthetics(entries)[1..] == Synthetics(entries[1..]);
      SyntheticsContents(entries[1..]);
    }
  }

  /** One step of the merge. */
  lemma MergeStep(walk: seq<Path>, entries: seq<Entry>, next: nat) returns (n: nat, a: seq<Item>)
    requires next <= |entries| && walk != []
    ensures next <= n <= |entries| && a == Synthetics(entries[next..n]) && |a| == n - next
    ensures Merged(walk, entries, next) == a + [Cached(walk[0])] + Merged(walk[1..], entries, n)
  {
    n := Advance(entries, next, walk[0]);
    a := Synthetics(entries[next..n]);
  }

  lemma OneCached(p: Path)
    ensures CachedOf([Cached(p)]) == [p] && SyntheticOf([Cached(p)]) == []
  {
    assert [Cached(p)][1..] == [];
  }

  lemma {:induction false} MergeKeepsPaths(walk: seq<Path>, entries: seq<Entry>, next: nat)
    requires next <= |entries|
    ensures CachedOf(Merged(walk, entries, next)) == walk
    ensures |Merged(walk, entries, next)| == |walk| + |entries| - next
  {
    hide CachedOf, Synthetics;
    if walk == [] {
      SyntheticsContents(entries[next..]);
    } else {
      hide Merged;
      var n, a := MergeStep(walk, entries, next);
      MergeKeepsPaths(walk[1..], entries, n);
      SyntheticsContents(entries[next..n]);
      OneCached(walk[0]);
      CachedAppend(a + [Cached(walk[0])], Merged(walk[1..], entries, n));
      CachedAppend(a, [Cached(walk[0])]);
    }
  }

  lemma EntriesAround(a: seq<Item>, p: Path, b: seq<Item>)
    ensures SyntheticOf(a + [Cached(p)] + b) == SyntheticOf(a) + SyntheticOf(b)
  {
    hide SyntheticOf;
    OneCached(p);
    SyntheticAppend(a + [Cached(p)], b);
    SyntheticAppend(a, [Cached(p)]);
  }

  lemma {:induction false} MergeKeepsEntries(walk: seq<Path>, entries: seq<Entry>, next: nat)
    requires next <= |entries|
    ensures SyntheticOf(Merged(walk, entries, next)) == entries[next..]
  {
    hide SyntheticOf, Synthetics;
    if walk == [] {
      SyntheticsContents(entries[next..]);
    } else {
      hide Merged;
      var n, a := MergeStep(walk, entries, next);
      MergeKeepsEntries(walk[1..], entries, n);
      SyntheticsContents(entries[next..n]);
      EntriesAround(a, walk[0], Merged(walk[1..], entries, n));
      assert entries[next..] == entries[next..n] + entries[n..];
    }
  }

  /** Every cached path once and in order, every remaining synthetic entry once and in order. */
  lemma MergeKeepsEverything(walk: seq<Path>, entries: seq<Entry>, next: nat)
    requires next <= |entries|
    ensures CachedOf(Merged(walk, entries, next)) == walk
    ensures SyntheticOf(Merged(walk, entries, next)) == entries[next..]
    ensures |Merged(walk, entries, next)| == |walk| + |entries| - next
  {
    MergeKeepsPaths(walk, entries, next);
    MergeKeepsEntries(walk, entries, next);
  }

  function PathOf(item: Item): Path { if item.Cached? then item.path else item.entry.path }

  function PathsOf(items: seq<Item>): (ps: seq<Path>)
    ensures |ps| == |items| && forall i | 0 <= i < |items| :: ps[i] == PathOf(items[i])
  {
    seq(|items|, i requires 0 <= i < |items| => PathOf(items[i]))
  }

  /** Members of the merge. */
  lemma {:induction false} MergeMembers(walk: seq<Path>, entries: seq<Entry>, next: nat, item: Item)
    requires next <= |entries|
    ensures item in Merged(walk, entries, next) <==>
            if item.Cached? then item.path in walk else item.entry in entries[next..]
  {
    hide Advance;
    if walk != [] {
      var n := Advance(entries, next, walk[0]);
      MergeMembers(walk[1..], entries, n, item);
      assert walk == [walk[0]] + walk[1..];
      assert entries[next..] == entries[next..n] + entries[n..];
    }
  }

  // ---- when the two orders disagree ----

  /** Below ".com" or ".com.apple": first in the walk, but after the staging name as a string. */
  predicate Early(p: Path) { |p| >= 2 && (p[0] == ".com" || p[0] == ".com.apple") }

  /** The staging name continued with a character before the slash: after the staging directory in
      the walk, but before its files as a string. */
  predicate Late(p: Path) {
    p != [] && DOCKERFILE_STAGING < p[0] && p[0][|DOCKERFILE_STAGING|] < '/'
  }

  function Tail(p: Path): string
    requires p != []
  {
    if |p| == 1 then "" else "/" + Join(p[1..])
  }

  lemma JoinTail(p: Path)
    requires p != []
    ensures Join(p) == p[0] + Tail(p)
  {
    if |p| > 1 {
      assert p[0] + "/" + Join(p[1..]) == p[0] + ("/" + Join(p[1..]));
    } else {
      assert p[0] + "" == p[0];
    }
  }

  /** Where the staging name continues with something before the slash. */
  lemma StagingDots(k: nat)
    requires 0 < k < |DOCKERFILE_STAGING|
    ensures DOCKERFILE_STAGING[k] != '/'
    ensures DOCKERFILE_STAGING[k] < '/' <==>
            DOCKERFILE_STAGING[..k] == ".com" || DOCKERFILE_STAGING[..k] == ".com.apple"
  {
    assert |DOCKERFILE_STAGING| == 20;
    assert DOCKERFILE_STAGING[..4] == ".com" && DOCKERFILE_STAGING[..10] == ".com.apple";
  }

  ghost predicate PathTail(u: string) { u == "" || u[0] == '/' }

  lemma ComparePrefix(p: Path, u: string)
    requires CachedPath(p) && PathTail(u) && p[0] <= DOCKERFILE_STAGING
    ensures StrLess(DOCKERFILE_STAGING + u, Join(p)) <==> Early(p)
    ensures StrLess(p[0], DOCKERFILE_STAGING) && !Late(p)
  {
    hide Join;
    var s, x, t := DOCKERFILE_STAGING, p[0], Tail(p);
    JoinTail(p);
    var d := s[|x|..];
    assert s == x + d && s + u == x + (d + u);
    StrCommon(x, d + u, t);
    StrCommon(x, [], d);
    assert x + [] == x;
    StagingDots(|x|);
    assert x == s[..|x|];
  }

  lemma CompareExtension(p: Path, u: string)
    requires CachedPath(p) && PathTail(u) && DOCKERFILE_STAGING <= p[0]
    ensures StrLess(DOCKERFILE_STAGING + u, Join(p)) <==> u == "" || !Late(p)
    ensures StrLess(DOCKERFILE_STAGING, p[0]) && !Early(p)
  {
    hide Join;
    var s, x, t := DOCKERFILE_STAGING, p[0], Tail(p);
    JoinTail(p);
    var v := x[|s|..];
    assert x == s + v && x + t == s + (v + t);
    StrCommon(s, u, v + t);
    StrCommon(s, [], v);
    assert s + [] == s;
    assert v[0] == x[|s|] && IsName(x) && v[0] != '/';
  }

  lemma CompareDiverging(p: Path, u: string)
    requires CachedPath(p) && !(p[0] <= DOCKERFILE_STAGING) && !(DOCKERFILE_STAGING <= p[0])
    ensures StrLess(DOCKERFILE_STAGING + u, Join(p)) <==> StrLess(DOCKERFILE_STAGING, p[0])
    ensures !Early(p) && !Late(p)
  {
    hide Join;
    JoinTail(p);
    StrDiverge(DOCKERFILE_STAGING, p[0], u, Tail(p));
    assert DOCKERFILE_STAGING[..4] == ".com" && DOCKERFILE_STAGING[..10] == ".com.apple";
  }

  /** How a staging path compares with a cached one, as strings and in walk order. */
  lemma Compare(p: Path, u: string)
    requires CachedPath(p) && PathTail(u)
    ensures StrLess(DOCKERFILE_STAGING + u, Join(p)) <==>
            Early(p) || (StrLess(DOCKERFILE_STAGING, p[0]) && (u == "" || !Late(p)))
    ensures Early(p) ==> StrLess(p[0], DOCKERFILE_STAGING)
    ensures Late(p) ==> StrLess(DOCKERFILE_STAGING, p[0])
    ensures StrLess(p[0], DOCKERFILE_STAGING) <==> !StrLess(DOCKERFILE_STAGING, p[0])
  {
    hide Join, StrLess;
    StrTrichotomy(p[0], DOCKERFILE_STAGING);
    if p[0] <= DOCKERFILE_STAGING {
      ComparePrefix(p, u);
    } else if DOCKERFILE_STAGING <= p[0] {
      CompareExtension(p, u);
    } else {
      CompareDiverging(p, u);
    }
  }

  /** What follows the staging name in the path of an entry. */
  function EntryTail(e: Entry): string {
    if e.path == DIR then "" else if e.path == DOCKERFILE then "/Dockerfile" else "/Dockerfile.dockerignore"
  }

  /** A synthetic entry sorts before a cached path in the walk exactly when the staging name does. */
  lemma CompareEntry(entries: seq<Entry>, m: nat, p: Path)
    requires StagingEntries(entries) && m < |entries| && CachedPath(p)
    ensures StrLess(Join(entries[m].path), Join(p)) <==>
            Early(p) || (StrLess(DOCKERFILE_STAGING, p[0]) && (m == 0 || !Late(p)))
    ensures PathLess(entries[m].path, p) <==> StrLess(DOCKERFILE_STAGING, p[0])
    ensures PathLess(p, entries[m].path) <==> !StrLess(DOCKERFILE_STAGING, p[0])
    ensures Early(p) ==> PathLess(p, entries[m].path)
    ensures Late(p) ==> PathLess(entries[m].path, p)
  {
    var e := entries[m];
    Compare(p, EntryTail(e));
    assert e.path[0] == DOCKERFILE_STAGING;
    assert Join(e.path) == DOCKERFILE_STAGING + EntryTail(e) by { JoinEntry(entries, m); }
    hide StrLess, Join;
  }

  lemma JoinEntry(entries: seq<Entry>, m: nat)
    requires StagingEntries(entries) && m < |entries|
    ensures Join(entries[m].path) == DOCKERFILE_STAGING + EntryTail(entries[m])
    ensures EntryTail(entries[m]) == "" <==> m == 0
  {
    JoinTail(entries[m].path);
    assert DOCKERFILE[1..] == ["Dockerfile"] && DOCKERIGNORE[1..] == ["Dockerfile.dockerignore"];
  }

  lemma TwoParts(s: string, a: string, b: string)
    requires StrLess(a, b)
    ensures PathLess([s], [s, a]) && PathLess([s, a], [s, b])
  {
    hide StrLess;
    assert [s][1..] == [] && [s, a][1..] == [a] && [s, b][1..] == [b];
  }

  lemma StagingOrder()
    ensures PathLess(DIR, DOCKERFILE) && PathLess(DIR, DOCKERIGNORE) && PathLess(DOCKERFILE, DOCKERIGNORE)
  {
    hide PathLess;
    assert StrLess("Dockerfile", "Dockerfile.dockerignore") by {
      StrCommon("Dockerfile", "", ".dockerignore");
      assert "Dockerfile" + ".dockerignore" == "Dockerfile.dockerignore" && "Dockerfile" + "" == "Dockerfile";
    }
    TwoParts(DOCKERFILE_STAGING, "Dockerfile", "Dockerfile.dockerignore");
    assert StrLess("Dockerfile.dockerignore", "E");
    hide StrLess;
    TwoParts(DOCKERFILE_STAGING, "Dockerfile.dockerignore", "E");
  }

  lemma EntriesIncrease(entries: seq<Entry>, i: nat, j: nat)
    requires StagingEntries(entries) && i < j < |entries|
    ensures PathLess(entries[i].path, entries[j].path)
  {
    hide PathLess;
    StagingOrder();
  }

  // ---- the merge is in walk order exactly when no path conflicts ----

  ghost predicate InOrder(items: seq<Item>) { Increasing(PathsOf(items)) }

  lemma ConcatInOrder(a: seq<Item>, b: seq<Item>)
    requires InOrder(a) && InOrder(b)
    requires forall x, y | x in a && y in b :: PathLess(PathOf(x), PathOf(y))
    ensures InOrder(a + b)
  {
    var ps := PathsOf(a + b);
    forall i, j | 0 <= i < j < |ps| ensures PathLess(ps[i], ps[j]) {
      if j < |a| {
        assert PathsOf(a)[i] == ps[i] && PathsOf(a)[j] == ps[j];
      } else if i >= |a| {
        assert PathsOf(b)[i - |a|] == ps[i] && PathsOf(b)[j - |a|] == ps[j];
      } else {
        assert a[i] in a && b[j - |a|] in b;
      }
    }
  }

  lemma SyntheticsInOrder(entries: seq<Entry>, i: nat, j: nat)
    requires StagingEntries(entries) && i <= j <= |entries|
    ensures InOrder(Synthetics(entries[i..j]))
  {
    hide PathLess, StagingEntries;
    var ps := PathsOf(Synthetics(entries[i..j]));
    forall a, b | 0 <= a < b < |ps| ensures PathLess(ps[a], ps[b]) {
      EntriesIncrease(entries, i + a, i + b);
    }
  }

  ghost predicate NoConflict(walk: seq<Path>) { forall i | 0 <= i < |walk| :: !Early(walk[i]) && !Late(walk[i]) }

  lemma {:induction false} NoConflictInOrder(walk: seq<Path>, entries: seq<Entry>, next: nat)
    requires WalkOk(walk) && StagingEntries(entries) && next <= |entries| && NoConflict(walk)
    ensures InOrder(Merged(walk, entries, next))
  {
    hide PathLess, StrLess, Join, CachedPath, Early, Late;
    if walk == [] {
      SyntheticsInOrder(entries, next, |entries|);
      assert entries[next..|entries|] == entries[next..];
    } else {
      var p, n := walk[0], Advance(entries, next, walk[0]);
      var a, c := Synthetics(entries[next..n]), Merged(walk[1..], entries, n);
      NoConflictInOrder(walk[1..], entries, n);
      SyntheticsInOrder(entries, next, n);
      assert InOrder([Cached(p)]);
      AfterPath(walk, entries, n);
      ConcatInOrder([Cached(p)], c);
      BeforeRest(walk, entries, next, n);
      ConcatInOrder(a, [Cached(p)] + c);
      assert a + [Cached(p)] + c == a + ([Cached(p)] + c);
    }
  }

  /** The first cached path comes before all that follows it. */
  lemma AfterPath(walk: seq<Path>, entries: seq<Entry>, n: nat)
    requires WalkOk(walk) && StagingEntries(entries) && n <= |entries| && NoConflict(walk) && walk != []
    requires n < |entries| ==> !StrLess(Join(entries[n].path), Join(walk[0]))
    ensures forall y | y in Merged(walk[1..], entries, n) :: PathLess(walk[0], PathOf(y))
  {
    hide PathLess, StrLess, Join, Merged, Early, Late;
    assert CachedPath(walk[0]);
    forall y | y in Merged(walk[1..], entries, n) ensures PathLess(walk[0], PathOf(y)) {
      MergeMembers(walk[1..], entries, n, y);
      if y.Synthetic? {
        var i :| 0 <= i < |entries[n..]| && entries[n..][i] == y.entry;
        CompareEntry(entries, n, walk[0]);
        CompareEntry(entries, n + i, walk[0]);
      }
    }
  }

  /** The synthetic entries emitted before a cached path come before it and all that follows. */
  lemma BeforeRest(walk: seq<Path>, entries: seq<Entry>, next: nat, n: nat)
    requires WalkOk(walk) && StagingEntries(entries) && next <= n <= |entries| && NoConflict(walk) && walk != []
    requires forall i | next <= i < n :: StrLess(Join(entries[i].path), Join(walk[0]))
    ensures forall x, y | x in Synthetics(entries[next..n]) && y in [Cached(walk[0])] + Merged(walk[1..], entries, n) ::
              PathLess(PathOf(x), PathOf(y))
  {
    hide PathLess, StrLess, Join, Merged, Early, Late, CachedPath, StagingEntries, Increasing;
    forall x, y | x in Synthetics(entries[next..n]) && y in [Cached(walk[0])] + Merged(walk[1..], entries, n)
      ensures PathLess(PathOf(x), PathOf(y))
    {
      var i :| 0 <= i < |Synthetics(entries[next..n])| && Synthetics(entries[next..n])[i] == x;
      assert x == Synthetic(entries[next + i]);
      MergeMembers(walk[1..], entries, n, y);
      if y.Synthetic? {
        var j :| 0 <= j < |entries[n..]| && entries[n..][j] == y.entry;
        EntriesIncrease(entries, next + i, n + j);
      } else {
        assert y.path in walk;
        EntryBefore(walk, entries, next + i, y.path);
      }
    }
  }

  lemma EntryBefore(walk: seq<Path>, entries: seq<Entry>, m: nat, q: Path)
    requires WalkOk(walk) && StagingEntries(entries) && m < |entries| && NoConflict(walk) && walk != [] && q in walk
    requires StrLess(Join(entries[m].path), Join(walk[0]))
    ensures PathLess(entries[m].path, q)
  {
    hide Join, Early, Late;
    CompareEntry(entries, m, walk[0]);
    CompareEntry(entries, m, q);
    assert q == walk[0] || PathLess(walk[0], q);
    if q != walk[0] && StrLess(walk[0][0], q[0]) {
      StrTransitive(DOCKERFILE_STAGING, walk[0][0], q[0]);
    }
  }

  // ---- a conflict always shows ----

  /** How many entries have been emitted after the first `k` cached paths. */
  function NextAfter(walk: seq<Path>, entries: seq<Entry>, next: nat, k: nat): (n: nat)
    requires next <= |entries| && k <= |walk|
    ensures next <= n <= |entries|
    decreases k
  {
    if k == 0 then next else NextAfter(walk[1..], entries, Advance(entries, next, walk[0]), k - 1)
  }

  /** What has been emitted after the first `k` cached paths. */
  function Front(walk: seq<Path>, entries: seq<Entry>, next: nat, k: nat): seq<Item>
    requires next <= |entries| && k <= |walk|
    decreases k
  {
    if k == 0 then []
    else
      var n := Advance(entries, next, walk[0]);
      Synthetics(entries[next..n]) + [Cached(walk[0])] + Front(walk[1..], entries, n, k - 1)
  }

  /** The first cached path, and what goes before it. */
  lemma FirstStep(walk: seq<Path>, entries: seq<Entry>, next: nat, k: nat) returns (n: nat, a: seq<Item>)
    requires next <= |entries| && 0 < k <= |walk|
    ensures n <= |entries| && NextAfter(walk, entries, next, k) == NextAfter(walk[1..], entries, n, k - 1)
    ensures Merged(walk, entries, next) == a + Merged(walk[1..], entries, n)
    ensures Front(walk, entries, next, k) == a + Front(walk[1..], entries, n, k - 1)
  {
    hide Advance, Synthetics;
    n := Advance(entries, next, walk[0]);
    a := Synthetics(entries[next..n]) + [Cached(walk[0])];
  }

  lemma {:induction false} FrontSplit(walk: seq<Path>, entries: seq<Entry>, next: nat, k: nat)
    requires next <= |entries| && k <= |walk|
    ensures var n := NextAfter(walk, entries, next, k);
            Merged(walk, entries, next) == Front(walk, entries, next, k) + Merged(walk[k..], entries, n)
    decreases k
  {
    if k == 0 {
      assert walk[0..] == walk;
    } else {
      hide Merged, Front, NextAfter;
      var n, a := FirstStep(walk, entries, next, k);
      FrontSplit(walk[1..], entries, n, k - 1);
      assert walk[1..][k - 1..] == walk[k..];
      Associate(a, Front(walk[1..], entries, n, k - 1), Merged(walk[k..], entries, NextAfter(walk, entries, next, k)));
    }
  }

  lemma {:induction false} FrontPath(walk: seq<Path>, entries: seq<Entry>, next: nat, k: nat, i: nat)
    requires next <= |entries| && i < k <= |walk|
    ensures Cached(walk[i]) in Front(walk, entries, next, k)
    decreases k
  {
    hide Advance, Synthetics;
    if i > 0 {
      FrontPath(walk[1..], entries, Advance(entries, next, walk[0]), k - 1, i - 1);
    }
  }

  lemma {:induction false} FrontEntry(walk: seq<Path>, entries: seq<Entry>, next: nat, k: nat, m: nat)
    requires next <= |entries| && k <= |walk| && next <= m < NextAfter(walk, entries, next, k)
    ensures Synthetic(entries[m]) in Front(walk, entries, next, k)
    decreases k
  {
    hide Advance;
    var n := Advance(entries, next, walk[0]);
    if m < n {
      assert Synthetics(entries[next..n])[m - next] == Synthetic(entries[m]);
    } else {
      FrontEntry(walk[1..], entries, n, k - 1, m);
    }
  }

  lemma AcrossInOrder(a: seq<Item>, b: seq<Item>, x: Item, y: Item)
    requires InOrder(a + b) && x in a && y in b
    ensures PathLess(PathOf(x), PathOf(y))
  {
    hide PathLess;
    var i :| 0 <= i < |a| && a[i] == x;
    var j :| 0 <= j < |b| && b[j] == y;
    assert PathsOf(a + b)[i] == PathOf(x) && PathsOf(a + b)[|a| + j] == PathOf(y);
  }

  /** Two items out of order. */
  lemma Shows(a: seq<Item>, b: seq<Item>, x: Item, y: Item)
    requires x in a && y in b && PathLess(PathOf(y), PathOf(x))
    ensures !InOrder(a + b)
  {
    hide PathLess, InOrder;
    PathAsymmetric(PathOf(x), PathOf(y));
    if InOrder(a + b) {
      AcrossInOrder(a, b, x, y);
    }
  }

  /** An early path finds all entries emitted. */
  lemma EarlySplit(walk: seq<Path>, entries: seq<Entry>, k: nat) returns (a: seq<Item>, b: seq<Item>)
    requires k < |walk| && entries != []
    requires forall m | 0 <= m < |entries| :: StrLess(Join(entries[m].path), Join(walk[k]))
    ensures Merged(walk, entries, 0) == a + b && Synthetic(entries[0]) in a && Cached(walk[k]) in b
  {
    hide StrLess, Join;
    var p := walk[k];
    var n := NextAfter(walk, entries, 0, k);
    var front := Front(walk, entries, 0, k);
    FrontSplit(walk, entries, 0, k);
    if n > 0 {
      FrontEntry(walk, entries, 0, k, 0);
    }
    hide Front;
    var last := Synthetics(entries[n..]);
    assert Advance(entries, n, p) == |entries| && entries[n..|entries|] == entries[n..];
    a, b := front + last, [Cached(p)] + Merged(walk[k..][1..], entries, |entries|);
    Regroup(front, last, [Cached(p)], Merged(walk[k..][1..], entries, |entries|));
    assert n == 0 ==> last[0] == Synthetic(entries[0]);
  }

  lemma EarlyShows(walk: seq<Path>, entries: seq<Entry>, k: nat)
    requires WalkOk(walk) && StagingEntries(entries) && k < |walk| && Early(walk[k])
    ensures !InOrder(Merged(walk, entries, 0))
  {
    hide StrLess, Join, PathLess, Early, StagingEntries, Merged, InOrder;
    var p := walk[k];
    assert CachedPath(p);
    forall m | 0 <= m < |entries| ensures StrLess(Join(entries[m].path), Join(p)) {
      CompareEntry(entries, m, p);
    }
    assert |entries| > 0 by { SomeEntries(entries); }
    var a, b := EarlySplit(walk, entries, k);
    CompareEntry(entries, 0, p);
    Shows(a, b, Synthetic(entries[0]), Cached(p));
  }

  lemma SomeEntries(entries: seq<Entry>)
    requires StagingEntries(entries)
    ensures |entries| >= 2
  {
  }

  /** A string between a name and its continuation is itself a continuation. */
  lemma {:induction false} Between(s: string, x: string, v: string)
    requires StrLess(s, x) && StrLess(x, s + v)
    ensures v != [] && s < x && x[|s|] <= v[0]
  {
    if s == [] {
      assert s + v == v;
    } else {
      assert (s + v)[1..] == s[1..] + v;
      Between(s[1..], x[1..], v);
      assert x == [x[0]] + x[1..] && s == [s[0]] + s[1..];
    }
  }

  lemma LateBefore(q: Path, p: Path)
    requires CachedPath(q) && CachedPath(p) && Late(p) && (q == p || PathLess(q, p))
    requires StrLess(DOCKERFILE_STAGING, q[0])
    ensures Late(q)
  {
    if q[0] != p[0] {
      var v := p[0][|DOCKERFILE_STAGING|..];
      assert p[0] == DOCKERFILE_STAGING + v;
      Between(DOCKERFILE_STAGING, q[0], v);
    }
  }

  lemma {:induction false} StaysBehind(walk: seq<Path>, entries: seq<Entry>, next: nat, k: nat, m: nat)
    requires next <= m < |entries| && k <= |walk|
    requires forall j | 0 <= j < k :: !StrLess(Join(entries[m].path), Join(walk[j]))
    ensures NextAfter(walk, entries, next, k) <= m
    decreases k
  {
    hide StrLess, Join;
    if k > 0 {
      assert !StrLess(Join(entries[m].path), Join(walk[0]));
      assert forall j | 0 <= j < k - 1 :: walk[1..][j] == walk[j + 1];
      StaysBehind(walk[1..], entries, Advance(entries, next, walk[0]), k - 1, m);
    }
  }

  /** An entry that no path so far sorts after is still to come. */
  lemma LateSplit(walk: seq<Path>, entries: seq<Entry>, k: nat, m: nat) returns (a: seq<Item>, b: seq<Item>)
    requires k < |walk| && m < |entries|
    requires forall j | 0 <= j < k + 1 :: !StrLess(Join(entries[m].path), Join(walk[j]))
    ensures Merged(walk, entries, 0) == a + b && Cached(walk[k]) in a && Synthetic(entries[m]) in b
  {
    hide StrLess, Join, Merged;
    StaysBehind(walk, entries, 0, k + 1, m);
    var n := NextAfter(walk, entries, 0, k + 1);
    FrontSplit(walk, entries, 0, k + 1);
    FrontPath(walk, entries, 0, k + 1, k);
    a := Front(walk, entries, 0, k + 1);
    b := Merged(walk[k + 1..], entries, n);
    assert entries[n..][m - n] == entries[m];
    MergeMembers(walk[k + 1..], entries, n, Synthetic(entries[m]));
  }

  lemma LateShows(walk: seq<Path>, entries: seq<Entry>, k: nat)
    requires WalkOk(walk) && StagingEntries(entries) && k < |walk| && Late(walk[k])
    requires forall i | 0 <= i < |walk| :: !Early(walk[i])
    ensures !InOrder(Merged(walk, entries, 0))
  {
    hide StrLess, Join, PathLess, Early, Late, Merged, InOrder, StagingEntries;
    SomeEntries(entries);
    var p, m := walk[k], |entries| - 1;
    forall j | 0 <= j < k + 1 ensures !StrLess(Join(entries[m].path), Join(walk[j])) {
      assert CachedPath(walk[j]) && CachedPath(p);
      CompareEntry(entries, m, walk[j]);
      if StrLess(DOCKERFILE_STAGING, walk[j][0]) {
        LateBefore(walk[j], p);
      }
    }
    var a, b := LateSplit(walk, entries, k, m);
    assert CachedPath(p);
    CompareEntry(entries, m, p);
    Shows(a, b, Cached(p), Synthetic(entries[m]));
  }

  /** The merged walk is in walk order exactly when no cached path is below ".com" or ".com.apple"
      or continues the staging name with a character before the slash. */
  lemma MergeInOrderIff(walk: seq<Path>, entries: seq<Entry>)
    requires WalkOk(walk) && StagingEntries(entries)
    ensures InOrder(Merged(walk, entries, 0)) <==> NoConflict(walk)
  {
    hide WalkOk, StagingEntries, InOrder, Early, Late;
    if NoConflict(walk) {
      NoConflictInOrder(walk, entries, 0);
    } else if k :| 0 <= k < |walk| && Early(walk[k]) {
      EarlyShows(walk, entries, k);
    } else {
      var k :| 0 <= k < |walk| && Late(walk[k]);
      LateShows(walk, entries, k);
    }
  }

  /** With nothing to merge the walk is passed on as it is. */
  lemma {:induction false} NothingToMerge(walk: seq<Path>)
    ensures PathsOf(Merged(walk, [], 0)) == walk
  {
    if walk != [] {
      NothingToMerge(walk[1..]);
      assert Merged(walk, [], 0)[1..] == Merged(walk[1..], [], 0);
    }
  }

  /** The walk that reaches the sink is in order exactly when nothing is merged into it or no cached
      path conflicts. */
  lemma SinkInOrderIff(walk: seq<Path>, proxy: Option<(seq<byte>, seq<byte>)>, requested: set<Path>)
    requires WalkOk(walk)
    ensures InOrder(Merged(walk, EntriesFor(proxy, requested), 0)) <==>
            EntriesFor(proxy, requested) == [] || NoConflict(walk)
  {
    hide StagingEntries, NoConflict, EntriesFor;
    EntriesForAreStaging(proxy, requested);
    if EntriesFor(proxy, requested) == [] {
      NothingToMerge(walk);
    } else {
      MergeInOrderIff(walk, EntriesFor(proxy, requested));
    }
  }

  /** All paths of the merge differ. */
  lemma {:induction false} MergedPathsDistinct(walk: seq<Path>, entries: seq<Entry>, next: nat)
    requires WalkOk(walk) && StagingEntries(entries) && next <= |entries|
    ensures Distinct(PathsOf(Merged(walk, entries, next)))
  {
    hide PathLess, CachedPath, Advance;
    if walk == [] {
      SyntheticsDistinct(entries, next, |entries|);
      assert entries[next..|entries|] == entries[next..];
    } else {
      var n := Advance(entries, next, walk[0]);
      var a, c := Synthetics(entries[next..n]), Merged(walk[1..], entries, n);
      MergedPathsDistinct(walk[1..], entries, n);
      SyntheticsDistinct(entries, next, n);
      forall y | y in c ensures walk[0] != PathOf(y) {
        PathApart(walk, entries, n, y);
      }
      DistinctConcat([Cached(walk[0])], c);
      forall x, y | x in a && y in [Cached(walk[0])] + c ensures PathOf(x) != PathOf(y) {
        EntryApart(walk, entries, next, n, x, y);
      }
      DistinctConcat(a, [Cached(walk[0])] + c);
      assert a + [Cached(walk[0])] + c == a + ([Cached(walk[0])] + c);
    }
  }

  lemma DistinctConcat(a: seq<Item>, b: seq<Item>)
    requires Distinct(PathsOf(a)) && Distinct(PathsOf(b))
    requires forall x, y | x in a && y in b :: PathOf(x) != PathOf(y)
    ensures Distinct(PathsOf(a + b))
  {
    var ps := PathsOf(a + b);
    forall i, j | 0 <= i < j < |ps| ensures ps[i] != ps[j] {
      if j < |a| {
        assert PathsOf(a)[i] == ps[i] && PathsOf(a)[j] == ps[j];
      } else if i >= |a| {
        assert PathsOf(b)[i - |a|] == ps[i] && PathsOf(b)[j - |a|] == ps[j];
      } else {
        assert a[i] in a && b[j - |a|] in b;
      }
    }
  }

  lemma SyntheticsDistinct(entries: seq<Entry>, i: nat, j: nat)
    requires StagingEntries(entries) && i <= j <= |entries|
    ensures Distinct(PathsOf(Synthetics(entries[i..j])))
  {
    hide PathLess, StagingEntries;
    var ps := PathsOf(Synthetics(entries[i..j]));
    forall a, b | 0 <= a < b < |ps| ensures ps[a] != ps[b] {
      EntriesIncrease(entries, i + a, i + b);
      PathAsymmetric(ps[a], ps[b]);
    }
  }

  lemma PathApart(walk: seq<Path>, entries: seq<Entry>, n: nat, y: Item)
    requires WalkOk(walk) && StagingEntries(entries) && n <= |entries| && walk != []
        && y in Merged(walk[1..], entries, n)
    ensures walk[0] != PathOf(y)
  {
    hide PathLess, Merged;
    MergeMembers(walk[1..], entries, n, y);
    assert CachedPath(walk[0]);
    if y.Cached? {
      PathAsymmetric(walk[0], y.path);
    }
  }

  lemma EntryApart(walk: seq<Path>, entries: seq<Entry>, next: nat, n: nat, x: Item, y: Item)
    requires WalkOk(walk) && StagingEntries(entries) && next <= n <= |entries| && walk != []
    requires x in Synthetics(entries[next..n]) && y in [Cached(walk[0])] + Merged(walk[1..], entries, n)
    ensures PathOf(x) != PathOf(y)
  {
    hide PathLess, Merged, Increasing;
    var i :| 0 <= i < |Synthetics(entries[next..n])| && Synthetics(entries[next..n])[i] == x;
    assert x == Synthetic(entries[next + i]);
    MergeMembers(walk[1..], entries, n, y);
    if y.Synthetic? {
      var j :| 0 <= j < |entries[n..]| && entries[n..][j] == y.entry;
      EntriesIncrease(entries, next + i, n + j);
      PathAsymmetric(PathOf(x), PathOf(y));
    } else {
      var j :| 0 <= j < |walk| && walk[j] == y.path;
      assert CachedPath(walk[j]) && PathOf(x)[0] == DOCKERFILE_STAGING;
    }
  }
}
