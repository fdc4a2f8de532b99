/** Merging the generated Dockerfile inputs into the walk of a cached context. */
module SyntheticWalk {
  import opened Basics
  import opened TarPaths

  /** Go's order on strings. */
  predicate StrLess(a: string, b: string) {
    b != [] && (a == [] || a[0] < b[0] || (a[0] == b[0] && StrLess(a[1..], b[1..])))
  }

  /** Up to some place the strings agree, and there the first one ends or has the smaller character. */
  lemma {:induction false} StrLessIff(a: string, b: string)
    ensures StrLess(a, b) <==>
              exists n: nat :: n <= |a| && n < |b| && a[..n] == b[..n] && (n == |a| || a[n] < b[n])
  {
    forall n: nat | 0 < n <= |a| && n <= |b| && a[..n] == b[..n] ensures a[0] == b[0] {
      assert a[..n][0] == a[0] && b[..n][0] == b[0];
    }
    if a != [] && b != [] && a[0] == b[0] {
      StrLessIff(a[1..], b[1..]);
      if n: nat :| n < |a| && n < |b| - 1 && a[1..][..n] == b[1..][..n]
                   && (n == |a| - 1 || a[1..][n] < b[1..][n]) {
        assert a[..n + 1] == [a[0]] + a[1..][..n] && b[..n + 1] == [b[0]] + b[1..][..n];
        assert n + 1 == |a| || a[n + 1] < b[n + 1];
      }
      if n: nat :| n <= |a| && n < |b| && a[..n] == b[..n] && (n == |a| || a[n] < b[n]) {
        assert a[1..][..n - 1] == a[..n][1..] && b[1..][..n - 1] == b[..n][1..];
      }
    } else if StrLess(a, b) {
      assert a[..0] == b[..0];
    }
  }

  const DIR: Path := [DOCKERFILE_STAGING]

  datatype Entry = Entry(path: Path, data: seq<byte>)

  /** What the sink has been given. */
  datatype Item = Cached(path: Path) | Synthetic(entry: Entry)

  function Synthetics(entries: seq<Entry>): (r: seq<Item>)
    ensures |r| == |entries| && forall i | 0 <= i < |entries| :: r[i] == Synthetic(entries[i])
  {
    seq(|entries|, i requires 0 <= i < |entries| => Synthetic(entries[i]))
  }

  /** One entry more of a slice. */
  lemma SyntheticsSnoc(entries: seq<Entry>, a: nat, b: nat)
    requires a <= b < |entries|
    ensures Synthetics(entries[a..b + 1]) == Synthetics(entries[a..b]) + [Synthetic(entries[b])]
  {
    assert entries[a..b + 1] == entries[a..b] + [entries[b]];
  }

  lemma SyntheticsPrefix(entries: seq<Entry>, a: nat, b: nat, c: nat)
    requires a <= b <= c <= |entries|
    ensures Synthetics(entries[a..b]) <= Synthetics(entries[a..c])
  {
    assert forall i | 0 <= i < b - a :: entries[a..b][i] == entries[a..c][i];
  }

  /** Those of the files that are requested and have content. */
  function Requested(files: seq<Entry>, requested: set<Path>): seq<Entry> {
    if files == [] then []
    else
      var last := files[|files| - 1];
      Requested(files[..|files| - 1], requested) + if last.path in requested && last.data != [] then [last] else []
  }

  lemma RequestedSnoc(files: seq<Entry>, requested: set<Path>, i: nat)
    requires i < |files|
    ensures Requested(files[..i + 1], requested) ==
            Requested(files[..i], requested) + if files[i].path in requested && files[i].data != [] then [files[i]]
                else []
  {
    assert files[..i + 1][..i] == files[..i];
  }

  lemma {:induction false} RequestedSome(files: seq<Entry>, requested: set<Path>, i: nat)
    requires i < |files| && files[i].path in requested && files[i].data != []
    ensures Requested(files, requested) != []
  {
    if i < |files| - 1 {
      RequestedSome(files[..|files| - 1], requested, i);
    }
  }

  /** The staging directory goes with its files. */
  function EntriesFor(proxy: Option<(seq<byte>, seq<byte>)>, requested: set<Path>): seq<Entry> {
    if proxy == None then []
    else
      var files := Requested(Files(proxy.value), requested);
      if files == [] then [] else [Entry(DIR, [])] + files
  }

  function Files(proxy: (seq<byte>, seq<byte>)): seq<Entry> {
    [Entry(DOCKERFILE, proxy.0), Entry(DOCKERIGNORE, proxy.1)]
  }

  // ---- the merge, as a function ----

  /** The first entry from `next` on that does not sort before the path. */
  function Advance(entries: seq<Entry>, next: nat, path: Path): (n: nat)
    requires next <= |entries|
    ensures next <= n <= |entries|
    ensures forall i | next <= i < n :: StrLess(Join(entries[i].path), Join(path))
    ensures n < |entries| ==> !StrLess(Join(entries[n].path), Join(path))
    decreases |entries| - next
  {
    if next < |entries| && StrLess(Join(entries[next].path), Join(path)) then Advance(entries, next + 1, path) else next
  }

  function Merged(walk: seq<Path>, entries: seq<Entry>, next: nat): seq<Item>
    requires next <= |entries|
  {
    if walk == [] then Synthetics(entries[next..])
    else
      var n := Advance(entries, next, walk[0]);
      Synthetics(entries[next..n]) + [Cached(walk[0])] + Merged(walk[1..], entries, n)
  }

  // ---- the walker ----

  /** `fails(n)` says whether the sink fails after having accepted `n` items. */
  class Walker {
    const entries: seq<Entry>
    const fails: nat -> bool
    var next: nat
    var emitted: seq<Item>

    ghost predicate Valid() reads this { next <= |entries| }

    /** `newSyntheticDockerfileWalker`. */
    constructor (proxy: Option<(seq<byte>, seq<byte>)>, requested: set<Path>, fails: nat -> bool)
      ensures Valid() && next == 0 && emitted == [] && this.fails == fails
      ensures entries == EntriesFor(proxy, requested)
    {
      var list: seq<Entry> := [];
      if proxy.Some? {
        var files := Files(proxy.value);
        var hasFile := false;
        for i := 0 to |files|
          invariant !hasFile && Requested(files[..i], requested) == []
        {
          RequestedSnoc(files, requested, i);
          if files[i].path in requested && files[i].data != [] {
            hasFile := true;
            RequestedSome(files, requested, i);
            break;
          }
        }
        assert files[..|files|] == files;
        if hasFile {
          list := [Entry(DIR, [])];
          for i := 0 to |files|
            invariant list == [Entry(DIR, [])] + Requested(files[..i], requested)
          {
            RequestedSnoc(files, requested, i);
            if files[i].path in requested && files[i].data != [] {
              list := list + [files[i]];
            }
          }
        }
      }
      this.entries := list;
      this.fails := fails;
      this.next := 0;
      this.emitted := [];
    }

    /** The sink. */
    method Emit(item: Item) returns (ok: bool)
      requires Valid()
      modifies this`emitted
      ensures ok == !fails(|old(emitted)|)
      ensures emitted == old(emitted) + if ok then [item] else []
    {
      ok := !fails(|emitted|);
      if ok {
        emitted := emitted + [item];
      }
    }

    /** `Walk`, called for each cached path. */
    method Walk(path: Path) returns (ok: bool)
      requires Valid()
      modifies this
      ensures Valid()
      ensures ok ==> next == Advance(entries, old(next), path)
                     && emitted == old(emitted) + Synthetics(entries[old(next)..next]) + [Cached(path)]
      ensures !ok ==> fails(|emitted|)
                      && emitted <= old(emitted) + Synthetics(entries[old(next)..Advance(entries, old(next), path)])
    {
      hide Join, StrLess, Synthetics;
      ghost var start, end := next, Advance(entries, next, path);
      while next < |entries| && StrLess(Join(entries[next].path), Join(path))
        invariant start <= next <= end && Advance(entries, next, path) == end
        invariant emitted == old(emitted) + Synthetics(entries[start..next])
      {
        SyntheticsSnoc(entries, start, next);
        ok := Emit(Synthetic(entries[next]));
        if !ok {
          SyntheticsPrefix(entries, start, next, end);
          return;
        }
        next := next + 1;
      }
      ok := Emit(Cached(path));
    }

    /** `Finish`, called when the walk has ended. */
    method Finish() returns (ok: bool)
      requires Valid()
      modifies this
      ensures Valid()
      ensures ok ==> next == |entries| && emitted == old(emitted) + Synthetics(entries[old(next)..])
      ensures !ok ==> fails(|emitted|) && emitted < old(emitted) + Synthetics(entries[old(next)..])
    {
      hide Synthetics;
      ghost var start := next;
      while next < |entries|
        invariant start <= next <= |entries|
        invariant emitted == old(emitted) + Synthetics(entries[start..next])
      {
        SyntheticsSnoc(entries, start, next);
        ok := Emit(Synthetic(entries[next]));
        if !ok {
          SyntheticsPrefix(entries, start, next + 1, |entries|);
          assert entries[start..|entries|] == entries[start..];
          return;
        }
        next := next + 1;
      }
      assert entries[start..next] == entries[start..];
      ok := true;
    }

    /** The whole walk: the sink gets the merge, or, when it fails, a part of it. */
    method WalkAll(walk: seq<Path>) returns (ok: bool)
      requires Valid() && next == 0 && emitted == []
      modifies this
      ensures emitted <= Merged(walk, entries, 0)
      ensures ok <==> emitted == Merged(walk, entries, 0)
      ensures !ok ==> fails(|emitted|)
    {
      hide Join, StrLess, Synthetics, Advance;
      for i := 0 to |walk|
        invariant Valid()
        invariant emitted + Merged(walk[i..], entries, next) == Merged(walk, entries, 0)
      {
        ghost var rest := walk[i..];
        assert rest[0] == walk[i] && rest[1..] == walk[i + 1..];
        ghost var before, start := emitted, next;
        ok := Walk(walk[i]);
        MergedFront(rest, entries, start, before, emitted, ok);
        if !ok {
          return;
        }
      }
      assert walk[|walk|..] == [];
      ok := Finish();
    }
  }

  /** One call of `Walk`, seen from the merge. */
  lemma MergedFront(walk: seq<Path>, entries: seq<Entry>, next: nat, before: seq<Item>, after: seq<Item>, ok: bool)
    requires walk != [] && next <= |entries|
    requires var n := Advance(entries, next, walk[0]);
             if ok then after == before + Synthetics(entries[next..n]) + [Cached(walk[0])]
             else after <= before + Synthetics(entries[next..n])
    ensures var n := Advance(entries, next, walk[0]);
            if ok then after + Merged(walk[1..], entries, n) == before + Merged(walk, entries, next)
            else after < before + Merged(walk, entries, next)
  {
    var n := Advance(entries, next, walk[0]);
    hide Advance, Synthetics;
    var a, c := Synthetics(entries[next..n]), Merged(walk[1..], entries, n);
    assert Merged(walk, entries, next) == a + [Cached(walk[0])] + c;
    hide Merged;
    Regroup(before, a, [Cached(walk[0])], c);
    if !ok {
      LongerPrefix(after, before + a, [Cached(walk[0])] + c);
    }
  }

  lemma Regroup<T>(before: seq<T>, a: seq<T>, b: seq<T>, c: seq<T>)
    ensures before + (a + b + c) == before + a + b + c == (before + a) + (b + c)
  {
  }

  lemma LongerPrefix<T>(after: seq<T>, a: seq<T>, b: seq<T>)
    requires after <= a && b != []
    ensures after < a + b
  {
  }
}
