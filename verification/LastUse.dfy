/** Choosing the least recently used chunks: the range loop, the in-place insertion sort and
    the prefix that is evicted. */
module LastUse {
  import opened Basics
  import opened Chunks

  ghost predicate ByLastUse(s: seq<Chunk>)
    reads s
  {
    forall i, j | 0 <= i < j < |s| :: s[i].lastUsed <= s[j].lastUsed
  }

  /** `s` with its `i`-th element moved down to position `p`. */
  ghost function MovedDown(s: seq<Chunk>, p: nat, i: nat): seq<Chunk>
    requires p <= i < |s|
  {
    s[..p] + [s[i]] + s[p..i] + s[i + 1..]
  }

  /** Element by element. */
  lemma MovedDownAt(s: seq<Chunk>, t: seq<Chunk>, p: nat, i: nat)
    requires p <= i < |s| == |t| && t[p] == s[i]
    requires forall k | 0 <= k < |s| && !(p <= k <= i) :: t[k] == s[k]
    requires forall k | p < k <= i :: t[k] == s[k - 1]
    ensures t == MovedDown(s, p, i)
  {
    var m := MovedDown(s, p, i);
    forall k | 0 <= k < |s| ensures m[k] == t[k] {
      assert m[k] == if k < p then s[k] else if k == p then s[i] else if k <= i then s[k - 1] else s[k];
    }
  }

  lemma MovedDownPermutes(s: seq<Chunk>, p: nat, i: nat)
    requires p <= i < |s|
    ensures multiset(MovedDown(s, p, i)) == multiset(s)
  {
    assert s == s[..p] + s[p..i] + [s[i]] + s[i + 1..];
  }

  lemma MovedDownSorts(s: seq<Chunk>, p: nat, i: nat)
    requires p <= i < |s| && ByLastUse(s[..i])
    requires p > 0 ==> s[p - 1].lastUsed <= s[i].lastUsed
    requires p < i ==> s[i].lastUsed < s[p].lastUsed
    ensures ByLastUse(MovedDown(s, p, i)[..i + 1])
  {
    var t, pre := MovedDown(s, p, i)[..i + 1], s[..i];
    forall m, n | 0 <= m < n < |t| ensures t[m].lastUsed <= t[n].lastUsed {
      if m == p {
        assert pre[p].lastUsed <= pre[n - 1].lastUsed;
      } else if n == p {
        assert pre[m].lastUsed <= pre[p - 1].lastUsed;
      } else {
        assert t[m] == pre[if m < p then m else m - 1];
        assert t[n] == pre[if n < p then n else n - 1];
      }
    }
  }

  /** The in-place insertion sort of `evictOldest`. */
  method SortByLastUse(a: array<Chunk>)
    modifies a
    ensures multiset(a[..]) == old(multiset(a[..]))
    ensures ByLastUse(a[..])
  {
    var i := 0;
    while i < a.Length
      invariant i <= a.Length
      invariant multiset(a[..]) == old(multiset(a[..]))
      invariant ByLastUse(a[..i])
    {
      SortRound(a, i);
      i := i + 1;
    }
    assert a[..] == a[..i];
  }

  method SortRound(a: array<Chunk>, i: nat)
    requires i < a.Length && ByLastUse(a[..i])
    modifies a
    ensures multiset(a[..]) == old(multiset(a[..]))
    ensures ByLastUse(a[..i + 1])
  {
    ghost var before := a[..];
    var p := InsertSorted(a, i);
    MovedDownPermutes(before, p, i);
    MovedDownSorts(before, p, i);
  }

  /** One round: move `a[i]` down past the more recently used chunks of the sorted prefix. */
  method InsertSorted(a: array<Chunk>, i: nat) returns (p: nat)
    requires i < a.Length && ByLastUse(a[..i])
    modifies a
    ensures var s := old(a[..]);
            && p <= i && a[..] == MovedDown(s, p, i) && ByLastUse(s[..i])
            && (p > 0 ==> s[p - 1].lastUsed <= s[i].lastUsed)
            && (p < i ==> s[i].lastUsed < s[p].lastUsed)
  {
    var key := a[i];
    p := i;
    while p > 0 && a[p - 1].lastUsed > key.lastUsed
      invariant p <= i
      invariant forall k | 0 <= k < a.Length && !(p < k <= i) :: a[k] == old(a[k])
      invariant forall k | p < k <= i :: a[k] == old(a[k - 1])
      invariant p < i ==> old(a[p].lastUsed) > key.lastUsed
    {
      a[p] := a[p - 1];
      p := p - 1;
    }
    a[p] := key;
    MovedDownAt(old(a[..]), a[..], p, i);
    hide MovedDown;
    assert old(a[..i]) == old(a[..])[..i];
  }

  /** `s` lists every chunk of `m` exactly once. */
  ghost predicate Enumerates(s: seq<Chunk>, m: map<nat, Chunk>) {
    && Distinct(s)
    && (forall c | c in s :: c.index in m && m[c.index] == c)
    && (forall i | i in m :: m[i] in s)
  }

  lemma DistinctCounts(s: seq<Chunk>)
    requires Distinct(s)
    ensures forall c | c in s :: multiset(s)[c] == 1
  {
    forall c | c in s ensures multiset(s)[c] == 1 {
      var k :| 0 <= k < |s| && s[k] == c;
      assert s == s[..k] + [c] + s[k + 1..];
    }
  }

  lemma CountsDistinct(s: seq<Chunk>)
    requires forall c | c in s :: multiset(s)[c] == 1
    ensures Distinct(s)
  {
    forall i, j | 0 <= i < j < |s| ensures s[i] != s[j] {
      assert s == s[..i] + [s[i]] + s[i + 1..j] + [s[j]] + s[j + 1..];
      assert s[i] in s;
    }
  }

  lemma PermutationEnumerates(s: seq<Chunk>, t: seq<Chunk>, m: map<nat, Chunk>)
    requires Enumerates(s, m) && multiset(t) == multiset(s)
    ensures Enumerates(t, m) && |t| == |s|
  {
    DistinctCounts(s);
    assert forall c | c in t :: c in multiset(s);
    forall c | c in t ensures c in s { assert c in multiset(t); }
    forall i | i in m ensures m[i] in t { assert m[i] in multiset(s); }
    CountsDistinct(t);
    assert |multiset(t)| == |t| && |multiset(s)| == |s|;
  }

  lemma EnumeratesAppend(s: seq<Chunk>, m: map<nat, Chunk>, ch: Chunk)
    requires Enumerates(s, m) && ch.index !in m
    ensures Enumerates(s + [ch], m[ch.index := ch])
  {
    var more := s + [ch];
    assert forall c | c in more :: c in s || c == ch;
    assert more[|s|] == ch;
    forall c | c in s ensures c in more {
      var k :| 0 <= k < |s| && s[k] == c;
      assert more[k] == c;
    }
  }

  /** The chunks of the map in the (arbitrary) order of a range loop. */
  method ListChunks(m: map<nat, Chunk>) returns (s: seq<Chunk>)
    requires KeyedMap(m)
    ensures Enumerates(s, m) && |s| == |m|
  {
    s := [];
    var rest := m.Keys;
    while rest != {}
      invariant rest <= m.Keys && |s| + |rest| == |m|
      invariant Enumerates(s, m - rest)
      decreases rest
    {
      var key :| key in rest;
      EnumeratesAppend(s, m - rest, m[key]);
      assert m - (rest - {key}) == (m - rest)[key := m[key]];
      s := s + [m[key]];
      rest := rest - {key};
    }
    assert m - rest == m;
  }

  ghost function FirstIndices(s: seq<Chunk>, n: nat): set<nat>
    requires n <= |s|
  {
    set k | 0 <= k < n :: s[k].index
  }

  lemma {:induction false} FirstIndicesCount(s: seq<Chunk>, m: map<nat, Chunk>, n: nat)
    requires Enumerates(s, m) && n <= |s|
    ensures |FirstIndices(s, n)| == n
  {
    if n > 0 {
      FirstIndicesCount(s, m, n - 1);
      assert s[n - 1] in s;
      forall k | 0 <= k < n - 1 ensures s[k].index != s[n - 1].index {
        assert s[k] in s && s[k] != s[n - 1];
      }
      assert FirstIndices(s, n) == FirstIndices(s, n - 1) + {s[n - 1].index};
    }
  }

  /** In a sorted listing the first `n` chunks are the least recently used ones. */
  lemma OldestFirst(s: seq<Chunk>, m: map<nat, Chunk>, n: nat)
    requires KeyedMap(m) && Enumerates(s, m) && ByLastUse(s) && n <= |s|
    ensures FirstIndices(s, n) <= m.Keys
    ensures forall i, j | i in FirstIndices(s, n) && j in m && j !in FirstIndices(s, n) ::
              m[i].lastUsed <= m[j].lastUsed
  {
    forall i | i in FirstIndices(s, n)
      ensures i in m && forall j | j in m && j !in FirstIndices(s, n) :: m[i].lastUsed <= m[j].lastUsed
    {
      var p :| 0 <= p < n && s[p].index == i;
      assert s[p] in s;
      forall j | j in m && j !in FirstIndices(s, n) ensures m[i].lastUsed <= m[j].lastUsed {
        assert m[j] in s;
        var q :| 0 <= q < |s| && s[q] == m[j];
        assert s[q] in s;
      }
    }
  }

  method ListByLastUse(m: map<nat, Chunk>) returns (sorted: seq<Chunk>)
    requires KeyedMap(m)
    ensures Enumerates(sorted, m) && ByLastUse(sorted) && |sorted| == |m|
  {
    var listed := ListChunks(m);
    var a := new Chunk[|listed|](i requires 0 <= i < |listed| => listed[i]);
    assert a[..] == listed;
    SortByLastUse(a);
    sorted := a[..];
    PermutationEnumerates(listed, sorted, m);
  }

  /** When each chunk was last used. */
  ghost function Uses(m: map<nat, Chunk>): map<nat, int>
    reads m.Values
  {
    map i | i in m :: m[i].lastUsed
  }

  /** No victim was used more recently than a survivor. */
  ghost predicate OldestOf(victims: set<nat>, uses: map<nat, int>) {
    && victims <= uses.Keys
    && forall i, j | i in victims && j in uses && j !in victims :: uses[i] <= uses[j]
  }

  /** A chunk used more recently than all others survives unless everything is evicted. */
  lemma NewestSurvives(victims: set<nat>, uses: map<nat, int>, newest: nat)
    requires OldestOf(victims, uses) && newest in uses && |victims| < |uses|
    requires forall i | i in uses && i != newest :: uses[i] < uses[newest]
    ensures newest !in victims
  {
    assert uses.Keys != victims;
  }

  /** The victims of one least-recently-used eviction. */
  method SelectOldest(m: map<nat, Chunk>, count: nat) returns (victims: set<nat>)
    requires KeyedMap(m)
    ensures OldestOf(victims, Uses(m)) && |victims| == Min(count, |m|)
  {
    var sorted := ListByLastUse(m);
    victims := {};
    var n := if count > |sorted| then |sorted| else count;
    for i := 0 to n
      invariant victims == FirstIndices(sorted, i)
    {
      victims := victims + {sorted[i].index};
    }
    FirstIndicesCount(sorted, m, n);
    OldestFirst(sorted, m, n);
  }
}
