/** The prefetcher's chunk cache: the live chunks, the interval tree beside them, the lower
    bound of the sliding window, and eviction of the least recently used chunks. */
module ChunkCaches {
  import opened Basics
  import opened Chunks
  import opened IntervalNodes
  import opened IntervalTree
  import opened LastUse

  const DEFAULT_CACHE_SIZE: nat := 1024

  lemma {:induction false} HeldChunksAreKeyed(t: Tree<Chunk>, latest: map<nat, Chunk>)
    requires Holds(t, latest) && KeyedMap(latest)
    ensures Keyed(t)
  {
    if t.Node? {
      HeldChunksAreKeyed(t.left, latest);
      HeldChunksAreKeyed(t.right, latest);
    }
  }

  /** Every live chunk lies in the window and is the one the tree has at its index. */
  ghost predicate LiveIn(live: map<nat, Chunk>, latest: map<nat, Chunk>, minIndex: nat) {
    forall i | i in live :: minIndex <= i && i in latest && latest[i] == live[i]
  }

  lemma LiveInAdds(live: map<nat, Chunk>, latest: map<nat, Chunk>, minIndex: nat, ch: Chunk)
    requires LiveIn(live, latest, minIndex) && KeyedMap(live) && minIndex <= ch.index
    ensures LiveIn(live[ch.index := ch], latest[ch.index := ch], minIndex) && KeyedMap(live[ch.index := ch])
  {
  }

  ghost predicate NoneWithin(indices: set<nat>, start: int, end: int) {
    forall i | i in indices :: !(start <= i <= end)
  }

  /** The tree gives the live chunks of a range, and no others, exactly when no evicted index lies in it. */
  lemma RangeIsLiveIff(live: map<nat, Chunk>, latest: map<nat, Chunk>, minIndex: nat, start: int, end: int)
    requires LiveIn(live, latest, minIndex) && KeyedMap(live) && KeyedMap(latest)
    ensures InRange(live, start, end) <= InRange(latest, start, end)
    ensures InRange(latest, start, end) == InRange(live, start, end) <==>
            NoneWithin(latest.Keys - live.Keys, start, end)
  {
    forall c | c in InRange(live, start, end) ensures c in InRange(latest, start, end) {
      var i :| i in live && start <= i <= end && live[i] == c;
      assert latest[i] == c;
    }
    forall i | i in latest && i !in live && start <= i <= end
      ensures latest[i] in InRange(latest, start, end) && latest[i] !in InRange(live, start, end)
    {
    }
    if NoneWithin(latest.Keys - live.Keys, start, end) {
      forall c | c in InRange(latest, start, end) ensures c in InRange(live, start, end) {
        var i :| i in latest && start <= i <= end && latest[i] == c;
        assert i !in latest.Keys - live.Keys;
      }
    }
  }

  /** Whether an eviction from a full cache leaves it so sparse that the tree is rebuilt. */
  predicate Rebuilds(maxCacheSize: nat, evictCount: nat) {
    2 * (maxCacheSize + 1 - evictCount) < maxCacheSize
  }

  /** The cache that `newChunkCache` makes evicts a tenth, and so never rebuilds its tree. */
  lemma EvictingATenthNeverRebuilds(maxCacheSize: nat)
    ensures !Rebuilds(maxCacheSize, maxCacheSize / 10)
    ensures DEFAULT_CACHE_SIZE == 1024 && DEFAULT_CACHE_SIZE / 10 == 102
  {
    assert maxCacheSize / 10 <= maxCacheSize / 2;
  }

  lemma AddedSize(m: map<nat, Chunk>, ch: Chunk)
    ensures |m[ch.index := ch]| <= |m| + 1
  {
    assert m[ch.index := ch].Keys == m.Keys + {ch.index};
  }

  lemma RemovedSize(m: map<nat, Chunk>, indices: set<nat>)
    requires indices <= m.Keys
    ensures |m - indices| == |m| - |indices|
  {
    assert (m - indices).Keys == m.Keys - indices;
  }

  /** The part of `m` at or above `lo`. */
  ghost function InWindow(m: map<nat, Chunk>, lo: nat): map<nat, Chunk> {
    map i | i in m && i >= lo :: m[i]
  }

  /** The range-and-delete loop of `evictBefore`. */
  method DropBefore(m: map<nat, Chunk>, lo: nat) returns (kept: map<nat, Chunk>)
    ensures kept == InWindow(m, lo) && |kept| <= |m|
  {
    kept := m;
    var rest := m.Keys;
    while rest != {}
      invariant rest <= m.Keys && |kept| <= |m|
      invariant forall i | i in kept :: i in m && kept[i] == m[i] && (i in rest || i >= lo)
      invariant forall i | i in m && (i in rest || i >= lo) :: i in kept
      decreases rest
    {
      var index :| index in rest;
      if index < lo {
        kept := kept - {index};
      }
      rest := rest - {index};
    }
  }

  /** With a strictly increasing clock, what `AddChunk` promises about its victims keeps the
      chunk that was just added. */
  lemma AddedChunkSurvives(uses: map<nat, int>, index: nat, now: int, victims: set<nat>, maxCacheSize: nat,
      evictCount: nat)
    requires 1 <= evictCount <= maxCacheSize
    requires forall i | i in uses :: uses[i] < now
    requires OldestOf(victims, uses[index := now])
    requires |victims| == if |uses[index := now]| <= maxCacheSize then 0 else evictCount
    ensures index !in victims
  {
    NewestSurvives(victims, uses[index := now], index);
  }

  class ChunkCache {
    const maxCacheSize: nat
    const evictCount: nat
    var intervalTree: IntervalNode?
    var chunkMap: map<nat, Chunk>
    var minIndex: nat
    /** The chunk inserted last at each index of the tree. */
    ghost var latest: map<nat, Chunk>

    /** The nodes of the tree. */
    ghost var nodes: set<IntervalNode>

    ghost var model: Tree<Chunk>

    /** The linked nodes spell out `model`. */
    ghost predicate Linked()
      reads this`intervalTree, this`nodes, this`model, nodes
    {
      if intervalTree == null then nodes == {} && model == Leaf
      else intervalTree in nodes && intervalTree.Repr == nodes && intervalTree.Valid() && intervalTree.Model() == model
    }

    ghost predicate TreeValid()
      reads this`intervalTree, this`nodes, this`model, this`latest, nodes
    {
      Linked() && Represents(model, latest) && KeyedMap(latest)
    }

    /** Each key is its chunk's index and lies in the window; the tree has each live chunk. */
    ghost predicate Coherent()
      reads this, nodes
    {
      && TreeValid()
      && 1 <= evictCount <= maxCacheSize
      && KeyedMap(chunkMap)
      && LiveIn(chunkMap, latest, minIndex)
    }

    ghost predicate Valid()
      reads this, nodes
    {
      Coherent() && |chunkMap| <= maxCacheSize
    }

    /** Indices the tree still has although their chunk was evicted. */
    ghost function Evicted(): set<nat>
      reads this
    {
      latest.Keys - chunkMap.Keys
    }

    constructor ()
      ensures Valid() && fresh(nodes)
      ensures chunkMap == map[] && Evicted() == {} && minIndex == 0
      ensures maxCacheSize == 1024 && evictCount == 102
    {
      maxCacheSize, evictCount := DEFAULT_CACHE_SIZE, DEFAULT_CACHE_SIZE / 10;
      intervalTree, chunkMap, minIndex, latest, nodes, model := null, map[], 0, map[], {}, Leaf;
    }

    method GetChunk(index: nat, now: int) returns (ch: Chunk?)
      requires Valid()
      modifies chunkMap.Values
      ensures Valid()
      ensures if index in chunkMap then ch == chunkMap[index] && ch.lastUsed == now else ch == null
      ensures forall i | i in chunkMap && i != index :: chunkMap[i].lastUsed == old(chunkMap[i].lastUsed)
    {
      if index in chunkMap {
        ch := chunkMap[index];
        ch.lastUsed := now;
      } else {
        ch := null;
      }
    }

    /** Puts one chunk into the tree, starting a tree when there is none. */
    method AddToTree(ch: Chunk)
      requires TreeValid()
      modifies this`intervalTree, this`latest, this`nodes, this`model, nodes
      ensures TreeValid() && fresh(nodes - old(nodes))
      ensures latest == old(latest)[ch.index := ch]
    {
      hide Represents;
      InsertRepresents(model, latest, ch.index, ch);
      if intervalTree == null {
        intervalTree := new IntervalNode(ch.index, ch.index, ch);
      } else {
        intervalTree.InsertInterval(ch.index, ch.index, ch);
      }
      latest, nodes, model := latest[ch.index := ch], intervalTree.Repr, intervalTree.Model();
    }

    method RebuildIntervalTree()
      requires KeyedMap(chunkMap)
      modifies this`intervalTree, this`latest, this`nodes, this`model
      ensures TreeValid() && fresh(nodes)
      ensures latest == chunkMap
    {
      intervalTree, latest, nodes, model := null, map[], {}, Leaf;
      var rest := chunkMap.Keys;
      while rest != {}
        invariant rest <= chunkMap.Keys && TreeValid() && fresh(nodes)
        invariant latest == chunkMap - rest
        decreases rest
      {
        var index :| index in rest;
        AddToTree(chunkMap[index]);
        rest := rest - {index};
      }
    }

    method EvictOldest() returns (ghost victims: set<nat>)
      requires Coherent()
      modifies this`chunkMap, this`intervalTree, this`latest, this`nodes, this`model
      ensures Coherent() && (nodes == old(nodes) || fresh(nodes))
      ensures OldestOf(victims, old(Uses(chunkMap)))
      ensures victims <= old(chunkMap).Keys && chunkMap == old(chunkMap) - victims
      ensures |victims| == if |old(chunkMap)| <= maxCacheSize - evictCount then 0 else Min(evictCount, |old(chunkMap)|)
      ensures latest == if |old(chunkMap)| > maxCacheSize - evictCount && 2 * |chunkMap| < maxCacheSize then chunkMap
                        else old(latest)
    {
      victims := {};
      if |chunkMap| <= maxCacheSize - evictCount {
        return;
      }
      var oldest := SelectOldest(chunkMap, evictCount);
      Discard(oldest);
      RebuildIfSparse();
      victims := oldest;
    }

    method Discard(indices: set<nat>)
      requires Coherent()
      modifies this`chunkMap
      ensures Coherent() && chunkMap == old(chunkMap) - indices
    {
      chunkMap := chunkMap - indices;
    }

    method RebuildIfSparse()
      requires Coherent()
      modifies this`intervalTree, this`latest, this`nodes, this`model
      ensures Coherent() && (nodes == old(nodes) || fresh(nodes))
      ensures latest == if 2 * |chunkMap| < maxCacheSize then chunkMap else old(latest)
    {
      if 2 * |chunkMap| < maxCacheSize {
        RebuildIntervalTree();
      }
    }

    /** The live part of `addChunk`, for a chunk inside the window. */
    method StoreChunk(ch: Chunk, now: int)
      requires Valid() && ch.index >= minIndex
      modifies this`chunkMap, this`intervalTree, this`latest, this`nodes, this`model, nodes, ch`lastUsed
      ensures Coherent() && fresh(nodes - old(nodes))
      ensures chunkMap == old(chunkMap)[ch.index := ch] && latest == old(latest)[ch.index := ch]
      ensures ch.lastUsed == now && Uses(chunkMap) == old(Uses(chunkMap))[ch.index := now]
    {
      hide TreeValid, LiveIn, KeyedMap, Uses;
      LiveInAdds(chunkMap, latest, minIndex, ch);
      RecordUse(ch, now);
      AddToTree(ch);
    }

    method RecordUse(ch: Chunk, now: int)
      requires KeyedMap(chunkMap)
      modifies this`chunkMap, ch`lastUsed
      ensures chunkMap == old(chunkMap)[ch.index := ch]
      ensures ch.lastUsed == now && Uses(chunkMap) == old(Uses(chunkMap))[ch.index := now]
    {
      ch.lastUsed := now;
      chunkMap := chunkMap[ch.index := ch];
    }

    /** `victims` is the set of evicted indices. */
    method AddChunk(ch: Chunk, now: int) returns (ghost victims: set<nat>)
      requires Valid()
      modifies this`chunkMap, this`intervalTree, this`latest, this`nodes, this`model, nodes, ch`lastUsed
      ensures Valid() && fresh(nodes - old(nodes))
      ensures ch.index < minIndex ==>
                victims == {} && chunkMap == old(chunkMap) && latest == old(latest) && ch.lastUsed == old(ch.lastUsed)
      ensures ch.index >= minIndex ==>
                && ch.lastUsed == now
                && var added := old(chunkMap)[ch.index := ch];
                && chunkMap == added - victims && OldestOf(victims, old(Uses(chunkMap))[ch.index := now])
                && |victims| == (if |added| <= maxCacheSize then 0 else evictCount)
                && latest == if |added| > maxCacheSize && Rebuilds(maxCacheSize, evictCount) then chunkMap
                             else old(latest)[ch.index := ch]
    {
      hide TreeValid, LiveIn, KeyedMap, Uses;
      victims := {};
      if ch.index < minIndex {
        return;
      }
      StoreChunk(ch, now);
      AddedSize(old(chunkMap), ch);
      if |chunkMap| > maxCacheSize {
        ghost var added := chunkMap;
        victims := EvictOldest();
        RemovedSize(added, victims);
      }
    }

    method EvictBefore(minIdx: nat)
      requires Valid()
      modifies this`chunkMap, this`minIndex
      ensures Valid()
      ensures minIndex == if minIdx <= old(minIndex) then old(minIndex) else minIdx
      ensures chunkMap == InWindow(old(chunkMap), minIndex)
    {
      hide TreeValid;
      if minIdx <= minIndex {
        assert chunkMap == InWindow(chunkMap, minIndex);
        return;
      }
      minIndex := minIdx;
      chunkMap := DropBefore(chunkMap, minIdx);
    }

    /** Finds every live chunk in the range, and beside them exactly the chunks of the range that were
        evicted since the tree was last rebuilt or cleared. */
    method FindOverlappingChunks(start: int, end: int) returns (result: seq<Chunk>)
      requires Valid()
      ensures Elements(result) == InRange(latest, start, end)
      ensures InRange(chunkMap, start, end) <= Elements(result)
      ensures Elements(result) == InRange(chunkMap, start, end) <==> NoneWithin(Evicted(), start, end)
    {
      HeldChunksAreKeyed(model, latest);
      result := IntervalNode.FindOverlaps(intervalTree, start, end, []);
      FoundIsInRange(model, latest, start, end);
      assert Elements(result) == InRange(latest, start, end);
      RangeIsLiveIff(chunkMap, latest, minIndex, start, end);
    }

    method Clear()
      requires 1 <= evictCount <= maxCacheSize
      modifies this`chunkMap, this`intervalTree, this`latest, this`nodes, this`model
      ensures Valid() && chunkMap == map[] && Evicted() == {}
    {
      chunkMap, intervalTree, latest, nodes, model := map[], null, map[], {}, Leaf;
    }
  }

  /** A chunk that has left the window is still found. */
  method EvictedChunkIsFound(data: seq<byte>) returns (live: map<nat, Chunk>, found: seq<Chunk>)
    ensures live == map[] && found != [] && forall ch | ch in found :: ch.index == 0
  {
    hide ChunkCache.TreeValid, LiveIn, KeyedMap, OldestOf, Uses;
    var cache := new ChunkCache();
    var ch := new Chunk(0, data, |data|, 0);
    var victims := cache.AddChunk(ch, 1);
    assert cache.chunkMap == map[0 := ch] && victims == {};
    cache.EvictBefore(1);
    live := cache.chunkMap;
    found := cache.FindOverlappingChunks(0, 0);
    assert ch in InRange(cache.latest, 0, 0);
    assert ch in Elements(found);
    forall c | c in found ensures c.index == 0 {
      assert c in Elements(found);
    }
  }
}
