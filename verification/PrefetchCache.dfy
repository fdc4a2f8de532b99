/** The cache steps of the concurrent prefetcher are what the chunk cache does. */
module PrefetchCache {
  import opened Basics
  import opened ChunkCaches
  import Chunks
  import R = PrefetchRuns

  /** What the concurrent model sees of the live chunks. */
  ghost function Shown(live: map<nat, Chunks.Chunk>, view: Chunks.Chunk -> R.Chunk): map<nat, R.Chunk> {
    map i | i in live :: view(live[i])
  }

  /** The machine's cache is the one shown. */
  ghost predicate Shows(s: R.State, live: map<nat, Chunks.Chunk>, minIndex: nat, view: Chunks.Chunk -> R.Chunk) {
    s.cache == Shown(live, view) && s.minIndex == minIndex
  }

  lemma AddedIsShown(s: R.State, live: map<nat, Chunks.Chunk>, live': map<nat, Chunks.Chunk>, minIndex: nat,
                     ch: Chunks.Chunk, victims: set<nat>, view: Chunks.Chunk -> R.Chunk)
    requires Shows(s, live, minIndex, view) && view(ch).index == ch.index
    requires live' == if ch.index < minIndex then live else live[ch.index := ch] - victims
    ensures Shows(R.AddChunk(s, view(ch), victims), live', minIndex, view)
  {
    assert R.AddChunk(s, view(ch), victims).cache == Shown(live', view);
  }

  lemma EvictedIsShown(s: R.State, live: map<nat, Chunks.Chunk>, minIndex: nat, lo: nat, view: Chunks.Chunk -> R.Chunk)
    requires Shows(s, live, minIndex, view) && forall i | i in live :: minIndex <= i
    ensures var low := if lo <= minIndex then minIndex else lo;
            Shows(R.EvictBefore(s, lo), InWindow(live, low), low, view)
  {
    var low := if lo <= minIndex then minIndex else lo;
    assert R.EvictBefore(s, lo).cache == Shown(InWindow(live, low), view);
  }

  /** Whatever the cache evicts, adding a chunk to it is a step the machine allows for. */
  method AddChunkIsAStep(cache: ChunkCache, ch: Chunks.Chunk, now: int, ghost s: R.State,
                         ghost view: Chunks.Chunk -> R.Chunk)
    returns (ghost victims: set<nat>)
    requires cache.Valid() && Shows(s, cache.chunkMap, cache.minIndex, view) && view(ch).index == ch.index
    modifies cache`chunkMap, cache`intervalTree, cache`latest, cache`nodes, cache`model, cache.nodes, ch`lastUsed
    ensures cache.Valid() && Shows(R.AddChunk(s, view(ch), victims), cache.chunkMap, cache.minIndex, view)
  {
    ghost var live := cache.chunkMap;
    victims := cache.AddChunk(ch, now);
    AddedIsShown(s, live, cache.chunkMap, cache.minIndex, ch, victims, view);
  }

  /** Moving the window is the machine's step. */
  method EvictBeforeIsAStep(cache: ChunkCache, lo: nat, ghost s: R.State, ghost view: Chunks.Chunk -> R.Chunk)
    requires cache.Valid() && Shows(s, cache.chunkMap, cache.minIndex, view)
    modifies cache`chunkMap, cache`minIndex
    ensures cache.Valid() && Shows(R.EvictBefore(s, lo), cache.chunkMap, cache.minIndex, view)
  {
    EvictedIsShown(s, cache.chunkMap, cache.minIndex, lo, view);
    cache.EvictBefore(lo);
  }
}
