/** A cached chunk: only its time of last use ever changes. */
module Chunks {
  import opened Basics

  class Chunk {
    const index: nat
    const data: seq<byte>
    const size: nat
    var lastUsed: int

    constructor (index: nat, data: seq<byte>, size: nat, lastUsed: int)
      ensures this.index == index && this.data == data && this.size == size && this.lastUsed == lastUsed
    {
      this.index, this.data, this.size, this.lastUsed := index, data, size, lastUsed;
    }
  }

  /** Every chunk is filed under its own index. */
  ghost predicate KeyedMap(m: map<nat, Chunk>) {
    forall i | i in m :: m[i].index == i
  }

  ghost function Elements(s: seq<Chunk>): set<Chunk> {
    set c | c in s
  }

  lemma ElementsAppend(s: seq<Chunk>, ch: Chunk)
    ensures Elements(s + [ch]) == Elements(s) + {ch}
  {
    forall c | c in Elements(s) + {ch} ensures c in s + [ch] {
      if c == ch {
        assert (s + [ch])[|s|] == c;
      }
    }
  }
}
