/** The interval tree as linked, updated-in-place nodes, proved against the tree value. */
module IntervalNodes {
  import opened Chunks
  import opened IntervalTree

  ghost predicate Keyed(t: Tree<Chunk>) {
    t.Node? ==> KeyedMap(t.chunks) && Keyed(t.left) && Keyed(t.right)
  }

  class IntervalNode {
    var start: nat
    var end: nat
    var chunks: map<nat, Chunk>
    var left: IntervalNode?
    var right: IntervalNode?
    var max: nat
    ghost var Repr: set<IntervalNode>

    ghost predicate Valid()
      reads this, Repr
      decreases Repr
    {
      && this in Repr
      && (left != null ==> left in Repr && left.Repr <= Repr - {this} && left.Valid())
      && (right != null ==> right in Repr && right.Repr <= Repr - {this} && right.Valid())
      && (left != null && right != null ==> left.Repr !! right.Repr)
    }

    /** The subtree as a value. */
    ghost function Model(): Tree<Chunk>
      requires Valid()
      reads this, Repr
      decreases Repr
    {
      Node(start, end, chunks, max,
           if left == null then Leaf else left.Model(),
           if right == null then Leaf else right.Model())
    }

    constructor (start: nat, end: nat, ch: Chunk)
      ensures Valid() && fresh(Repr) && Repr == {this}
      ensures Model() == Node(start, end, map[ch.index := ch], end, Leaf, Leaf)
    {
      this.start, this.end, this.max := start, end, end;
      chunks := map[ch.index := ch];
      left, right := null, null;
      Repr := {this};
    }

    method InsertInterval(start: nat, end: nat, ch: Chunk)
      requires Valid()
      modifies Repr
      ensures Valid() && fresh(Repr - old(Repr))
      ensures Model() == Insert(old(Model()), start, end, ch.index, ch)
      decreases Repr, 0
    {
      if start <= this.start {
        LinkLeft(start, end, ch);
      } else {
        LinkRight(start, end, ch);
      }
      Cover(start, end, ch);
    }

    /** The part of `insertInterval` that touches only this node. */
    method Cover(start: nat, end: nat, ch: Chunk)
      requires Valid()
      modifies this
      ensures Valid() && Repr == old(Repr)
      ensures Model() == var m := old(Model());
                         m.(max := if end > m.max then end else m.max,
                            chunks := if end < m.start || start > m.end then m.chunks else m.chunks[ch.index := ch])
    {
      if end > max {
        max := end;
      }
      if !(end < this.start || start > this.end) {
        chunks := chunks[ch.index := ch];
      }
    }

    method LinkLeft(start: nat, end: nat, ch: Chunk)
      requires Valid()
      modifies Repr
      ensures Valid() && fresh(Repr - old(Repr))
      ensures unchanged(this`start, this`end, this`chunks, this`max)
      ensures Model() == var m := old(Model()); m.(left := InsertChild(m.left, start, end, ch.index, ch))
      decreases Repr - {this}, 2
    {
      left := InsertNode(left, start, end, ch, Repr - {this});
      Repr := Repr + left.Repr;
    }

    method LinkRight(start: nat, end: nat, ch: Chunk)
      requires Valid()
      modifies Repr
      ensures Valid() && fresh(Repr - old(Repr))
      ensures unchanged(this`start, this`end, this`chunks, this`max)
      ensures Model() == var m := old(Model()); m.(right := InsertChild(m.right, start, end, ch.index, ch))
      decreases Repr - {this}, 2
    {
      right := InsertNode(right, start, end, ch, Repr - {this});
      Repr := Repr + right.Repr;
    }

    /** `insertChild`: link a new node for an empty child, else insert below the child. */
    static method InsertNode(node: IntervalNode?, start: nat, end: nat, ch: Chunk, ghost bound: set<IntervalNode>)
      returns (r: IntervalNode)
      requires node != null ==> node.Valid() && node.Repr <= bound
      modifies if node == null then {} else node.Repr
      ensures r.Valid()
      ensures fresh(r.Repr - if node == null then {} else old(node.Repr))
      ensures r.Model() == InsertChild(if node == null then Leaf else old(node.Model()), start, end, ch.index, ch)
      decreases bound, 1
    {
      if node == null {
        r := new IntervalNode(start, end, ch);
      } else {
        node.InsertInterval(start, end, ch);
        r := node;
      }
    }

    /** `findOverlapsRecursive`: collects into `result` in the order of the search. */
    static method FindOverlaps(node: IntervalNode?, start: int, end: int, found: seq<Chunk>)
      returns (result: seq<Chunk>)
      requires node != null ==> node.Valid() && Keyed(node.Model())
      ensures Elements(result)
              == Elements(found) + Found(if node == null then Leaf else node.Model(), start, end)
      decreases if node == null then {} else node.Repr
    {
      result := found;
      if node == null || start > node.max {
        return;
      }
      result := FindOverlaps(node.left, start, end, result);
      if !(end < node.start || start > node.end) {
        result := CollectInRange(node.chunks, start, end, result);
      }
      if end >= node.start {
        result := FindOverlaps(node.right, start, end, result);
      }
    }

    static method CollectInRange(chunks: map<nat, Chunk>, start: int, end: int, found: seq<Chunk>)
      returns (result: seq<Chunk>)
      requires KeyedMap(chunks)
      ensures Elements(result) == Elements(found) + InRange(chunks, start, end)
    {
      result := found;
      var rest := chunks.Keys;
      while rest != {}
        invariant rest <= chunks.Keys
        invariant Elements(result) == Elements(found) + InRange(chunks - rest, start, end)
        decreases rest
      {
        var key :| key in rest;
        assert chunks - (rest - {key}) == (chunks - rest)[key := chunks[key]];
        InRangeExtend(chunks - rest, key, chunks[key], start, end);
        rest := rest - {key};
        if chunks[key].index >= start && chunks[key].index <= end {
          ElementsAppend(result, chunks[key]);
          result := result + [chunks[key]];
        }
      }
      assert chunks - rest == chunks;
    }
  }
}
