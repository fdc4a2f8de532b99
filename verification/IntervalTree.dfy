/** The unbalanced interval tree that the chunk cache keeps beside its map, as a value.

    Every insertion the cache makes is a point interval `[i, i]`, and an index that is added
    again gets a second node below the first.  The tree therefore holds several nodes for one
    index; what makes it usable is that all of them hold the chunk inserted last. */
module IntervalTree {

  datatype Tree<+C> =
    | Leaf
    | Node(start: nat, end: nat, chunks: map<nat, C>, max: nat, left: Tree<C>, right: Tree<C>)

  function InsertChild<C>(t: Tree<C>, start: nat, end: nat, index: nat, ch: C): Tree<C>
    decreases t, 1
  {
    if t.Leaf? then Node(start, end, map[index := ch], end, Leaf, Leaf)
    else Insert(t, start, end, index, ch)
  }

  function Insert<C>(t: Tree<C>, start: nat, end: nat, index: nat, ch: C): (r: Tree<C>)
    requires t.Node?
    ensures r.Node? && r.start == t.start && r.end == t.end
    decreases t, 0
  {
    var linked :=
      if start <= t.start then t.(left := InsertChild(t.left, start, end, index, ch))
      else t.(right := InsertChild(t.right, start, end, index, ch));
    linked.(max := if end > t.max then end else t.max,
            chunks := if end < t.start || start > t.end then t.chunks else t.chunks[index := ch])
  }

  /** The indices for which the tree has a node. */
  function Indices<C>(t: Tree<C>): set<nat> {
    if t.Leaf? then {} else Indices(t.left) + {t.start} + Indices(t.right)
  }

  /** Search-tree order with duplicates to the left; `max` bounds the subtree; point nodes. */
  ghost predicate Ordered<C>(t: Tree<C>) {
    t.Node? ==>
      && Ordered(t.left) && Ordered(t.right)
      && t.end == t.start && t.chunks.Keys == {t.start}
      && (forall i | i in Indices(t.left) :: i <= t.start)
      && (forall i | i in Indices(t.right) :: t.start < i)
      && (forall i | i in Indices(t) :: i <= t.max)
  }

  /** `latest` gives for each index the chunk inserted last; every node at an index holds it. */
  ghost predicate Holds<C>(t: Tree<C>, latest: map<nat, C>) {
    t.Node? ==>
      && t.start in latest && t.chunks == map[t.start := latest[t.start]]
      && Holds(t.left, latest) && Holds(t.right, latest)
  }

  /** The tree represents exactly the map `latest`. */
  ghost predicate Represents<C>(t: Tree<C>, latest: map<nat, C>) {
    Ordered(t) && Indices(t) == latest.Keys && Holds(t, latest)
  }

  lemma {:induction false} HoldsElsewhere<C>(t: Tree<C>, latest: map<nat, C>, index: nat, ch: C)
    requires Holds(t, latest) && index !in Indices(t)
    ensures Holds(t, latest[index := ch])
  {
    if t.Node? {
      HoldsElsewhere(t.left, latest, index, ch);
      HoldsElsewhere(t.right, latest, index, ch);
    }
  }

  lemma {:induction false} InsertOrdered<C>(t: Tree<C>, index: nat, ch: C)
    requires Ordered(t)
    ensures var r := InsertChild(t, index, index, index, ch);
            Ordered(r) && Indices(r) == Indices(t) + {index}
  {
    if t.Node? {
      if index <= t.start {
        InsertOrdered(t.left, index, ch);
      } else {
        InsertOrdered(t.right, index, ch);
      }
      assert Indices(InsertChild(t, index, index, index, ch)) == Indices(t) + {index};
    }
  }

  lemma {:induction false} InsertHolds<C>(t: Tree<C>, latest: map<nat, C>, index: nat, ch: C)
    requires Ordered(t) && Holds(t, latest)
    ensures Holds(InsertChild(t, index, index, index, ch), latest[index := ch])
  {
    if t.Node? {
      if index <= t.start {
        InsertHolds(t.left, latest, index, ch);
        HoldsElsewhere(t.right, latest, index, ch);
      } else {
        InsertHolds(t.right, latest, index, ch);
        HoldsElsewhere(t.left, latest, index, ch);
      }
    }
  }

  /** Inserting an index updates every node that index already has, wherever they are. */
  lemma InsertRepresents<C>(t: Tree<C>, latest: map<nat, C>, index: nat, ch: C)
    requires Represents(t, latest)
    ensures Represents(InsertChild(t, index, index, index, ch), latest[index := ch])
  {
    InsertOrdered(t, index, ch);
    InsertHolds(t, latest, index, ch);
  }

  /** The part of a map whose keys lie in `[start, end]`. */
  ghost function InRange<C>(m: map<nat, C>, start: int, end: int): set<C> {
    set i | i in m && start <= i <= end :: m[i]
  }

  lemma InRangeExtend<C>(m: map<nat, C>, index: nat, ch: C, start: int, end: int)
    requires index !in m
    ensures InRange(m[index := ch], start, end) == InRange(m, start, end) + if start <= index <= end then {ch} else {}
  {
    var more := m[index := ch];
    forall c | c in InRange(m, start, end) ensures c in InRange(more, start, end) {
      var i :| i in m && start <= i <= end && m[i] == c;
      assert more[i] == c;
    }
    assert more[index] == ch;
  }

  /** What the pruned search returns, as a set. */
  ghost function Found<C>(t: Tree<C>, start: int, end: int): set<C> {
    if t.Leaf? || start > t.max then {}
    else
      Found(t.left, start, end)
      + (if end < t.start || start > t.end then {}
         else InRange(t.chunks, start, end))
      + (if end >= t.start then Found(t.right, start, end) else {})
  }

  lemma {:induction false} FoundIn<C>(t: Tree<C>, latest: map<nat, C>, start: int, end: int)
    requires Ordered(t) && Holds(t, latest) && Indices(t) <= latest.Keys
    ensures Found(t, start, end) == set i | i in Indices(t) && start <= i <= end :: latest[i]
  {
    if t.Node? {
      FoundIn(t.left, latest, start, end);
      FoundIn(t.right, latest, start, end);
    }
  }

  /** Neither pruning rule of the search loses or adds anything. */
  lemma FoundIsInRange<C>(t: Tree<C>, latest: map<nat, C>, start: int, end: int)
    requires Represents(t, latest)
    ensures Found(t, start, end) == InRange(latest, start, end)
  {
    FoundIn(t, latest, start, end);
  }
}
