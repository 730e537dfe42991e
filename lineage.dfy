/** TorchAlert/TorchAlert.Core/ParentsLookupTree.cs: the split lineage forest.
    Each grid id maps to a node whose parent link leads to the node of the grid it split
    from; `GetParentsOf` walks those links. */
module Lineage {
  import opened Seqs

  /** Reference definition: the ancestors of `id` after the splits `history` were recorded in
      order, each pair being (parent, child). The last record naming `id` as a child decides
      its parent; the rest of the chain is the parent's chain as it was at that moment. */
  function Ancestors<T(==)>(history: seq<(T, T)>, id: T): seq<T>
    decreases |history|
  {
    if history == [] then []
    else
      var (p, c) := Last(history);
      if c == id then [p] + Ancestors(DropLast(history), p)
      else Ancestors(DropLast(history), id)
  }

  /** `id` occurs in some record of `history`, as parent or as child. */
  predicate Mentioned<T(==)>(history: seq<(T, T)>, id: T) {
    exists i :: 0 <= i < |history| && (history[i].0 == id || history[i].1 == id)
  }

  /** After `Add(p, c)`, the chain of `c` is `p` followed by `p`'s chain. */
  lemma {:induction false} AncestorsAfterAdd<T>(history: seq<(T, T)>, p: T, c: T)
    ensures Ancestors(history + [(p, c)], c) == [p] + Ancestors(history, p)
  {
    assert DropLast(history + [(p, c)]) == history;
  }

  /** `Add(p, c)` changes the chain of no id other than `c`. */
  lemma {:induction false} AddLeavesOthers<T>(history: seq<(T, T)>, p: T, c: T, id: T)
    requires id != c
    ensures Ancestors(history + [(p, c)], id) == Ancestors(history, id)
  {
    assert DropLast(history + [(p, c)]) == history;
  }

  /** The ids named by `history`, as parent or as child: the keys of the dictionary. */
  function Ids<T(==)>(history: seq<(T, T)>): set<T>
    decreases |history|
  {
    if history == [] then {}
    else
      var (p, c) := Last(history);
      Ids(DropLast(history)) + {p, c}
  }

  /** `Ids` collects exactly the mentioned ids. */
  lemma {:induction false} IdsAreMentioned<T>(history: seq<(T, T)>, id: T)
    ensures id in Ids(history) <==> Mentioned(history, id)
    decreases |history|
  {
    if history != [] {
      var h := DropLast(history);
      IdsAreMentioned(h, id);
      assert Last(history) == history[|history| - 1];
      if Mentioned(h, id) {
        var i :| 0 <= i < |h| && (h[i].0 == id || h[i].1 == id);
        assert history[i] == h[i];
      }
      if Mentioned(history, id) && !Mentioned(h, id) {
        var i :| 0 <= i < |history| && (history[i].0 == id || history[i].1 == id);
        assert i == |h|;
      }
    }
  }

  /** An id never recorded has no ancestors. */
  lemma {:induction false} UnmentionedHasNoAncestors<T>(history: seq<(T, T)>, id: T)
    requires id !in Ids(history)
    ensures Ancestors(history, id) == []
    decreases |history|
  {
    if history != [] {
      UnmentionedHasNoAncestors(DropLast(history), id);
    }
  }

  /** An id recorded only as a parent, never as a child, has no ancestors. */
  lemma {:induction false} RootHasNoAncestors<T>(history: seq<(T, T)>, id: T)
    requires forall i :: 0 <= i < |history| ==> history[i].1 != id
    ensures Ancestors(history, id) == []
    decreases |history|
  {
    if history != [] {
      var h := DropLast(history);
      assert Last(history) == history[|history| - 1];
      forall i | 0 <= i < |h| ensures h[i].1 != id {
        assert h[i] == history[i];
      }
      RootHasNoAncestors(h, id);
    }
  }

  /** The walk is finite: a chain is never longer than the number of recorded splits. */
  lemma {:induction false} AncestorsBounded<T>(history: seq<(T, T)>, id: T)
    ensures |Ancestors(history, id)| <= |history|
    decreases |history|
  {
    if history != [] {
      var (p, c) := Last(history);
      AncestorsBounded(DropLast(history), p);
      AncestorsBounded(DropLast(history), id);
    }
  }

  /** Every ancestor is the parent named by some recorded split. */
  lemma {:induction false} AncestorsAreRecordedParents<T>(history: seq<(T, T)>, id: T, a: T)
    requires a in Ancestors(history, id)
    ensures exists i :: 0 <= i < |history| && history[i].0 == a
    decreases |history|
  {
    var h := DropLast(history);
    var (p, c) := Last(history);
    assert Last(history) == history[|history| - 1];
    if c == id && a == p {
      assert history[|history| - 1].0 == a;
    } else {
      var next := if c == id then p else id;
      assert a in Ancestors(h, next);
      AncestorsAreRecordedParents(h, next, a);
      var i :| 0 <= i < |h| && h[i].0 == a;
      assert history[i] == h[i];
    }
  }

  /** Re-adding a child replaces its chain, while a grid that split from it earlier keeps the
      chain it was given: after (a, b), (b, c) and then (x, b), grid `c` still descends from
      `b` and `a`, but `b` now descends from `x` only. */
  lemma {:induction false} ReAddKeepsDescendantChains<T>(a: T, b: T, c: T, x: T)
    requires a != b && b != c && a != c && x != b && x != c
    ensures Ancestors([(a, b), (b, c), (x, b)], c) == [b, a]
    ensures Ancestors([(a, b), (b, c), (x, b)], b) == [x]
  {
    var h := [(a, b), (b, c), (x, b)];
    assert DropLast(h) == [(a, b), (b, c)];
    assert DropLast([(a, b), (b, c)]) == [(a, b)];
    assert DropLast([(a, b)]) == [];
    assert Ancestors([(a, b)], a) == [];
    assert Ancestors([(a, b)], b) == [a];
    assert Ancestors([(a, b), (b, c)], c) == [b, a];
    assert Ancestors([(a, b), (b, c)], x) == [] by {
      assert Ancestors([(a, b)], x) == [];
    }
  }

  /** Ids are not unique along a chain: after (a, b) and then (b, a), grid `a` has `b` and
      the earlier node of `a` itself among its ancestors. */
  lemma {:induction false} IdCanRecurInItsOwnChain<T>(a: T, b: T)
    requires a != b
    ensures Ancestors([(a, b), (b, a)], a) == [b, a]
  {
    assert DropLast([(a, b), (b, a)]) == [(a, b)];
    assert DropLast([(a, b)]) == [];
    assert Ancestors([(a, b)], b) == [a];
  }

  /** A node of the forest. `Parent` is assigned once, by `Add`, right after the node is
      created and before the node is published in the dictionary; it is never reassigned, so
      here it is fixed at construction. */
  class Node<T> {
    const value: T
    const parent: Node?<T>
    ghost const chain: seq<T>   // the values met walking up from `parent`
    ghost const depth: nat      // the number of nodes above this one

    ghost predicate Valid()
      decreases depth
    {
      (parent == null ==> depth == 0 && chain == []) &&
      (parent != null ==>
        parent.depth < depth && chain == [parent.value] + parent.chain && parent.Valid())
    }

    constructor (value: T, parent: Node?<T>)
      requires parent != null ==> parent.Valid()
      ensures this.value == value && this.parent == parent && Valid()
      ensures parent == null ==> chain == []
      ensures parent != null ==> chain == [parent.value] + parent.chain
    {
      this.value := value;
      this.parent := parent;
      if parent == null {
        chain := [];
        depth := 0;
      } else {
        chain := [parent.value] + parent.chain;
        depth := parent.depth + 1;
      }
    }

    /** `TraverseParents()`: the values from `Parent` upwards, never this node's own value. */
    method TraverseParents() returns (ids: seq<T>)
      requires Valid()
      ensures ids == chain
    {
      var node := parent;
      ids := [];
      while node != null
        invariant node != null ==> node.Valid() && ids + [node.value] + node.chain == chain
        invariant node == null ==> ids == chain
        decreases if node == null then 0 else node.depth + 1
      {
        ids := ids + [node.value];
        node := node.parent;
      }
    }
  }

  class ParentsLookupTree<T(==)> {
    var nodes: map<T, Node<T>>
    ghost var History: seq<(T, T)>   // every (parent, child) passed to Add, in order

    /** Every entry is a well-formed node holding its own key, whose walk upwards gives the
        reference ancestors of the key; the keys are the ids ever added. */
    ghost predicate Valid()
      reads this
    {
      nodes.Keys == Ids(History) &&
      forall k :: k in nodes ==>
        nodes[k].Valid() && nodes[k].value == k && nodes[k].chain == Ancestors(History, k)
    }

    constructor ()
      ensures Valid() && nodes == map[] && History == []
    {
      nodes := map[];
      History := [];
    }

    /** `Add(parent, child)`: records that `child` split from `parent`. The parent's entry is
        created on first sight and kept otherwise; the child always gets a new node, replacing
        any earlier entry of its own. */
    method Add(parent: T, child: T)
      requires Valid()
      modifies this
      ensures Valid()
      ensures History == old(History) + [(parent, child)]
      ensures nodes.Keys == old(nodes.Keys) + {parent, child}
      ensures forall k :: k in old(nodes) && k != child ==> nodes[k] == old(nodes[k])
      ensures fresh(nodes[child])
    {
      ghost var h := History;
      var parentNode: Node<T>;
      if parent in nodes {
        parentNode := nodes[parent];
      } else {
        parentNode := new Node(parent, null);
        nodes := nodes[parent := parentNode];
        UnmentionedHasNoAncestors(h, parent);
      }
      ghost var h' := h + [(parent, child)];
      assert DropLast(h') == h;
      var childNode := new Node(child, parentNode);
      ghost var before := nodes;
      nodes := nodes[child := childNode];
      History := h';
      forall k | k in nodes
        ensures nodes[k].Valid() && nodes[k].value == k && nodes[k].chain == Ancestors(h', k)
      {
        if k != child {
          assert nodes[k] == before[k];
        }
      }
    }

    /** `GetParentsOf(child)`: the recorded ancestors of `child`, empty if it was never added.
        Reads the dictionary and changes nothing. */
    method GetParentsOf(child: T) returns (ids: seq<T>)
      requires Valid()
      ensures ids == Ancestors(History, child)
    {
      if child !in nodes {
        ids := [];
        UnmentionedHasNoAncestors(History, child);
      } else {
        ids := nodes[child].TraverseParents();
      }
    }
  }

  /** The scenario of a re-added child, run on the class itself. */
  method ReAddScenario() returns (ofThree: seq<int>, ofTwo: seq<int>)
    ensures ofThree == [2, 1] && ofTwo == [9]
  {
    var tree := new ParentsLookupTree<int>();
    tree.Add(1, 2);
    assert tree.History == [(1, 2)];
    tree.Add(2, 3);
    assert tree.History == [(1, 2), (2, 3)];
    tree.Add(9, 2);
    assert tree.History == [(1, 2), (2, 3), (9, 2)];
    ofThree := tree.GetParentsOf(3);
    ofTwo := tree.GetParentsOf(2);
    ReAddKeepsDescendantChains(1, 2, 3, 9);
  }
}
