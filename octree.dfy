/** TorchAlarm.Discord/TorchAlarm.Core/Octree.cs: a tree of fixed depth whose inner nodes have
    eight children and whose depth-0 nodes hold a list of elements. The shape is built once by
    the constructor; `Add` appends to one leaf list. Positions are "normal" positions, each
    coordinate meant to lie in [0, 1]. */
module Octree {
  import opened Seqs

  datatype Vector3D = Vector3D(x: real, y: real, z: real)

  function Pow8(d: nat): (r: nat)
    ensures r >= 1
  {
    if d == 0 then 1 else 8 * Pow8(d - 1)
  }

  /** `Math.Round(double)`: the nearest integer, ties to the even one. */
  function RoundHalfEven(x: real): (r: int)
    ensures r as real - 0.5 <= x <= r as real + 0.5
    ensures (x == r as real - 0.5 || x == r as real + 0.5) ==> r % 2 == 0
  {
    var f := x.Floor;
    var frac := x - f as real;
    if frac < 0.5 then f
    else if frac > 0.5 then f + 1
    else if f % 2 == 0 then f
    else f + 1
  }

  /** `GoDeep` as written: the child index along one axis and the position inside that child. */
  function GoDeep(normal: real): (r: (int, real))
  {
    var rounded := RoundHalfEven(normal * 2.0);
    var index := if rounded as real >= 1.0 then rounded else 1;
    var nestedPosition := if index == 0 then normal * 2.0 else (normal - 0.5) * 2.0;
    (index, nestedPosition)
  }

  /** The clamp is `Max`, so the index is never 0, the `index == 0` branch is dead, and the
      nested position is always `(normal - 0.5) * 2`. */
  lemma GoDeepIndexNeverZero(normal: real)
    ensures GoDeep(normal).0 >= 1
    ensures GoDeep(normal).1 == (normal - 0.5) * 2.0
    ensures GoDeep(normal).0 == 1 <==> normal * 2.0 < 1.5
  {
    var r := RoundHalfEven(normal * 2.0);
    if normal * 2.0 < 1.5 {
      assert r <= 1;
    } else {
      assert r >= 2;
    }
  }

  /** The child slot `x + 2y + 4z` for a position. */
  function Slot(p: Vector3D): int {
    GoDeep(p.x).0 + GoDeep(p.y).0 * 2 + GoDeep(p.z).0 * 4
  }

  function Nested(p: Vector3D): Vector3D {
    Vector3D(GoDeep(p.x).1, GoDeep(p.y).1, GoDeep(p.z).1)
  }

  /** Every slot `GoDeep` can produce is at least 7; with any axis index 2 it is past the eight
      children. */
  lemma SlotAtLeastSeven(p: Vector3D)
    ensures Slot(p) >= 7
    ensures Slot(p) < 8 <==> GoDeep(p.x).0 == 1 && GoDeep(p.y).0 == 1 && GoDeep(p.z).0 == 1
  {
    GoDeepIndexNeverZero(p.x);
    GoDeepIndexNeverZero(p.y);
    GoDeepIndexNeverZero(p.z);
  }

  /** Concrete inputs: the centre of the cube goes past the eight children, and the corner at
      the origin is sent to slot 7 at nested position -1, outside [0, 1]. */
  lemma GoDeepCounterexample()
    ensures Slot(Vector3D(0.9, 0.9, 0.9)) == 14
    ensures GoDeep(0.0) == (1, -1.0) && Slot(Vector3D(0.0, 0.0, 0.0)) == 7
  {
    assert RoundHalfEven(1.8) == 2;
    assert RoundHalfEven(0.0) == 0;
  }

  /** `Add` indexes `_children` with the slot at every level down to the leaves: the position
      has to stay inside the array all the way. */
  predicate Fits(depth: nat, p: Vector3D)
    decreases depth
  {
    depth == 0 || (0 <= Slot(p) < 8 && Fits(depth - 1, Nested(p)))
  }

  /** The leaf `Add` reaches, counted in enumeration order. */
  function LeafIndex(depth: nat, p: Vector3D): (k: nat)
    requires Fits(depth, p)
    ensures k < Pow8(depth)
    decreases depth
  {
    if depth == 0 then 0
    else
      var rest := LeafIndex(depth - 1, Nested(p));
      SlotScale(Slot(p), Pow8(depth - 1), rest);
      Slot(p) * Pow8(depth - 1) + rest
  }

  lemma SlotScale(i: int, n: nat, m: nat)
    requires 0 <= i < 8 && m < n
    ensures 0 <= i * n + m < 8 * n
  {
    assert i * n <= 7 * n;
  }

  /** As written, the only leaf `Add` can reach at depth d is the last one. */
  lemma {:induction false} OnlyLastLeaf(depth: nat, p: Vector3D)
    requires Fits(depth, p)
    ensures LeafIndex(depth, p) == Pow8(depth) - 1
    decreases depth
  {
    if depth > 0 {
      SlotAtLeastSeven(p);
      OnlyLastLeaf(depth - 1, Nested(p));
    }
  }

  /** The evidently intended `GoDeep`: the half of [0, 1] the coordinate lies in (0 or 1), and
      the coordinate rescaled inside that half. */
  function GoDeepIntended(normal: real): (r: (int, real))
    requires 0.0 <= normal <= 1.0
    ensures r.0 == 0 || r.0 == 1
    ensures 0.0 <= r.1 <= 1.0
    ensures normal == (r.0 as real + r.1) / 2.0
  {
    var index := if (normal * 2.0).Floor <= 1 then (normal * 2.0).Floor else 1;
    var nestedPosition := if index == 0 then normal * 2.0 else (normal - 0.5) * 2.0;
    (index, nestedPosition)
  }

  predicate IsNormal(p: Vector3D) {
    0.0 <= p.x <= 1.0 && 0.0 <= p.y <= 1.0 && 0.0 <= p.z <= 1.0
  }

  /** With the intended `GoDeep`, every normal position picks one of the eight children and
      stays normal inside it. */
  lemma IntendedSlotInRange(p: Vector3D)
    requires IsNormal(p)
    ensures var s := GoDeepIntended(p.x).0 + GoDeepIntended(p.y).0 * 2 + GoDeepIntended(p.z).0 * 4;
      0 <= s < 8
    ensures IsNormal(Vector3D(GoDeepIntended(p.x).1, GoDeepIntended(p.y).1, GoDeepIntended(p.z).1))
  {
  }

  /** The leaf the intended descent reaches, for every normal position and depth. */
  function IntendedLeafIndex(depth: nat, p: Vector3D): (k: nat)
    requires IsNormal(p)
    ensures k < Pow8(depth)
    decreases depth
  {
    if depth == 0 then 0
    else
      var (x, nx) := GoDeepIntended(p.x);
      var (y, ny) := GoDeepIntended(p.y);
      var (z, nz) := GoDeepIntended(p.z);
      var rest := IntendedLeafIndex(depth - 1, Vector3D(nx, ny, nz));
      SlotScale(x + y * 2 + z * 4, Pow8(depth - 1), rest);
      (x + y * 2 + z * 4) * Pow8(depth - 1) + rest
  }

  /** A `List<T>` holding the elements of one leaf. */
  class ElementList<T> {
    var items: seq<T>

    constructor ()
      ensures items == []
    {
      items := [];
    }
  }

  /** The contents of some leaf lists, in order. */
  ghost function Items<T>(bags: seq<ElementList<T>>): (r: seq<seq<T>>)
    reads bags
    ensures |r| == |bags|
    ensures forall j :: 0 <= j < |bags| ==> r[j] == bags[j].items
    decreases |bags|
  {
    if bags == [] then [] else Items(DropLast(bags)) + [Last(bags).items]
  }

  lemma {:induction false} ItemsConcat<T>(a: seq<ElementList<T>>, b: seq<ElementList<T>>)
    ensures Items(a + b) == Items(a) + Items(b)
  {
  }

  /** The leaf lists below each child, child by child. */
  ghost function BagsOf<T>(kids: seq<Octree<T>>): seq<seq<ElementList<T>>> {
    seq(|kids|, j requires 0 <= j < |kids| => kids[j].Bags)
  }

  /** The leaf lists below the first `i` children, in order. */
  ghost function BagsUpTo<T>(kids: seq<Octree<T>>, i: nat): seq<ElementList<T>>
    requires i <= |kids|
  {
    Flatten(BagsOf(kids[..i]))
  }

  lemma BagsUpToStep<T>(kids: seq<Octree<T>>, i: nat)
    requires i < |kids|
    ensures BagsUpTo(kids, i + 1) == BagsUpTo(kids, i) + kids[i].Bags
  {
    assert BagsOf(kids[..i + 1]) == BagsOf(kids[..i]) + [kids[i].Bags];
    FlattenConcat(BagsOf(kids[..i]), [kids[i].Bags]);
    assert Flatten([kids[i].Bags]) == kids[i].Bags;
  }

  lemma LeavesStep<T>(kids: seq<Octree<T>>, i: nat)
    requires i < |kids|
    ensures Items(BagsUpTo(kids, i + 1)) == Items(BagsUpTo(kids, i)) + Items(kids[i].Bags)
  {
    BagsUpToStep(kids, i);
    ItemsConcat(BagsUpTo(kids, i), kids[i].Bags);
  }

  lemma ElementsStep<T>(kids: seq<Octree<T>>, i: nat)
    requires i < |kids|
    ensures Flatten(Items(BagsUpTo(kids, i + 1))) ==
            Flatten(Items(BagsUpTo(kids, i))) + Flatten(Items(kids[i].Bags))
  {
    LeavesStep(kids, i);
    FlattenConcat(Items(BagsUpTo(kids, i)), Items(kids[i].Bags));
  }

  /** Appending a child whose leaf lists are new keeps the leaf lists free of repeats. */
  lemma BagsGrow<T>(kids: seq<Octree<T>>, c: Octree<T>, bags: seq<ElementList<T>>)
    requires bags == Flatten(BagsOf(kids)) && NoDuplicates(bags) && NoDuplicates(c.Bags)
    requires forall m, n :: 0 <= m < |bags| && 0 <= n < |c.Bags| ==> bags[m] != c.Bags[n]
    ensures bags + c.Bags == Flatten(BagsOf(kids + [c])) && NoDuplicates(bags + c.Bags)
  {
    assert BagsOf(kids + [c]) == BagsOf(kids) + [c.Bags];
    FlattenConcat(BagsOf(kids), [c.Bags]);
    assert Flatten([c.Bags]) == c.Bags;
    NoDuplicatesConcat(bags, c.Bags);
  }

  lemma NoDuplicatesConcat<T>(a: seq<T>, b: seq<T>)
    requires NoDuplicates(a) && NoDuplicates(b)
    requires forall m, n :: 0 <= m < |a| && 0 <= n < |b| ==> a[m] != b[n]
    ensures NoDuplicates(a + b)
  {
    forall m, n | 0 <= m < n < |a + b|
      ensures (a + b)[m] != (a + b)[n]
    {
      if n >= |a| && m < |a| {
        assert (a + b)[n] == b[n - |a|];
      }
    }
  }

  /** Flattening blocks of equal length `n`: position `i * n + m` is element `m` of block `i`. */
  lemma {:induction false} FlattenBlocks<T>(ls: seq<seq<T>>, n: nat, i: nat, m: nat)
    requires forall j :: 0 <= j < |ls| ==> |ls[j]| == n
    requires i < |ls| && m < n
    ensures |Flatten(ls)| == |ls| * n
    ensures i * n + m < |Flatten(ls)| && Flatten(ls)[i * n + m] == ls[i][m]
    decreases |ls|
  {
    var init := DropLast(ls);
    assert ls == init + [Last(ls)];
    FlattenConcat(init, [Last(ls)]);
    assert Flatten([Last(ls)]) == Last(ls);
    FlattenLength(init, n);
    if i < |init| {
      FlattenBlocks(init, n, i, m);
    }
    assert |ls| * n == |init| * n + n;
  }

  class Octree<T> {
    const depth: nat
    /** `_children`: the eight children, empty at depth 0. */
    const children: seq<Octree<T>>
    /** `_elements`: the leaf list, null above depth 0. */
    const elements: ElementList?<T>
    /** The leaf lists below this node, in enumeration order. */
    ghost const Bags: seq<ElementList<T>>

    /** The shape the constructor builds: a depth-0 node owns one list; a deeper node owns eight
        children of depth one less, whose leaf lists, in order, are this node's; 8^depth leaf
        lists in all, no list shared. */
    ghost predicate Shape()
      decreases depth
    {
      |Bags| == Pow8(depth) && NoDuplicates(Bags) &&
      if depth == 0 then
        children == [] && elements != null && Bags == [elements]
      else
        elements == null && |children| == 8 &&
        (forall i :: 0 <= i < 8 ==>
          children[i].depth == depth - 1 && |children[i].Bags| == Pow8(depth - 1) &&
          children[i].Shape()) &&
        Bags == Flatten(BagsOf(children))
    }

    /** Below a node of depth d > 0, each of the eight children brings 8^(d-1) leaf lists. */
    lemma ChildBlocks()
      requires Shape() && depth > 0
      ensures |BagsOf(children)| == 8
      ensures forall j :: 0 <= j < 8 ==> |BagsOf(children)[j]| == Pow8(depth - 1)
    {
    }

    /** Everything `GetEnumerator` yields: the leaf lists, concatenated. */
    ghost function Contents(): seq<T>
      reads Bags
    {
      Flatten(Items(Bags))
    }

    /** A depth-0 node gets an empty list; a deeper node gets eight new children of depth one
        less, built in order. Every leaf list is new and empty. */
    constructor (depth: nat)
      ensures this.depth == depth && Shape()
      ensures forall j :: 0 <= j < |Bags| ==> fresh(Bags[j]) && Bags[j].items == []
      decreases depth, 1
    {
      this.depth := depth;
      if depth == 0 {
        var list := new ElementList<T>();
        elements := list;
        children := [];
        Bags := [list];
      } else {
        var kids;
        ghost var bags;
        kids, bags := NewChildren(depth);
        elements := null;
        children := kids;
        Bags := bags;
      }
    }

    /** The constructor's loop for a node of depth `depth > 0`: child `i` is a new node of depth
        one less, for `i` from 0 to 7. */
    static method NewChildren(depth: nat) returns (kids: seq<Octree<T>>, ghost bags: seq<ElementList<T>>)
      requires depth > 0
      ensures |kids| == 8
      ensures forall j :: 0 <= j < 8 ==>
        kids[j].depth == depth - 1 && |kids[j].Bags| == Pow8(depth - 1) && kids[j].Shape()
      ensures bags == Flatten(BagsOf(kids)) && NoDuplicates(bags) && |bags| == Pow8(depth)
      ensures forall j :: 0 <= j < |bags| ==> fresh(bags[j]) && bags[j].items == []
      decreases depth, 0
    {
      kids := [];
      bags := [];
      for i := 0 to 8
        invariant |kids| == i
        invariant forall j :: 0 <= j < i ==> Subtree(kids[j], depth - 1)
        invariant bags == Flatten(BagsOf(kids)) && NoDuplicates(bags)
        invariant forall j :: 0 <= j < |bags| ==> fresh(bags[j])
        invariant forall j :: 0 <= j < |bags| ==> bags[j].items == []
      {
        label Built:
        var child := new Octree<T>(depth - 1);
        assert forall m, n :: 0 <= m < |bags| && 0 <= n < |child.Bags| ==> bags[m] != child.Bags[n] by {
          assert forall m :: 0 <= m < |bags| ==> old@Built(allocated(bags[m]));
        }
        BagsGrow(kids, child, bags);
        kids := kids + [child];
        bags := bags + child.Bags;
      }
      KidsBlocks(kids, depth);
    }

    /** A node as the constructor builds it at the given depth. */
    static ghost predicate Subtree(kid: Octree<T>, depth: nat) {
      kid.depth == depth && |kid.Bags| == Pow8(depth) && kid.Shape()
    }

    /** Eight children with 8^(d-1) leaf lists each hold 8^d leaf lists. */
    static lemma KidsBlocks(kids: seq<Octree<T>>, depth: nat)
      requires depth > 0 && |kids| == 8
      requires forall j :: 0 <= j < 8 ==> |kids[j].Bags| == Pow8(depth - 1)
      ensures |Flatten(BagsOf(kids))| == Pow8(depth)
    {
      assert forall j :: 0 <= j < 8 ==> |BagsOf(kids)[j]| == Pow8(depth - 1);
      FlattenLength(BagsOf(kids), Pow8(depth - 1));
    }

    /** `GetEnumerator`, enumerated to the end: the leaves' elements, leaf by leaf. */
    method GetElements() returns (es: seq<T>)
      requires Shape()
      ensures es == Contents()
      decreases depth
    {
      if depth == 0 {
        es := elements.items;
        assert Items(Bags) == [elements.items];
        assert Flatten([elements.items]) == elements.items;
      } else {
        ghost var kids := children;
        assert Bags == BagsUpTo(kids, 8) by {
          assert kids[..8] == kids;
        }
        ghost var all := Contents();
        es := [];
        for i := 0 to 8
          invariant es == Flatten(Items(BagsUpTo(kids, i)))
          invariant all == Contents()
        {
          ghost var pre := Flatten(Items(BagsUpTo(kids, i)));
          var part := children[i].GetElements();
          assert pre == Flatten(Items(BagsUpTo(kids, i)));
          ElementsStep(kids, i);
          es := es + part;
        }
      }
    }

    /** `GetLeaves`: the elements of each leaf list, one collection per leaf, 8^depth of them. */
    method GetLeaves() returns (leaves: seq<seq<T>>)
      requires Shape()
      ensures leaves == Items(Bags)
      ensures |leaves| == Pow8(depth)
      decreases depth
    {
      if depth == 0 {
        leaves := [elements.items];
      } else {
        ghost var kids := children;
        assert Bags == BagsUpTo(kids, 8) by {
          assert kids[..8] == kids;
        }
        leaves := [];
        for i := 0 to 8
          invariant leaves == Items(BagsUpTo(kids, i))
        {
          var part: seq<seq<T>>;
          ghost var pre := Items(BagsUpTo(kids, i));
          if depth == 1 {
            // The children themselves: each enumerates its own list.
            assert kids[i].Bags == [children[i].elements];
            part := [children[i].elements.items];
          } else {
            part := children[i].GetLeaves();
          }
          assert part == Items(kids[i].Bags);
          assert pre == Items(BagsUpTo(kids, i));
          LeavesStep(kids, i);
          leaves := leaves + part;
        }
      }
    }

    /** `Add` as written: at a leaf, append; otherwise descend into slot `x + 2y + 4z`, which the
        position must keep inside the eight children at every level. Exactly one leaf list
        changes, by gaining the element at its end. */
    method Add(normalPosition: Vector3D, element: T)
      requires Shape() && Fits(depth, normalPosition)
      modifies Bags[LeafIndex(depth, normalPosition)]
      ensures Bags[LeafIndex(depth, normalPosition)].items ==
                old(Bags[LeafIndex(depth, normalPosition)].items) + [element]
      decreases depth
    {
      if depth == 0 {
        elements.items := elements.items + [element];
        return;
      }
      var (x, nestedPositionX) := GoDeep(normalPosition.x);
      var (y, nestedPositionY) := GoDeep(normalPosition.y);
      var (z, nestedPositionZ) := GoDeep(normalPosition.z);
      var i := x + y * 2 + z * 4;
      var deepNormalPosition := Vector3D(nestedPositionX, nestedPositionY, nestedPositionZ);
      ghost var child := children[i];
      ghost var k := LeafIndex(depth - 1, deepNormalPosition);
      ChildBlocks();
      FlattenBlocks(BagsOf(children), Pow8(depth - 1), i, k);
      assert child.Bags[k] == Bags[LeafIndex(depth, normalPosition)];
      children[i].Add(deepNormalPosition, element);
    }

    /** `Add` with the intended `GoDeep`: every normal position descends inside the eight
        children down to one leaf, which gains the element at its end. */
    method AddIntended(normalPosition: Vector3D, element: T)
      requires Shape() && IsNormal(normalPosition)
      modifies Bags[IntendedLeafIndex(depth, normalPosition)]
      ensures Bags[IntendedLeafIndex(depth, normalPosition)].items ==
                old(Bags[IntendedLeafIndex(depth, normalPosition)].items) + [element]
      decreases depth
    {
      if depth == 0 {
        elements.items := elements.items + [element];
        return;
      }
      IntendedSlotInRange(normalPosition);
      var (x, nestedPositionX) := GoDeepIntended(normalPosition.x);
      var (y, nestedPositionY) := GoDeepIntended(normalPosition.y);
      var (z, nestedPositionZ) := GoDeepIntended(normalPosition.z);
      var i := x + y * 2 + z * 4;
      var deepNormalPosition := Vector3D(nestedPositionX, nestedPositionY, nestedPositionZ);
      ghost var child := children[i];
      ghost var k := IntendedLeafIndex(depth - 1, deepNormalPosition);
      ChildBlocks();
      FlattenBlocks(BagsOf(children), Pow8(depth - 1), i, k);
      assert child.Bags[k] == Bags[IntendedLeafIndex(depth, normalPosition)];
      children[i].AddIntended(deepNormalPosition, element);
    }
  }

  /** After `Add`, the leaves are the old leaves with the element appended to leaf `k` and no
      other leaf changed; the enumeration gains exactly that element. */
  lemma AddOneElement<T>(leaves: seq<seq<T>>, k: nat, e: T)
    requires k < |leaves|
    ensures multiset(Flatten(leaves[k := leaves[k] + [e]])) == multiset(Flatten(leaves)) + multiset{e}
  {
    var after := leaves[k := leaves[k] + [e]];
    assert leaves == leaves[..k] + [leaves[k]] + leaves[k + 1..];
    assert after == leaves[..k] + [leaves[k] + [e]] + leaves[k + 1..];
    FlattenConcat(leaves[..k] + [leaves[k]], leaves[k + 1..]);
    FlattenConcat(leaves[..k], [leaves[k]]);
    FlattenConcat(leaves[..k] + [leaves[k] + [e]], leaves[k + 1..]);
    FlattenConcat(leaves[..k], [leaves[k] + [e]]);
    assert Flatten([leaves[k]]) == leaves[k];
    assert Flatten([leaves[k] + [e]]) == leaves[k] + [e];
  }

  /** A client's view of `Add`: the tree keeps its shape, one leaf gains the element, and the
      enumeration is the old one plus exactly that element. */
  method AddAndObserve<T>(tree: Octree<T>, normalPosition: Vector3D, element: T)
    requires tree.Shape() && Fits(tree.depth, normalPosition)
    modifies tree.Bags[LeafIndex(tree.depth, normalPosition)]
    ensures tree.Shape()
    ensures var k := LeafIndex(tree.depth, normalPosition);
      Items(tree.Bags) == old(Items(tree.Bags))[k := old(Items(tree.Bags))[k] + [element]]
    ensures multiset(tree.Contents()) == old(multiset(tree.Contents())) + multiset{element}
  {
    ghost var k := LeafIndex(tree.depth, normalPosition);
    ghost var before := Items(tree.Bags);
    tree.Add(normalPosition, element);
    forall j | 0 <= j < |tree.Bags| && j != k
      ensures tree.Bags[j] != tree.Bags[k]
    {
    }
    assert Items(tree.Bags) == before[k := before[k] + [element]];
    AddOneElement(before, k, element);
  }
}
