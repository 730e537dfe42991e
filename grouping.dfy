/** A `Dictionary<K, List<V>>` filled through the `Add(key, value)` extension of
    `Utils.General`: a value goes to the end of its key's list, and a key seen for the first
    time gets a new list. The dictionary is never removed from, so it enumerates its keys in
    the order they were first added. */
module Grouping {
  import opened Seqs

  /** The dictionary: `order` is its enumeration order, `lists` its contents. */
  datatype Groups<K, V> = Groups(order: seq<K>, lists: map<K, seq<V>>)

  /** `dict.Add(key, value)` on a dictionary of lists. */
  function AddTo<K(==), V(==)>(g: Groups<K, V>, key: K, value: V): Groups<K, V> {
    if key in g.lists then Groups(g.order, g.lists[key := g.lists[key] + [value]])
    else Groups(g.order + [key], g.lists[key := [value]])
  }

  /** The dictionary after adding each `(key, value)` entry in turn to an empty one. */
  function GroupAll<K(==), V(==)>(entries: seq<(K, V)>): Groups<K, V>
    decreases |entries|
  {
    if entries == [] then Groups([], map[])
    else AddTo(GroupAll(DropLast(entries)), Last(entries).0, Last(entries).1)
  }

  /** The keys of the entries, in entry order. */
  function Keys<K(==), V(==)>(entries: seq<(K, V)>): (r: seq<K>)
    ensures |r| == |entries|
    ensures forall i :: 0 <= i < |r| ==> r[i] == entries[i].0
  {
    seq(|entries|, i requires 0 <= i < |entries| => entries[i].0)
  }

  /** The values of the entries with key `key`, in entry order. */
  function ValuesOf<K(==), V(==)>(entries: seq<(K, V)>, key: K): (r: seq<V>)
    ensures forall v :: v in r ==> (key, v) in entries
    ensures forall i :: 0 <= i < |entries| && entries[i].0 == key ==> entries[i].1 in r
    ensures (forall i :: 0 <= i < |entries| ==> entries[i].0 != key) ==> r == []
    decreases |entries|
  {
    if entries == [] then []
    else
      var rest := ValuesOf(DropLast(entries), key);
      assert entries == DropLast(entries) + [Last(entries)];
      if Last(entries).0 == key then rest + [Last(entries).1] else rest
  }

  /** The number of values over the keys of `order`. */
  function TotalSize<K(==), V(==)>(order: seq<K>, lists: map<K, seq<V>>): nat
    decreases |order|
  {
    if order == [] then 0
    else TotalSize(DropLast(order), lists) + if Last(order) in lists then |lists[Last(order)]| else 0
  }

  /** The dictionary enumerates each key of the entries once, in order of first
      appearance, and holds a list for exactly those keys. */
  lemma {:induction false} GroupAllKeys<K, V>(entries: seq<(K, V)>)
    ensures GroupAll(entries).order == Dedup(Keys(entries))
    ensures forall k :: k in GroupAll(entries).lists <==> k in Keys(entries)
    decreases |entries|
  {
    if entries != [] {
      var init := DropLast(entries);
      GroupAllKeys(init);
      assert Keys(entries) == Keys(init) + [Last(entries).0];
      DedupAppend(Keys(init), Last(entries).0);
    }
  }

  /** Every key's list holds exactly the values entered under it, in entry order. */
  lemma {:induction false} GroupAllLists<K, V>(entries: seq<(K, V)>)
    ensures forall k :: k in GroupAll(entries).lists ==> GroupAll(entries).lists[k] == ValuesOf(entries, k)
    decreases |entries|
  {
    if entries != [] {
      var init := DropLast(entries);
      GroupAllLists(init);
      GroupAllKeys(init);
      var g := GroupAll(init);
      var key := Last(entries).0;
      forall k | k in GroupAll(entries).lists
        ensures GroupAll(entries).lists[k] == ValuesOf(entries, k)
      {
        if k != key {
          assert k in g.lists;
        } else if key !in g.lists {
          assert key !in Keys(init);
          assert ValuesOf(init, key) == [];
        }
      }
    }
  }

  /** No value is lost or counted twice: the lists hold as many values as there were
      entries. */
  lemma {:induction false} GroupAllTotal<K, V>(entries: seq<(K, V)>)
    ensures TotalSize(GroupAll(entries).order, GroupAll(entries).lists) == |entries|
    decreases |entries|
  {
    if entries != [] {
      var init := DropLast(entries);
      var (key, value) := Last(entries);
      GroupAllTotal(init);
      GroupAllKeys(init);
      var g := GroupAll(init);
      if key in g.lists {
        TotalSizeGrow(g.order, g.lists, key, value);
      } else {
        TotalSizeOther(g.order, g.lists, key, [value]);
        assert DropLast(g.order + [key]) == g.order;
      }
    }
  }

  /** Changing the list of a key outside `order` leaves the total alone. */
  lemma {:induction false} TotalSizeOther<K, V>(order: seq<K>, lists: map<K, seq<V>>, key: K, list: seq<V>)
    requires key !in order
    ensures TotalSize(order, lists[key := list]) == TotalSize(order, lists)
    decreases |order|
  {
    if order != [] {
      assert Last(order) in order;
      assert forall k :: k in DropLast(order) ==> k in order;
      TotalSizeOther(DropLast(order), lists, key, list);
    }
  }

  /** One more value in the list of a key that `order` holds once adds one to the total. */
  lemma {:induction false} TotalSizeGrow<K, V>(order: seq<K>, lists: map<K, seq<V>>, key: K, value: V)
    requires NoDuplicates(order) && key in order && key in lists
    ensures TotalSize(order, lists[key := lists[key] + [value]]) == TotalSize(order, lists) + 1
    decreases |order|
  {
    var init := DropLast(order);
    assert order == init + [Last(order)];
    assert NoDuplicates(init) by {
      forall i, j | 0 <= i < j < |init| ensures init[i] != init[j] {
        assert init[i] == order[i] && init[j] == order[j];
      }
    }
    if Last(order) == key {
      assert key !in init by {
        forall i | 0 <= i < |init| ensures init[i] != key {
          assert init[i] == order[i] && key == order[|order| - 1];
        }
      }
      TotalSizeOther(init, lists, key, lists[key] + [value]);
    } else {
      assert key in init;
      TotalSizeGrow(init, lists, key, value);
    }
  }

  /** An entry's value lands in the list of its own key, and only there. */
  lemma EveryValueInItsGroup<K, V>(entries: seq<(K, V)>, i: nat)
    requires i < |entries|
    ensures entries[i].0 in GroupAll(entries).lists
    ensures entries[i].1 in GroupAll(entries).lists[entries[i].0]
    ensures forall k :: k in GroupAll(entries).lists && entries[i].1 in GroupAll(entries).lists[k] ==>
      (k, entries[i].1) in entries
  {
    GroupAllKeys(entries);
    GroupAllLists(entries);
    assert Keys(entries)[i] == entries[i].0;
    assert entries[i] in entries;
  }
}
