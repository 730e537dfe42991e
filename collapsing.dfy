/** The nested dictionary the three creators fill: steam id -> offender grid id -> alert,
    where a later alert for the same pair replaces the earlier one, then enumerated row by row.
    The enumeration order of a .NET dictionary is unspecified, so the enumeration here takes
    the rows and the cells in an order it does not promise, and promises only that every cell
    comes out once. */
module Collapsing {
  import opened Seqs
  import opened Numerics

  type Table<V> = map<ULong, map<int, V>>

  /** `alerts[gridId] = alert` on the row of `steamId`, creating the row when missing. */
  function Put<V>(table: Table<V>, steamId: ULong, gridId: int, v: V): Table<V> {
    table[steamId := (if steamId in table then table[steamId] else map[])[gridId := v]]
  }

  predicate Has<V>(table: Table<V>, steamId: ULong, gridId: int) {
    steamId in table && gridId in table[steamId]
  }

  /** The table after putting `entries`, each (steam id, grid id, alert), in order. */
  function FillFrom<V>(table: Table<V>, entries: seq<(ULong, int, V)>): Table<V>
    decreases |entries|
  {
    if entries == [] then table
    else
      var e := Last(entries);
      Put(FillFrom(table, DropLast(entries)), e.0, e.1, e.2)
  }

  lemma {:induction false} FillFromAppend<V>(table: Table<V>, entries: seq<(ULong, int, V)>, e: (ULong, int, V))
    ensures FillFrom(table, entries + [e]) == Put(FillFrom(table, entries), e.0, e.1, e.2)
  {
    assert DropLast(entries + [e]) == entries;
  }

  /** Putting two batches one after the other is putting their concatenation. */
  lemma {:induction false} FillFromConcat<V>(table: Table<V>, xs: seq<(ULong, int, V)>, ys: seq<(ULong, int, V)>)
    ensures FillFrom(table, xs + ys) == FillFrom(FillFrom(table, xs), ys)
    decreases |ys|
  {
    if ys == [] {
      assert xs + ys == xs;
    } else {
      var zs, e := DropLast(ys), Last(ys);
      assert ys == zs + [e];
      assert xs + ys == (xs + zs) + [e];
      FillFromConcat(table, xs, zs);
      FillFromAppend(table, xs + zs, e);
      FillFromAppend(FillFrom(table, xs), zs, e);
    }
  }

  /** Some entry is about the pair (`steamId`, `gridId`). */
  predicate Mentions<V>(entries: seq<(ULong, int, V)>, steamId: ULong, gridId: int) {
    exists i :: 0 <= i < |entries| && entries[i].0 == steamId && entries[i].1 == gridId
  }

  /** A pair no entry is about keeps its cell, or its absence. */
  lemma {:induction false} FillFromUntouched<V>(table: Table<V>, entries: seq<(ULong, int, V)>, steamId: ULong, gridId: int)
    requires !Mentions(entries, steamId, gridId)
    ensures var t := FillFrom(table, entries);
      (Has(t, steamId, gridId) <==> Has(table, steamId, gridId)) &&
      (Has(t, steamId, gridId) ==> t[steamId][gridId] == table[steamId][gridId])
    decreases |entries|
  {
    if entries != [] {
      var xs, e := DropLast(entries), Last(entries);
      assert entries == xs + [e];
      assert (e.0, e.1) != (steamId, gridId) by {
        assert entries[|xs|] == e;
      }
      FillFromUntouched(table, xs, steamId, gridId);
    }
  }

  /** The last entry about a pair decides its cell. */
  lemma {:induction false} FillFromLastWins<V>(table: Table<V>, entries: seq<(ULong, int, V)>, i: int)
    requires 0 <= i < |entries|
    requires !Mentions(entries[i + 1..], entries[i].0, entries[i].1)
    ensures var t := FillFrom(table, entries);
      Has(t, entries[i].0, entries[i].1) && t[entries[i].0][entries[i].1] == entries[i].2
  {
    var e := entries[i];
    assert entries == entries[..i] + [e] + entries[i + 1..];
    FillFromConcat(table, entries[..i] + [e], entries[i + 1..]);
    FillFromAppend(table, entries[..i], e);
    FillFromUntouched(FillFrom(table, entries[..i] + [e]), entries[i + 1..], e.0, e.1);
  }

  /** A cell of the filled table is a cell of the old table or some entry; and a pair has a
      cell exactly when the old table had one or some entry is about it. */
  lemma {:induction false} FillFromCells<V>(table: Table<V>, entries: seq<(ULong, int, V)>, steamId: ULong, gridId: int)
    ensures var t := FillFrom(table, entries);
      (Has(t, steamId, gridId) <==> Has(table, steamId, gridId) || Mentions(entries, steamId, gridId)) &&
      (Has(t, steamId, gridId) ==>
        (Has(table, steamId, gridId) && t[steamId][gridId] == table[steamId][gridId]) ||
        exists i :: 0 <= i < |entries| && entries[i] == (steamId, gridId, t[steamId][gridId]))
    decreases |entries|
  {
    if entries != [] {
      var xs, e := DropLast(entries), Last(entries);
      assert entries == xs + [e];
      FillFromCells(table, xs, steamId, gridId);
      var t := FillFrom(table, entries);
      if Mentions(xs, steamId, gridId) {
        var i :| 0 <= i < |xs| && xs[i].0 == steamId && xs[i].1 == gridId;
        assert entries[i] == xs[i];
      }
      if Mentions(entries, steamId, gridId) && (e.0, e.1) != (steamId, gridId) {
        var i :| 0 <= i < |entries| && entries[i].0 == steamId && entries[i].1 == gridId;
        assert i < |xs| && xs[i] == entries[i];
      }
      if Has(t, steamId, gridId) && (e.0, e.1) == (steamId, gridId) {
        assert entries[|xs|] == (steamId, gridId, t[steamId][gridId]);
      } else if Has(t, steamId, gridId) && !Has(table, steamId, gridId) {
        var i :| 0 <= i < |xs| && xs[i] == (steamId, gridId, t[steamId][gridId]);
        assert entries[i] == xs[i];
      } else if Has(t, steamId, gridId) && t[steamId][gridId] != table[steamId][gridId] {
        var i :| 0 <= i < |xs| && xs[i] == (steamId, gridId, t[steamId][gridId]);
        assert entries[i] == xs[i];
      }
    }
  }

  /** Every cell holds a value whose own key is the cell's pair. */
  predicate Consistent<V>(table: Table<V>, key: V -> (ULong, int)) {
    forall s, g :: s in table && g in table[s] ==> key(table[s][g]) == (s, g)
  }

  /** `out` lists every cell of `table` once: nothing else, nothing missing, no pair twice. */
  predicate ListsCells<V(==)>(table: Table<V>, out: seq<V>, key: V -> (ULong, int)) {
    (forall v :: v in out ==> Has(table, key(v).0, key(v).1) && table[key(v).0][key(v).1] == v) &&
    (forall s, g :: s in table && g in table[s] ==> table[s][g] in out) &&
    (forall m, n :: 0 <= m < n < |out| ==> key(out[m]) != key(out[n]))
  }

  /** The nested `foreach` over the rows and their cells. */
  method Enumerate<V(==)>(table: Table<V>, key: V -> (ULong, int)) returns (out: seq<V>)
    requires Consistent(table, key)
    ensures ListsCells(table, out, key)
  {
    out := [];
    var pending := table.Keys;
    while pending != {}
      invariant pending <= table.Keys
      invariant forall v :: v in out ==>
        Has(table, key(v).0, key(v).1) && key(v).0 !in pending && table[key(v).0][key(v).1] == v
      invariant forall s, g :: s in table && s !in pending && g in table[s] ==> table[s][g] in out
      invariant forall m, n :: 0 <= m < n < |out| ==> key(out[m]) != key(out[n])
      decreases |pending|
    {
      var steamId :| steamId in pending;
      var row := EnumerateRow(table, key, steamId);
      forall m, n | 0 <= m < n < |out + row|
        ensures key((out + row)[m]) != key((out + row)[n])
      {
        if n >= |out| && m < |out| {
          assert (out + row)[m] in out && (out + row)[n] in row;
        } else if n < |out| {
          assert (out + row)[m] == out[m] && (out + row)[n] == out[n];
        } else {
          assert (out + row)[m] == row[m - |out|] && (out + row)[n] == row[n - |out|];
        }
      }
      out := out + row;
      pending := pending - {steamId};
    }
  }

  /** The inner `foreach`: the cells of one row. */
  method EnumerateRow<V(==)>(table: Table<V>, key: V -> (ULong, int), steamId: ULong) returns (out: seq<V>)
    requires Consistent(table, key) && steamId in table
    ensures forall v :: v in out ==> key(v).0 == steamId && key(v).1 in table[steamId] && table[steamId][key(v).1] == v
    ensures forall g :: g in table[steamId] ==> table[steamId][g] in out
    ensures forall m, n :: 0 <= m < n < |out| ==> key(out[m]) != key(out[n])
  {
    var row := table[steamId];
    out := [];
    var pending := row.Keys;
    while pending != {}
      invariant pending <= row.Keys
      invariant forall v :: v in out ==> key(v).0 == steamId && key(v).1 in row && key(v).1 !in pending && row[key(v).1] == v
      invariant forall g :: g in row && g !in pending ==> row[g] in out
      invariant forall m, n :: 0 <= m < n < |out| ==> key(out[m]) != key(out[n])
      decreases |pending|
    {
      assert exists g :: g in pending by {
        if forall g :: g !in pending {
          assert false;
        }
      }
      var gridId :| gridId in pending;
      assert key(row[gridId]) == (steamId, gridId);
      out := out + [row[gridId]];
      pending := pending - {gridId};
    }
  }

  /** A batch of `Put`s that all target the pair (`steamId`, `gridId`) with the same value
      leaves that value in the cell, whatever else the batch puts. */
  lemma {:induction false} FillFromUniform<V>(table: Table<V>, entries: seq<(ULong, int, V)>, steamId: ULong, gridId: int, v: V)
    requires Mentions(entries, steamId, gridId)
    requires forall k :: 0 <= k < |entries| && entries[k].0 == steamId && entries[k].1 == gridId ==> entries[k].2 == v
    ensures var t := FillFrom(table, entries); Has(t, steamId, gridId) && t[steamId][gridId] == v
    decreases |entries|
  {
    var xs, e := DropLast(entries), Last(entries);
    assert entries == xs + [e];
    if (e.0, e.1) != (steamId, gridId) {
      var k :| 0 <= k < |entries| && entries[k].0 == steamId && entries[k].1 == gridId;
      assert k < |xs| && xs[k] == entries[k];
      FillFromUniform(table, xs, steamId, gridId, v);
    } else {
      assert entries[|xs|] == e;
    }
  }

  /** The cells of one generated batch: each value at the row of its recipient and the given
      column, in the order generated. */
  function EntriesOf<V>(row: V -> ULong, column: int, vs: seq<V>): (r: seq<(ULong, int, V)>)
    ensures |r| == |vs|
    ensures forall k :: 0 <= k < |vs| ==> r[k] == (row(vs[k]), column, vs[k])
    decreases |vs|
  {
    if vs == [] then []
    else EntriesOf(row, column, DropLast(vs)) + [(row(Last(vs)), column, Last(vs))]
  }

  /** The `Put`s the creators' nested loop makes, proximity by proximity: every value `gen`
      generates for a proximity, at the row of its recipient and the proximity's column. */
  function Entries<P, V>(gen: P -> seq<V>, row: V -> ULong, column: P -> int, ps: seq<P>): seq<(ULong, int, V)>
    decreases |ps|
  {
    if ps == [] then []
    else Entries(gen, row, column, DropLast(ps)) + EntriesOf(row, column(Last(ps)), gen(Last(ps)))
  }

  /** The table the creators' nested loop leaves behind. */
  function Collapse<P, V>(gen: P -> seq<V>, row: V -> ULong, column: P -> int, ps: seq<P>): Table<V> {
    FillFrom(map[], Entries(gen, row, column, ps))
  }

  lemma {:induction false} EntriesOfAppend<V>(row: V -> ULong, column: int, vs: seq<V>, v: V)
    ensures EntriesOf(row, column, vs + [v]) == EntriesOf(row, column, vs) + [(row(v), column, v)]
  {
    assert DropLast(vs + [v]) == vs;
  }

  lemma {:induction false} EntriesAppend<P, V>(gen: P -> seq<V>, row: V -> ULong, column: P -> int, ps: seq<P>, p: P)
    ensures Entries(gen, row, column, ps + [p]) == Entries(gen, row, column, ps) + EntriesOf(row, column(p), gen(p))
  {
    assert DropLast(ps + [p]) == ps;
  }

  lemma {:induction false} EntriesConcat<P, V>(gen: P -> seq<V>, row: V -> ULong, column: P -> int, xs: seq<P>, ys: seq<P>)
    ensures Entries(gen, row, column, xs + ys) == Entries(gen, row, column, xs) + Entries(gen, row, column, ys)
    decreases |ys|
  {
    if ys == [] {
      assert xs + ys == xs;
    } else {
      var zs, p := DropLast(ys), Last(ys);
      assert ys == zs + [p];
      assert xs + ys == (xs + zs) + [p];
      EntriesConcat(gen, row, column, xs, zs);
      EntriesAppend(gen, row, column, xs + zs, p);
      EntriesAppend(gen, row, column, zs, p);
    }
  }

  /** `v` is what `gen` makes of some proximity in `ps` for recipient `steamId`, and that
      proximity's column is `gridId`. */
  ghost predicate ComesFrom<P, V>(gen: P -> seq<V>, row: V -> ULong, column: P -> int, ps: seq<P>, steamId: ULong, gridId: int, v: V) {
    exists i :: 0 <= i < |ps| && column(ps[i]) == gridId && v in gen(ps[i]) && row(v) == steamId
  }

  lemma {:induction false} EntryOrigin<P, V>(gen: P -> seq<V>, row: V -> ULong, column: P -> int, ps: seq<P>, k: int)
    requires 0 <= k < |Entries(gen, row, column, ps)|
    ensures var e := Entries(gen, row, column, ps)[k]; ComesFrom(gen, row, column, ps, e.0, e.1, e.2)
    decreases |ps|
  {
    var qs, p := DropLast(ps), Last(ps);
    assert ps == qs + [p];
    var es := Entries(gen, row, column, qs);
    var e := Entries(gen, row, column, ps)[k];
    if k < |es| {
      EntryOrigin(gen, row, column, qs, k);
      var i :| 0 <= i < |qs| && column(qs[i]) == e.1 && e.2 in gen(qs[i]) && row(e.2) == e.0;
      assert ps[i] == qs[i];
    } else {
      assert e == (row(gen(p)[k - |es|]), column(p), gen(p)[k - |es|]);
      assert ps[|qs|] == p;
    }
  }

  /** Every cell of the collapsed table holds a value generated for its row by a proximity of
      its column. */
  lemma CollapseOrigin<P, V>(gen: P -> seq<V>, row: V -> ULong, column: P -> int, ps: seq<P>, steamId: ULong, gridId: int)
    requires Has(Collapse(gen, row, column, ps), steamId, gridId)
    ensures ComesFrom(gen, row, column, ps, steamId, gridId, Collapse(gen, row, column, ps)[steamId][gridId])
  {
    var es := Entries(gen, row, column, ps);
    var t := Collapse(gen, row, column, ps);
    FillFromCells(map[], es, steamId, gridId);
    var k :| 0 <= k < |es| && es[k] == (steamId, gridId, t[steamId][gridId]);
    EntryOrigin(gen, row, column, ps, k);
  }

  /** When every generated value's key is its recipient and its proximity's column, the
      collapsed table is consistent, as `Enumerate` needs. */
  lemma CollapseConsistent<P, V>(gen: P -> seq<V>, row: V -> ULong, column: P -> int, key: V -> (ULong, int), ps: seq<P>)
    requires forall p, v :: v in gen(p) ==> key(v) == (row(v), column(p))
    ensures Consistent(Collapse(gen, row, column, ps), key)
  {
    var t := Collapse(gen, row, column, ps);
    forall s, g | s in t && g in t[s]
      ensures key(t[s][g]) == (s, g)
    {
      CollapseOrigin(gen, row, column, ps, s, g);
    }
  }

  /** The last proximity wins: a value generated by `ps[i]`, when `ps[i]` generates nothing
      else for that recipient and no later proximity of the same column generates anything for
      it, is the cell's value. */
  lemma CollapseLastWins<P, V>(gen: P -> seq<V>, row: V -> ULong, column: P -> int, ps: seq<P>, i: int, v: V)
    requires 0 <= i < |ps| && v in gen(ps[i])
    requires forall w :: w in gen(ps[i]) && row(w) == row(v) ==> w == v
    requires forall j, w :: i < j < |ps| && w in gen(ps[j]) && row(w) == row(v) ==> column(ps[j]) != column(ps[i])
    ensures var t := Collapse(gen, row, column, ps);
      Has(t, row(v), column(ps[i])) && t[row(v)][column(ps[i])] == v
  {
    var s, g := row(v), column(ps[i]);
    var before, after := ps[..i], ps[i + 1..];
    assert ps == (before + [ps[i]]) + after;
    EntriesConcat(gen, row, column, before + [ps[i]], after);
    EntriesAppend(gen, row, column, before, ps[i]);
    var batch := EntriesOf(row, g, gen(ps[i]));
    var head := Entries(gen, row, column, before);
    var tail := Entries(gen, row, column, after);
    FillFromConcat(map[], head + batch, tail);
    FillFromConcat(map[], head, batch);
    var k :| 0 <= k < |gen(ps[i])| && gen(ps[i])[k] == v;
    assert batch[k] == (s, g, v);
    FillFromUniform(FillFrom(map[], head), batch, s, g, v);
    assert !Mentions(tail, s, g) by {
      if Mentions(tail, s, g) {
        var m :| 0 <= m < |tail| && tail[m].0 == s && tail[m].1 == g;
        EntryOrigin(gen, row, column, after, m);
      }
    }
    FillFromUntouched(FillFrom(map[], head + batch), tail, s, g);
  }

  /** `TryGetValue` on the outer dictionary, creating and registering an empty row when the
      steam id has none, then setting the cell: the same as `Put`. */
  method Store<V>(table: Table<V>, steamId: ULong, gridId: int, v: V) returns (t: Table<V>)
    ensures t == Put(table, steamId, gridId, v)
  {
    t := table;
    var row: map<int, V>;
    if steamId in t {
      row := t[steamId];
    } else {
      row := map[];
      t := t[steamId := row];
    }
    t := t[steamId := row[gridId := v]];
  }

  /** Setting a cell to a value whose key is the cell's pair keeps the table consistent. */
  lemma PutConsistent<V>(table: Table<V>, key: V -> (ULong, int), steamId: ULong, gridId: int, v: V)
    requires Consistent(table, key) && key(v) == (steamId, gridId)
    ensures Consistent(Put(table, steamId, gridId, v), key)
  {
  }

  /** One more proximity through the outer loop: its batch of `Put`s on top of the table so far. */
  lemma FillFromEntriesStep<P, V>(gen: P -> seq<V>, row: V -> ULong, column: P -> int, table: Table<V>, ps: seq<P>, i: int)
    requires 0 <= i < |ps|
    ensures FillFrom(table, Entries(gen, row, column, ps[..i + 1])) ==
            FillFrom(FillFrom(table, Entries(gen, row, column, ps[..i])), EntriesOf(row, column(ps[i]), gen(ps[i])))
  {
    assert ps[..i + 1] == ps[..i] + [ps[i]];
    EntriesAppend(gen, row, column, ps[..i], ps[i]);
    FillFromConcat(table, Entries(gen, row, column, ps[..i]), EntriesOf(row, column(ps[i]), gen(ps[i])));
  }
}
